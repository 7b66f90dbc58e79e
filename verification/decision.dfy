/** The per-tick assessment: the operating state decided from the drift flag
    and the baseline thresholds, and the derived risk, TTF and training target. */
module Decision {
  import opened Prelude
  import opened BaselineEstimator

  /** The operating state (`estado`), with the labels the edge node writes out. */
  datatype Mode = Calibrando | Normal | Drift | Falha | Reparo | Recalibrando

  /** Deviations beyond this many standard deviations count as Falha or Reparo. */
  const Deviations: real := 2.0

  /** The decision chain: a drift flag wins, then a smoothed index strictly
      below `mu - 2 sigma` is Falha, strictly above `mu + 2 sigma` is Reparo,
      anything else is Normal. */
  function Decide(drift: bool, smoothed: real, b: Baseline): (m: Mode)
    ensures m == Drift <==> drift
    ensures m == Falha <==> !drift && smoothed < b.mu - Deviations * b.sigma
    ensures m == Normal <==> !drift && Abs(smoothed - b.mu) <= Deviations * b.sigma
    ensures b.sigma >= 0.0 ==> (m == Reparo <==> !drift && smoothed > b.mu + Deviations * b.sigma)
    ensures m != Calibrando && m != Recalibrando
  {
    if drift then Drift
    else if smoothed < b.mu - Deviations * b.sigma then Falha
    else if smoothed > b.mu + Deviations * b.sigma then Reparo
    else Normal
  }

  /** With a zero deviation the thresholds collapse onto `mu`: any smoothed
      value below it is Falha, above it Reparo, and only `mu` itself is Normal. */
  lemma ZeroSigmaThresholds(smoothed: real, mu: real)
    ensures smoothed < mu ==> Decide(false, smoothed, Baseline(mu, 0.0)) == Falha
    ensures smoothed > mu ==> Decide(false, smoothed, Baseline(mu, 0.0)) == Reparo
    ensures Decide(false, smoothed, Baseline(mu, 0.0)) == Normal <==> smoothed == mu
  {
  }

  /** The thresholds are strict: a smoothed value exactly on `mu - 2 sigma` or
      `mu + 2 sigma` is still Normal. */
  lemma ThresholdsAreStrict(b: Baseline)
    requires b.sigma >= 0.0
    ensures Decide(false, b.mu - Deviations * b.sigma, b) == Normal
    ensures Decide(false, b.mu + Deviations * b.sigma, b) == Normal
  {
  }

  /** The baseline adapts only in these states. */
  predicate Adapts(m: Mode) {
    m == Normal || m == Reparo
  }

  /** `TTF_estimado = max(1, 1000 * (1 - prediction))`, for any prediction of the model. */
  function Ttf(prediction: real): (t: real)
    ensures t >= 1.0
    ensures t == 1.0 <==> prediction >= 0.999
    ensures t > 1.0 ==> t == 1000.0 * (1.0 - prediction)
  {
    Max(1.0, 1000.0 * (1.0 - prediction))
  }

  /** A larger predicted proximity to failure never gives a longer time to failure. */
  lemma TtfAntitone(p: real, q: real)
    requires p <= q
    ensures Ttf(q) <= Ttf(p)
  {
  }

  /** `risco = min(100, max(0, (1 - smoothed) * 100))`. */
  function Risk(smoothed: real): (r: real)
    ensures 0.0 <= r <= 100.0
    ensures 0.0 <= smoothed <= 1.0 ==> r == (1.0 - smoothed) * 100.0
    ensures smoothed >= 1.0 ==> r == 0.0
  {
    Min(100.0, Max(0.0, (1.0 - smoothed) * 100.0))
  }

  /** The regression target `y = max(0, 1 - smoothed)`. */
  function Target(smoothed: real): (y: real)
    ensures y >= 0.0
    ensures smoothed <= 1.0 ==> y == 1.0 - smoothed
    ensures smoothed >= 0.0 ==> y <= 1.0
  {
    Max(0.0, 1.0 - smoothed)
  }

  /** For a non-negative smoothed index the risk is the training target as a
      percentage, and a healthier index never has a higher risk. */
  lemma RiskIsScaledTarget(s: real, t: real)
    requires 0.0 <= s <= t
    ensures Risk(s) == 100.0 * Target(s)
    ensures Risk(t) <= Risk(s)
  {
  }
}
