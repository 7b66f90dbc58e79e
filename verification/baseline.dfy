/** The statistical baseline of the health index: calibrated once from the
    history (`np.mean`, `np.std`) and then nudged toward the smoothed index. */
module BaselineEstimator {
  import opened Prelude

  /** A calibrated baseline: mean `mu` and standard deviation `sigma`. */
  datatype Baseline = Baseline(mu: real, sigma: real)

  /** The number of readings after which the first calibration happens. */
  const CalibrationCount: nat := 200

  /** The weight given to the newest smoothed value when the baseline adapts. */
  const AdaptRate: real := 0.01

  function Sum(s: seq<real>): (total: real) {
    if s == [] then 0.0 else s[0] + Sum(s[1..])
  }

  /** Dividing by a positive count keeps order, and undoes multiplying by it. */
  lemma DivideBounds(a: real, b: real, n: real, c: real)
    requires n > 0.0 && a <= b
    ensures a / n <= b / n
    ensures a == n * c ==> a / n == c
    ensures b == n * c ==> b / n == c
  {
  }

  /** `np.mean` of a non-empty sequence: it lies within any bounds that hold
      for every sample. */
  function Mean(s: seq<real>): (m: real)
    requires |s| > 0
    ensures forall lo, hi :: AllIn(s, lo, hi) ==> lo <= m <= hi
  {
    var n := |s| as real;
    assert forall lo, hi :: AllIn(s, lo, hi) ==> lo <= Sum(s) / n <= hi by {
      forall lo, hi | AllIn(s, lo, hi)
        ensures lo <= Sum(s) / n <= hi
      {
        SumBounds(s, lo, hi);
        DivideBounds(n * lo, Sum(s), n, lo);
        DivideBounds(Sum(s), n * hi, n, hi);
      }
    }
    Sum(s) / n
  }

  /** Sum of squared deviations of `s` from `m`. */
  function SquaredDeviations(s: seq<real>, m: real): (total: real) {
    if s == [] then 0.0 else (s[0] - m) * (s[0] - m) + SquaredDeviations(s[1..], m)
  }

  /** The population variance (`np.std` squared, no degrees-of-freedom
      correction): never negative, and zero for a constant sequence. */
  function PopVariance(s: seq<real>): (v: real)
    requires |s| > 0
    ensures v >= 0.0
    ensures AllIn(s, Mean(s), Mean(s)) ==> v == 0.0
  {
    var n := |s| as real;
    SquaredDeviationsNonNegative(s, Mean(s));
    DivideBounds(0.0, SquaredDeviations(s, Mean(s)), n, 0.0);
    assert AllIn(s, Mean(s), Mean(s)) ==> SquaredDeviations(s, Mean(s)) == 0.0 by {
      if AllIn(s, Mean(s), Mean(s)) {
        SquaredDeviationsOfConstant(s, Mean(s));
      }
    }
    SquaredDeviations(s, Mean(s)) / n
  }

  /** `sqrt` maps every non-negative real to its non-negative square root.
      The root of zero is spelled out: it follows from the general clause, but
      the solver does not derive it from `r * r == 0` on its own. */
  ghost predicate IsSqrt(sqrt: real -> real) {
    && sqrt(0.0) == 0.0
    && forall x :: 0.0 <= x ==> 0.0 <= sqrt(x) && sqrt(x) * sqrt(x) == x
  }

  lemma {:induction false} SumBounds(s: seq<real>, lo: real, hi: real)
    requires AllIn(s, lo, hi)
    ensures (|s| as real) * lo <= Sum(s) <= (|s| as real) * hi
  {
    if s != [] {
      SumBounds(s[1..], lo, hi);
      assert s[0] == s[..1][0];
    }
  }

  lemma Square(d: real)
    ensures d * d >= 0.0
  {
  }

  lemma {:induction false} SquaredDeviationsNonNegative(s: seq<real>, m: real)
    ensures SquaredDeviations(s, m) >= 0.0
  {
    if s != [] {
      SquaredDeviationsNonNegative(s[1..], m);
      Square(s[0] - m);
    }
  }

  lemma {:induction false} SquaredDeviationsOfConstant(s: seq<real>, m: real)
    requires AllIn(s, m, m)
    ensures SquaredDeviations(s, m) == 0.0
  {
    if s != [] {
      assert AllIn(s[1..], m, m) by {
        forall i | 0 <= i < |s[1..]|
          ensures s[1..][i] == m
        {
          assert s[1..][i] == s[i + 1];
        }
      }
      SquaredDeviationsOfConstant(s[1..], m);
    }
  }

  /** Calibration (`baseline["mu"] = np.mean(hi_hist)`, `baseline["sigma"] = np.std(hi_hist)`);
      `sqrt` stands for numpy's square root. */
  function Calibrate(h: seq<real>, sqrt: real -> real): (b: Baseline)
    requires |h| > 0
    ensures AllIn(h, 0.0, 1.0) ==> 0.0 <= b.mu <= 1.0
    ensures IsSqrt(sqrt) ==> b.sigma >= 0.0 && b.sigma * b.sigma == PopVariance(h)
    ensures IsSqrt(sqrt) && AllIn(h, b.mu, b.mu) ==> b.sigma == 0.0
  {
    Baseline(Mean(h), sqrt(PopVariance(h)))
  }

  /** A constant calibration window gives that constant as mean and a zero deviation. */
  lemma CalibrateConstant(h: seq<real>, c: real, sqrt: real -> real)
    requires |h| > 0
    requires AllIn(h, c, c)
    requires IsSqrt(sqrt)
    ensures Calibrate(h, sqrt) == Baseline(c, 0.0)
  {
  }

  /** The adaptive update applied in `Normal` and `Reparo`: `mu` moves 1% of the
      way toward the smoothed value, then `sigma` moves 1% of the way toward the
      distance between the smoothed value and the already updated `mu`. */
  function Adapt(b: Baseline, smoothed: real): (r: Baseline)
    ensures Min(b.mu, smoothed) <= r.mu <= Max(b.mu, smoothed)
    ensures r.mu - smoothed == (1.0 - AdaptRate) * (b.mu - smoothed)
    ensures r.sigma == (1.0 - AdaptRate) * b.sigma + AdaptRate * (1.0 - AdaptRate) * Abs(smoothed - b.mu)
    ensures b.sigma >= 0.0 ==> r.sigma >= 0.0
  {
    var mu := (1.0 - AdaptRate) * b.mu + AdaptRate * smoothed;
    Baseline(mu, (1.0 - AdaptRate) * b.sigma + AdaptRate * Abs(smoothed - mu))
  }

  /** With the mean and the smoothed value in [0, 1], the adapted mean stays in [0, 1]. */
  lemma AdaptKeepsUnitMean(b: Baseline, smoothed: real)
    requires 0.0 <= b.mu <= 1.0
    requires 0.0 <= smoothed <= 1.0
    ensures 0.0 <= Adapt(b, smoothed).mu <= 1.0
  {
  }
}
