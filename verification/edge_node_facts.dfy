/** Properties of one iteration of the edge node's loop. */
module EdgeNodeFacts {
  import opened Prelude
  import opened HealthIndex
  import opened Smoothing
  import opened BaselineEstimator
  import opened Decision
  import opened EdgeNode

  /** Every sample handed to the regression has its smoothed value and target in [0, 1]. */
  ghost predicate TrainingInRange(t: seq<Sample>) {
    forall i :: 0 <= i < |t| ==> 0.0 <= t[i].smoothed <= 1.0 && 0.0 <= t[i].target <= 1.0
  }

  /** What holds of every state the loop can reach. */
  ghost predicate Valid(e: Engine) {
    && |e.history| == e.tick
    && AllIn(e.history, 0.0, 1.0)
    && AllIn(e.detectorFeed, 0.0, 1.0)
    && TrainingInRange(e.training)
    && (e.baseline.Some? ==>
          && e.tick >= CalibrationCount
          && 0.0 <= e.baseline.value.mu <= 1.0
          && e.baseline.value.sigma >= 0.0)
    && (e.mode == Calibrando || e.mode == Recalibrando ==> e.baseline.None?)
  }

  lemma InitValid()
    ensures Valid(Init)
  {
  }

  lemma AppendInRange(s: seq<real>, x: real)
    requires AllIn(s, 0.0, 1.0)
    requires 0.0 <= x <= 1.0
    ensures AllIn(s + [x], 0.0, 1.0)
  {
    assert forall i :: 0 <= i < |s| ==> (s + [x])[i] == s[i];
  }

  /** The calibrated branch keeps every range the invariant asks for. */
  lemma MonitorKeepsRanges(e: Engine, b: Baseline, hi: real, drift: bool, prediction: real)
    requires |e.history| > 0
    requires AllIn(e.history, 0.0, 1.0) && AllIn(e.detectorFeed, 0.0, 1.0)
    requires TrainingInRange(e.training)
    requires 0.0 <= hi <= 1.0
    requires 0.0 <= b.mu <= 1.0 && b.sigma >= 0.0
    ensures var a := Monitor(e, b, hi, drift, prediction);
            && AllIn(a.engine.detectorFeed, 0.0, 1.0)
            && TrainingInRange(a.engine.training)
            && 0.0 <= a.engine.baseline.value.mu <= 1.0
            && a.engine.baseline.value.sigma >= 0.0
            && 0.0 <= a.metrics.value.smoothed <= 1.0
  {
    var s := Smoothed(e.history);
    assert 0.0 <= s <= 1.0;
    AppendInRange(e.detectorFeed, hi);
    if Adapts(Decide(drift, s, b)) {
      AdaptKeepsUnitMean(b, s);
    }
    var t := e.training + [Sample(s, Derivative(e.history), Target(s))];
    assert TrainingInRange(t) by {
      assert forall i :: 0 <= i < |e.training| ==> t[i] == e.training[i];
    }
  }

  /** Every iteration keeps the state valid, and the records it emits are in range. */
  lemma StepPreservesValid(e: Engine, reading: Option<Reading>, drift: bool, prediction: real,
                           cmds: Commands, sqrt: real -> real)
    requires Valid(e)
    requires IsSqrt(sqrt)
    ensures Valid(Step(e, reading, drift, prediction, cmds, sqrt).engine)
    ensures var r := Step(e, reading, drift, prediction, cmds, sqrt);
            r.metrics.Some? ==> 0.0 <= r.metrics.value.hi <= 1.0 && 0.0 <= r.metrics.value.smoothed <= 1.0
    ensures var r := Step(e, reading, drift, prediction, cmds, sqrt);
            r.driftEvent.Some? ==> 0.0 <= r.driftEvent.value <= 1.0
  {
    if reading.Some? {
      var hi := Index(reading.value);
      var e1 := e.(tick := e.tick + 1, history := e.history + [hi]);
      AppendInRange(e.history, hi);
      if e.baseline.Some? {
        MonitorKeepsRanges(e1, e.baseline.value, hi, drift, prediction);
      }
    }
  }

  /** Before the first calibration an iteration only records the index: the
      history grows by one, the tick advances, nothing is emitted. */
  lemma CalibrationCollects(e: Engine, rd: Reading, drift: bool, prediction: real, sqrt: real -> real)
    requires e.baseline.None?
    requires e.tick + 1 < CalibrationCount
    ensures Step(e, Some(rd), drift, prediction, NoCommands, sqrt)
         == TickResult(e.(tick := e.tick + 1, history := e.history + [Index(rd)]), None, None, NoCommands)
  {
  }

  /** The first iteration with no baseline and at least 200 readings calibrates
      from the whole history, enters Normal, and emits nothing. */
  lemma CalibrationCompletes(e: Engine, rd: Reading, drift: bool, prediction: real, sqrt: real -> real)
    requires e.baseline.None?
    requires e.tick + 1 >= CalibrationCount
    requires IsSqrt(sqrt)
    ensures var h := e.history + [Index(rd)];
            var r := Step(e, Some(rd), drift, prediction, NoCommands, sqrt);
            && r.engine.baseline.Some?
            && r.engine.baseline.value.mu == Mean(h)
            && r.engine.baseline.value.sigma >= 0.0
            && r.engine.baseline.value.sigma * r.engine.baseline.value.sigma == PopVariance(h)
            && r.engine.mode == Normal
            && r.metrics.None? && r.driftEvent.None?
            && r.engine.detectorFeed == e.detectorFeed && r.engine.training == e.training
  {
  }

  /** Once calibrated, the smoothed index reported is the previous smoothed
      value moved `Alpha` of the way toward the new index, and the derivative is
      that move. */
  lemma ReportedTrend(e: Engine, rd: Reading, drift: bool, prediction: real, cmds: Commands, sqrt: real -> real)
    requires e.baseline.Some?
    requires |e.history| > 0
    ensures var hi := Index(rd);
            var prev := Smoothed(e.history);
            var m := Step(e, Some(rd), drift, prediction, cmds, sqrt).metrics.value;
            && m.smoothed == Alpha * hi + (1.0 - Alpha) * prev
            && m.derivative == Alpha * (hi - prev)
  {
    var h := e.history + [Index(rd)];
    assert h[..|h| - 1] == e.history;
  }

  /** A history that has been constant, extended by the same value, reports that
      value as the smoothed index and a zero derivative. */
  lemma ConstantInputHasNoTrend(e: Engine, rd: Reading, drift: bool, prediction: real, cmds: Commands,
                                sqrt: real -> real)
    requires e.baseline.Some?
    requires AllIn(e.history, Index(rd), Index(rd))
    ensures var m := Step(e, Some(rd), drift, prediction, cmds, sqrt).metrics.value;
            m.smoothed == Index(rd) && m.derivative == 0.0
  {
    var h := e.history + [Index(rd)];
    assert AllIn(h, Index(rd), Index(rd));
    ConstantHasNoTrend(h, Index(rd));
  }

  /** Once calibrated and with no command pending, the state is decided by the
      drift flag and the smoothed index against `mu +- 2 sigma`, and a drift
      event carries this tick's raw index. */
  lemma StateDecision(e: Engine, rd: Reading, drift: bool, prediction: real, sqrt: real -> real)
    requires e.baseline.Some? && e.baseline.value.sigma >= 0.0
    ensures var b := e.baseline.value;
            var s := Smoothed(e.history + [Index(rd)]);
            var r := Step(e, Some(rd), drift, prediction, NoCommands, sqrt);
            && (r.engine.mode == Drift <==> drift)
            && (drift ==> r.driftEvent == Some(Index(rd)))
            && (r.engine.mode == Falha <==> !drift && s < b.mu - 2.0 * b.sigma)
            && (r.engine.mode == Reparo <==> !drift && s > b.mu + 2.0 * b.sigma)
            && (r.engine.mode == Normal <==> !drift && b.mu - 2.0 * b.sigma <= s <= b.mu + 2.0 * b.sigma)
  {
  }

  /** Without a recalibrate command the baseline, once set, stays set; it
      changes only if the state decided this tick is Normal or Reparo, and
      then by the adaptive update. */
  lemma BaselineAdaptsOnlyInNormalOrRepair(e: Engine, rd: Reading, drift: bool, prediction: real,
                                           sqrt: real -> real)
    requires e.baseline.Some?
    ensures var b := e.baseline.value;
            var s := Smoothed(e.history + [Index(rd)]);
            var r := Step(e, Some(rd), drift, prediction, NoCommands, sqrt);
            && r.engine.baseline.Some?
            && (r.engine.mode == Drift || r.engine.mode == Falha ==> r.engine.baseline == Some(b))
            && (r.engine.mode == Normal || r.engine.mode == Reparo ==> r.engine.baseline == Some(Adapt(b, s)))
            && (b.sigma >= 0.0 ==> r.engine.baseline.value.sigma >= 0.0)
  {
  }

  /** A repair command overrides only the state: everything else is what the
      same iteration without the command produces. */
  lemma RepairOnlySetsMode(e: Engine, rd: Reading, drift: bool, prediction: real, sqrt: real -> real)
    ensures var plain := Step(e, Some(rd), drift, prediction, NoCommands, sqrt);
            var r := Step(e, Some(rd), drift, prediction, Commands(false, true), sqrt);
            r == plain.(engine := plain.engine.(mode := Reparo))
  {
  }

  /** A recalibrate command, after the iteration's own work, drops the baseline,
      resets the detector and enters Recalibrando, keeping history, tick and
      training; a repair command in the same tick then forces Reparo. */
  lemma RecalibrateResetsBaseline(e: Engine, rd: Reading, drift: bool, prediction: real, repair: bool,
                                  sqrt: real -> real)
    ensures var plain := Step(e, Some(rd), drift, prediction, NoCommands, sqrt);
            var r := Step(e, Some(rd), drift, prediction, Commands(true, repair), sqrt);
            && r.engine == plain.engine.(baseline := None, detectorFeed := [],
                                         mode := if repair then Reparo else Recalibrando)
            && r.metrics == plain.metrics && r.driftEvent == plain.driftEvent
  {
  }

  /** Recalibration keeps the history and the tick, so when the recalibrating
      iteration leaves at least 199 readings, the very next reading (the 200th
      or a later one) recalibrates from the whole history: Recalibrando then
      lasts a single iteration. */
  lemma RecalibrationLastsOneTick(e: Engine, rd: Reading, drift: bool, prediction: real,
                                  rd': Reading, drift': bool, prediction': real, sqrt: real -> real)
    requires e.tick + 2 >= CalibrationCount
    ensures var r1 := Step(e, Some(rd), drift, prediction, Commands(true, false), sqrt);
            var r2 := Step(r1.engine, Some(rd'), drift', prediction', NoCommands, sqrt);
            && r1.engine.mode == Recalibrando
            && r2.engine.mode == Normal
            && r2.engine.baseline == Some(Calibrate(e.history + [Index(rd), Index(rd')], sqrt))
            && r2.metrics.None?
  {
    assert e.history + [Index(rd)] + [Index(rd')] == e.history + [Index(rd), Index(rd')];
  }

  /** When the recalibrating iteration leaves fewer than 199 readings, the
      node waits, like the first calibration, for the count to reach 200: the
      next plain reading keeps Recalibrando and no baseline. */
  lemma RecalibrationWaitsForCount(e: Engine, rd: Reading, drift: bool, prediction: real,
                                   rd': Reading, drift': bool, prediction': real, sqrt: real -> real)
    requires e.tick + 2 < CalibrationCount
    ensures var r1 := Step(e, Some(rd), drift, prediction, Commands(true, false), sqrt);
            var r2 := Step(r1.engine, Some(rd'), drift', prediction', NoCommands, sqrt);
            && r1.engine.mode == Recalibrando
            && r2.engine.mode == Recalibrando
            && r2.engine.baseline.None?
            && r2.metrics.None? && r2.driftEvent.None?
  {
  }
}
