/** The edge node's main loop, one iteration at a time: read a sample, extend
    the health-index history, calibrate or assess, then apply the operator's
    recalibrate and repair commands. */
module EdgeNode {
  import opened Prelude
  import opened HealthIndex
  import opened Smoothing
  import opened BaselineEstimator
  import opened Decision

  /** The two command flags an operator can raise; each is consumed when a reading is processed. */
  datatype Commands = Commands(recalibrate: bool, repair: bool)

  const NoCommands := Commands(false, false)

  /** One training pair handed to the TTF regression: features and target. */
  datatype Sample = Sample(smoothed: real, derivative: real, target: real)

  /** One metrics record (a row of the metrics file, before formatting). */
  datatype Metrics = Metrics(
    tick: nat, hi: real, smoothed: real, derivative: real,
    ttf: real, risk: real, mode: Mode)

  /** The engine state. The drift detector and the TTF regression are foreign
      objects; they are represented by what was fed to them: the values the
      detector has seen since its last reset, and every training sample. */
  datatype Engine = Engine(
    baseline: Option<Baseline>,
    mode: Mode,
    history: seq<real>,
    tick: nat,
    detectorFeed: seq<real>,
    training: seq<Sample>)

  /** The state before the first reading. */
  const Init := Engine(None, Calibrando, [], 0, [], [])

  /** What one pass of the loop produces: the new state, the metrics record and
      drift event it emits (if any), and the command flags still pending. */
  datatype TickResult = TickResult(
    engine: Engine, metrics: Option<Metrics>, driftEvent: Option<real>, pending: Commands)

  /** The outcome of the calibrate-or-assess part of an iteration. */
  datatype Assessment = Assessment(engine: Engine, metrics: Option<Metrics>, driftEvent: Option<real>)

  /** Calibrate once enough readings are in and no baseline exists, assess when a
      baseline exists, and otherwise only keep the reading. `e` already holds the
      incremented tick and the extended history. */
  function Assess(e: Engine, hi: real, drift: bool, prediction: real, sqrt: real -> real): (a: Assessment)
    requires |e.history| > 0
    ensures a.engine.history == e.history && a.engine.tick == e.tick
    ensures a.metrics.Some? <==> e.baseline.Some?
    ensures a.driftEvent.Some? <==> e.baseline.Some? && drift
    ensures e.baseline.None? && e.tick < CalibrationCount ==> a.engine == e
    ensures e.baseline.None? && e.tick >= CalibrationCount ==>
              a.engine == e.(baseline := Some(Calibrate(e.history, sqrt)), mode := Normal)
    ensures e.baseline.Some? ==> a.engine.baseline.Some? && a.engine.mode != Calibrando && a.engine.mode != Recalibrando
  {
    if e.baseline.None? && e.tick >= CalibrationCount then
      Assessment(e.(baseline := Some(Calibrate(e.history, sqrt)), mode := Normal), None, None)
    else if e.baseline.Some? then
      Monitor(e, e.baseline.value, hi, drift, prediction)
    else
      Assessment(e, None, None)
  }

  /** The calibrated branch: smooth, feed the detector and the regression,
      decide the state, adapt the baseline and emit a metrics record. */
  function Monitor(e: Engine, b: Baseline, hi: real, drift: bool, prediction: real): (a: Assessment)
    requires |e.history| > 0
    ensures a.engine.detectorFeed == e.detectorFeed + [hi]
    ensures a.engine.mode == Decide(drift, Smoothed(e.history), b)
    ensures a.engine.baseline ==
              Some(if Adapts(a.engine.mode) then Adapt(b, Smoothed(e.history)) else b)
    ensures a.engine.history == e.history && a.engine.tick == e.tick
    ensures a.engine.training ==
              e.training + [Sample(Smoothed(e.history), Derivative(e.history), Target(Smoothed(e.history)))]
    ensures a.metrics.Some? && a.metrics.value.mode == a.engine.mode
    ensures a.metrics.value.tick == e.tick && a.metrics.value.hi == hi
    ensures a.metrics.value.smoothed == Smoothed(e.history)
    ensures a.metrics.value.derivative == Derivative(e.history)
    ensures a.metrics.value.ttf == Ttf(prediction) && a.metrics.value.ttf >= 1.0
    ensures a.metrics.value.risk == Risk(a.metrics.value.smoothed)
    ensures 0.0 <= a.metrics.value.risk <= 100.0
    ensures a.driftEvent == (if drift then Some(hi) else None)
  {
    var s := Smoothed(e.history);
    var d := Derivative(e.history);
    var mode := Decide(drift, s, b);
    var b' := if Adapts(mode) then Adapt(b, s) else b;
    Assessment(
      e.(baseline := Some(b'), mode := mode,
         detectorFeed := e.detectorFeed + [hi],
         training := e.training + [Sample(s, d, Target(s))]),
      Some(Metrics(e.tick, hi, s, d, Ttf(prediction), Risk(s), mode)),
      if drift then Some(hi) else None)
  }

  /** The command flags, recalibrate first: recalibration drops the baseline,
      resets the detector and enters Recalibrando but keeps the history and the
      tick; a repair flag then forces Reparo. */
  function ApplyCommands(e: Engine, c: Commands): (r: Engine)
    ensures r.history == e.history && r.tick == e.tick && r.training == e.training
    ensures c.recalibrate ==> r.baseline.None? && r.detectorFeed == []
    ensures !c.recalibrate ==> r.baseline == e.baseline && r.detectorFeed == e.detectorFeed
    ensures c.repair ==> r.mode == Reparo
    ensures !c.repair ==> r.mode == (if c.recalibrate then Recalibrando else e.mode)
  {
    var r := if c.recalibrate then e.(baseline := None, detectorFeed := [], mode := Recalibrando) else e;
    if c.repair then r.(mode := Reparo) else r
  }

  /** One iteration of the main loop. `reading` is None when no sample could be
      read; `drift` is the detector's flag after it has been fed this tick's
      index; `prediction` is the regression's output after training on this
      tick's sample; `sqrt` is the square root used by the standard deviation. */
  function Step(e: Engine, reading: Option<Reading>, drift: bool, prediction: real,
                cmds: Commands, sqrt: real -> real): (r: TickResult)
    ensures reading.None? ==> r == TickResult(e, None, None, cmds)
    ensures reading.Some? ==> r.pending == NoCommands
    ensures reading.Some? ==> r.engine.tick == e.tick + 1
    ensures reading.Some? ==> r.engine.history == e.history + [Index(reading.value)]
    ensures r.metrics.Some? <==> reading.Some? && e.baseline.Some?
    ensures r.driftEvent.Some? <==> reading.Some? && e.baseline.Some? && drift
    ensures r.metrics.Some? ==> r.metrics.value.tick == r.engine.tick
    ensures r.metrics.Some? ==> r.metrics.value.ttf >= 1.0 && 0.0 <= r.metrics.value.risk <= 100.0
    ensures r.metrics.Some? ==>
              var m := r.metrics.value;
              && m.hi == Index(reading.value)
              && m.smoothed == Smoothed(r.engine.history)
              && m.derivative == Derivative(r.engine.history)
              && m.ttf == Ttf(prediction)
              && m.risk == Risk(m.smoothed)
              && m.mode == Decide(drift, m.smoothed, e.baseline.value)
    ensures reading.Some? && cmds.recalibrate ==> r.engine.baseline.None? && r.engine.detectorFeed == []
    ensures reading.Some? && cmds.repair ==> r.engine.mode == Reparo
    ensures reading.Some? && cmds.recalibrate && !cmds.repair ==> r.engine.mode == Recalibrando
  {
    match reading
    case None => TickResult(e, None, None, cmds)
    case Some(rd) =>
      var hi := Index(rd);
      var e1 := e.(tick := e.tick + 1, history := e.history + [hi]);
      var a := Assess(e1, hi, drift, prediction, sqrt);
      TickResult(ApplyCommands(a.engine, cmds), a.metrics, a.driftEvent, NoCommands)
  }
}
