/** The main loop over many iterations: command flags persist until an
    iteration with a reading consumes them, and emitted records accumulate. */
module Trace {
  import opened Prelude
  import opened HealthIndex
  import opened BaselineEstimator
  import opened Decision
  import opened EdgeNode
  import opened EdgeNodeFacts

  /** What the outside world supplies on one iteration: the reading (if any),
      the detector's flag, the regression's prediction, and the command flags
      raised since the previous iteration. */
  datatype TickInput = TickInput(reading: Option<Reading>, drift: bool, prediction: real, raised: Commands)

  /** The state after a sequence of iterations, the flags still pending, and
      every metrics record and drift event emitted, in order. */
  datatype Log = Log(engine: Engine, pending: Commands, metrics: seq<Metrics>, drifts: seq<real>)

  /** A raised flag stays raised until consumed (a flag file that exists):
      each flag is up exactly when it was pending or has been raised, so
      raising nothing keeps what is pending, raising onto nothing pending gives
      what was raised, and no flag comes up that nobody raised. */
  function Raise(pending: Commands, raised: Commands): (r: Commands)
    ensures r.recalibrate <==> pending.recalibrate || raised.recalibrate
    ensures r.repair <==> pending.repair || raised.repair
    ensures raised == NoCommands ==> r == pending
    ensures pending == NoCommands ==> r == raised
    ensures r == NoCommands <==> pending == NoCommands && raised == NoCommands
  {
    Commands(pending.recalibrate || raised.recalibrate, pending.repair || raised.repair)
  }

  /** An optional record as the sequence of what was emitted. */
  function Emitted<T>(o: Option<T>): (s: seq<T>) {
    match o
    case None => []
    case Some(x) => [x]
  }

  /** The health index of one iteration, if it carried a reading. */
  function IndexOf(i: TickInput): (hs: seq<real>) {
    match i.reading
    case None => []
    case Some(rd) => [Index(rd)]
  }

  /** The health indices of the iterations that carried a reading, in order. */
  function Indices(ins: seq<TickInput>): (hs: seq<real>)
    ensures |hs| <= |ins|
    ensures AllIn(hs, 0.0, 1.0)
  {
    if ins == [] then []
    else
      var hs := Indices(ins[..|ins| - 1]);
      assert forall i :: 0 <= i < |hs| ==> (hs + IndexOf(Last(ins)))[i] == hs[i];
      hs + IndexOf(Last(ins))
  }

  /** The flags still pending after the iterations `ins`, from the inputs
      alone: an iteration with a reading consumes everything, one without a
      reading keeps what it was handed. */
  function PendingAfter(ins: seq<TickInput>): (c: Commands) {
    if ins == [] then NoCommands
    else if Last(ins).reading.Some? then NoCommands
    else Raise(PendingAfter(ins[..|ins| - 1]), Last(ins).raised)
  }

  /** The flags handed to iteration `j`: those pending from earlier iterations
      together with those raised since. */
  function Handed(ins: seq<TickInput>, j: nat): (c: Commands)
    requires j < |ins|
  {
    Raise(PendingAfter(ins[..j]), ins[j].raised)
  }

  /** Run the loop from `e` over `ins`, starting with no flag pending. */
  function Run(e: Engine, ins: seq<TickInput>, sqrt: real -> real): (l: Log)
    ensures l.engine.history == e.history + Indices(ins)
    ensures l.engine.tick == e.tick + |Indices(ins)|
    ensures l.pending == PendingAfter(ins)
    ensures |l.drifts| <= |l.metrics| <= |Indices(ins)|
  {
    if ins == [] then Log(e, NoCommands, [], [])
    else
      var l := Run(e, ins[..|ins| - 1], sqrt);
      var i := Last(ins);
      var r := Step(l.engine, i.reading, i.drift, i.prediction, Raise(l.pending, i.raised), sqrt);
      assert Indices(ins) == Indices(ins[..|ins| - 1]) + IndexOf(i);
      Log(r.engine, r.pending, l.metrics + Emitted(r.metrics), l.drifts + Emitted(r.driftEvent))
  }

  /** Iteration `j` of the loop is one `Step` from the state the first `j`
      iterations left, handed exactly `Handed(ins, j)`: the flag lemmas below
      are statements about what the loop itself applies. */
  lemma RunUnfolds(e: Engine, ins: seq<TickInput>, j: nat, sqrt: real -> real)
    requires j < |ins|
    ensures var l := Run(e, ins[..j], sqrt);
            var i := ins[j];
            var r := Step(l.engine, i.reading, i.drift, i.prediction, Handed(ins, j), sqrt);
            Run(e, ins[..j + 1], sqrt)
              == Log(r.engine, r.pending, l.metrics + Emitted(r.metrics), l.drifts + Emitted(r.driftEvent))
  {
    var p := ins[..j + 1];
    assert p[..|p| - 1] == ins[..j];
    assert Last(p) == ins[j];
  }

  /** Which of the two flags a statement is about. */
  function Flag(c: Commands, recalibrate: bool): (up: bool) {
    if recalibrate then c.recalibrate else c.repair
  }

  /** A flag raised on iteration `k` and not raised again reaches iteration `j`
      exactly when no iteration from `k` up to `j` carried a reading: it waits
      through the iterations without one and is consumed by the first with one. */
  lemma {:induction false} FlagReachesFirstReading(ins: seq<TickInput>, k: nat, j: nat, recalibrate: bool)
    requires k <= j < |ins|
    requires Flag(ins[k].raised, recalibrate)
    requires forall i :: k < i < |ins| ==> !Flag(ins[i].raised, recalibrate)
    ensures Flag(Handed(ins, j), recalibrate) <==> forall i :: k <= i < j ==> ins[i].reading.None?
    decreases j
  {
    if j > k {
      FlagReachesFirstReading(ins, k, j - 1, recalibrate);
      var p := ins[..j];
      assert p[..|p| - 1] == ins[..j - 1];
      assert Last(p) == ins[j - 1];
    }
  }

  /** Hence such a flag is carried out on exactly one iteration: the first one
      from `k` on with a reading receives it, and no later one with a reading does. */
  lemma FlagAppliedOnce(ins: seq<TickInput>, k: nat, j1: nat, j2: nat, recalibrate: bool)
    requires k <= j1 < j2 < |ins|
    requires ins[j1].reading.Some?
    requires Flag(ins[k].raised, recalibrate)
    requires forall i :: k < i < |ins| ==> !Flag(ins[i].raised, recalibrate)
    ensures !Flag(Handed(ins, j2), recalibrate)
  {
    FlagReachesFirstReading(ins, k, j2, recalibrate);
  }

  /** Every state reachable from a valid one is valid. */
  lemma {:induction false} RunPreservesValid(e: Engine, ins: seq<TickInput>, sqrt: real -> real)
    requires Valid(e)
    requires IsSqrt(sqrt)
    ensures Valid(Run(e, ins, sqrt).engine)
  {
    if ins != [] {
      var l := Run(e, ins[..|ins| - 1], sqrt);
      var i := Last(ins);
      RunPreservesValid(e, ins[..|ins| - 1], sqrt);
      StepPreservesValid(l.engine, i.reading, i.drift, i.prediction, Raise(l.pending, i.raised), sqrt);
    }
  }

  /** Readings with no command raised. */
  ghost predicate PlainReadings(ins: seq<TickInput>) {
    forall i :: 0 <= i < |ins| ==> ins[i].reading.Some? && ins[i].raised == NoCommands
  }

  /** One plain reading while no baseline exists and fewer than 200 readings
      have been seen: it is recorded, nothing is emitted, and the baseline is
      calibrated from the extended history exactly when the count reaches 200. */
  lemma PlainStepWhileCalibrating(e: Engine, x: TickInput, sqrt: real -> real)
    requires x.reading.Some?
    requires e.baseline.None? && e.tick < CalibrationCount
    ensures var r := Step(e, x.reading, x.drift, x.prediction, NoCommands, sqrt);
            && r.metrics.None? && r.driftEvent.None? && r.pending == NoCommands
            && r.engine.history == e.history + IndexOf(x)
            && (e.tick + 1 < CalibrationCount ==> r.engine.baseline.None? && r.engine.mode == e.mode)
            && (e.tick + 1 == CalibrationCount ==>
                  r.engine.baseline == Some(Calibrate(r.engine.history, sqrt)) && r.engine.mode == Normal)
  {
  }

  /** From the initial state, the first 199 readings are only collected, and
      the 200th calibrates the baseline from exactly those 200 indices and
      enters Normal; no record is emitted on the way. */
  lemma {:induction false} FirstCalibration(ins: seq<TickInput>, sqrt: real -> real)
    requires PlainReadings(ins)
    requires |ins| <= CalibrationCount
    ensures var l := Run(Init, ins, sqrt);
            && |Indices(ins)| == |ins|
            && l.metrics == [] && l.drifts == [] && l.pending == NoCommands
            && (|ins| < CalibrationCount ==> l.engine.baseline.None? && l.engine.mode == Calibrando)
            && (|ins| == CalibrationCount ==>
                  l.engine.baseline == Some(Calibrate(Indices(ins), sqrt)) && l.engine.mode == Normal)
  {
    if ins != [] {
      var pre := ins[..|ins| - 1];
      assert PlainReadings(pre) by {
        forall i | 0 <= i < |pre|
          ensures pre[i].reading.Some? && pre[i].raised == NoCommands
        {
          assert pre[i] == ins[i];
        }
      }
      FirstCalibration(pre, sqrt);
      var x := Last(ins);
      assert x == ins[|ins| - 1];
      var l := Run(Init, pre, sqrt);
      var rd := x.reading.value;
      assert Raise(l.pending, x.raised) == NoCommands;
      assert Indices(ins) == Indices(pre) + [Index(rd)];
      assert l.engine.history == Indices(pre);
      assert IndexOf(x) == [Index(rd)];
      PlainStepWhileCalibrating(l.engine, x, sqrt);
      var r := Step(l.engine, x.reading, x.drift, x.prediction, NoCommands, sqrt);
      assert Run(Init, ins, sqrt) == Log(r.engine, r.pending, l.metrics, l.drifts);
    }
  }
}
