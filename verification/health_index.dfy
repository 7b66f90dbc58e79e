/** The health index (HI): a weighted combination of current, temperature and
    vibration, clamped to [0, 1], where 1 means a perfectly healthy machine. */
module HealthIndex {
  import opened Prelude

  /** One sensor reading, as far as the index uses it (the row's other columns are ignored). */
  datatype Reading = Reading(current: real, temperature: real, vibration: real)

  /** The weighted index before clamping: 1 for an idle, cold, still machine,
      and lowered by every non-negative load. */
  function Weighted(r: Reading): (w: real)
    ensures r.current >= 0.0 && r.temperature >= 0.0 && r.vibration >= 0.0 ==> w <= 1.0
    ensures (&& r.current >= 0.0 && r.temperature >= 0.0 && r.vibration >= 0.0
             && (r.current > 0.0 || r.temperature > 0.0 || r.vibration > 0.0))
            ==> w < 1.0
    ensures r == Reading(0.0, 0.0, 0.0) ==> w == 1.0
  {
    1.0 - (0.4 * r.current / 10.0 + 0.3 * r.temperature / 100.0 + 0.3 * r.vibration / 10.0)
  }

  /** The clamped health index appended to the history on every tick. */
  function Index(r: Reading): (hi: real)
    ensures 0.0 <= hi <= 1.0
    ensures 0.0 <= Weighted(r) <= 1.0 ==> hi == Weighted(r)
    ensures Weighted(r) < 0.0 ==> hi == 0.0
    ensures Weighted(r) > 1.0 ==> hi == 1.0
  {
    Clamp(0.0, 1.0, Weighted(r))
  }

  /** Raising current, temperature or vibration (any of them, the others held
      fixed or also raised) never raises the health index. */
  lemma IndexAntitone(a: Reading, b: Reading)
    requires a.current <= b.current
    requires a.temperature <= b.temperature
    requires a.vibration <= b.vibration
    ensures Index(b) <= Index(a)
  {
    ClampMonotone(0.0, 1.0, Weighted(b), Weighted(a));
  }

  /** Inside the unclamped range, raising a single sensor value strictly lowers the index. */
  lemma IndexStrictlyDecreasing(a: Reading, b: Reading)
    requires 0.0 <= Weighted(a) <= 1.0 && 0.0 <= Weighted(b) <= 1.0
    requires a.current <= b.current && a.temperature <= b.temperature && a.vibration <= b.vibration
    requires a != b
    ensures Index(b) < Index(a)
  {
  }

  /** Current 5, temperature 35, vibration 0.5 gives 1 - (0.2 + 0.105 + 0.015) = 0.68. */
  lemma IndexExample()
    ensures Index(Reading(5.0, 35.0, 0.5)) == 0.68
  {
  }
}
