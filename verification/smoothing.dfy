/** Exponential smoothing of the health-index history (`suavizar`) and the
    one-step derivative the edge node takes of it. */
module Smoothing {
  import opened Prelude

  /** The smoothing factor (the default `alpha` of `suavizar`). */
  const Alpha: real := 0.15

  /** One smoothing step: the new sample weighted by `Alpha`, the previous smoothed value by `1 - Alpha`. */
  function Blend(x: real, prev: real): (r: real)
    ensures Min(x, prev) <= r <= Max(x, prev)
    ensures r - prev == Alpha * (x - prev)
  {
    Alpha * x + (1.0 - Alpha) * prev
  }

  /** The loop of `suavizar`: `acc` holds the smoothed prefix built so far,
      `rest` the samples still to visit. */
  function SmoothFrom(acc: seq<real>, rest: seq<real>): (r: seq<real>)
    requires |acc| > 0
    ensures |r| == |acc| + |rest|
    ensures r[..|acc|] == acc
    decreases |rest|
  {
    if rest == [] then acc
    else
      var r := SmoothFrom(acc + [Blend(rest[0], Last(acc))], rest[1..]);
      assert r[..|acc|] == (r[..|acc| + 1])[..|acc|];
      r
  }

  /** `suavizar(v)`: the empty history is returned as is, otherwise smoothing
      starts from the first sample. */
  function Smooth(v: seq<real>): (s: seq<real>)
    ensures |s| == |v|
    ensures |v| > 0 ==> s[0] == v[0]
  {
    if v == [] then v
    else
      var s := SmoothFrom([v[0]], v[1..]);
      assert s[..1] == [v[0]];
      s
  }

  /** The smoothing recurrence, stated pointwise: same length, the first value
      kept, every later value blended with its predecessor. */
  ghost predicate IsSmoothing(v: seq<real>, s: seq<real>) {
    && |s| == |v|
    && (|v| > 0 ==> s[0] == v[0])
    && forall i :: 1 <= i < |v| ==> s[i] == Blend(v[i], s[i - 1])
  }

  lemma {:induction false} SmoothFromIsSmoothing(v: seq<real>, k: nat, acc: seq<real>)
    requires 1 <= k <= |v|
    requires IsSmoothing(v[..k], acc)
    ensures IsSmoothing(v, SmoothFrom(acc, v[k..]))
    decreases |v| - k
  {
    if k == |v| {
      assert v[..k] == v;
      assert v[k..] == [];
    } else {
      var acc' := acc + [Blend(v[k], Last(acc))];
      assert v[k..][0] == v[k];
      assert v[k..][1..] == v[k + 1..];
      assert IsSmoothing(v[..k + 1], acc') by {
        assert forall i :: 0 <= i < k ==> v[..k + 1][i] == v[..k][i];
      }
      SmoothFromIsSmoothing(v, k + 1, acc');
    }
  }

  /** The code's loop satisfies the recurrence. */
  lemma SmoothIsSmoothing(v: seq<real>)
    ensures IsSmoothing(v, Smooth(v))
  {
    if v != [] {
      assert v[..1] == [v[0]];
      SmoothFromIsSmoothing(v, 1, [v[0]]);
    }
  }

  lemma {:induction false} SmoothingAgree(v: seq<real>, s: seq<real>, t: seq<real>, i: nat)
    requires IsSmoothing(v, s) && IsSmoothing(v, t)
    requires i < |v|
    ensures s[i] == t[i]
  {
    if i > 0 {
      SmoothingAgree(v, s, t, i - 1);
    }
  }

  /** The recurrence has exactly one solution, and it is what `suavizar` computes. */
  lemma SmoothingCharacterised(v: seq<real>, s: seq<real>)
    ensures IsSmoothing(v, s) <==> s == Smooth(v)
  {
    SmoothIsSmoothing(v);
    if IsSmoothing(v, s) {
      forall i | 0 <= i < |v|
        ensures s[i] == Smooth(v)[i]
      {
        SmoothingAgree(v, s, Smooth(v), i);
      }
    }
  }

  /** Prefix-consistency: smoothing one more sample extends the old smoothed
      series by one blended value and leaves the rest unchanged. */
  lemma SmoothSnoc(xs: seq<real>, x: real)
    requires |xs| > 0
    ensures Smooth(xs + [x]) == Smooth(xs) + [Blend(x, Last(Smooth(xs)))]
  {
    var v := xs + [x];
    var s := Smooth(xs);
    var t := s + [Blend(x, Last(s))];
    SmoothIsSmoothing(xs);
    assert IsSmoothing(v, t) by {
      forall i | 1 <= i < |v|
        ensures t[i] == Blend(v[i], t[i - 1])
      {
        if i < |xs| {
          assert v[i] == xs[i];
        }
      }
    }
    SmoothingCharacterised(v, t);
  }

  lemma {:induction false} SmoothingBoundedUpTo(v: seq<real>, s: seq<real>, lo: real, hi: real, i: nat)
    requires IsSmoothing(v, s)
    requires AllIn(v, lo, hi)
    requires i < |v|
    ensures lo <= s[i] <= hi
  {
    if i > 0 {
      SmoothingBoundedUpTo(v, s, lo, hi, i - 1);
    }
  }

  /** Smoothing is a running convex combination: it never leaves the range of its input. */
  lemma SmoothBounded(v: seq<real>, lo: real, hi: real)
    requires AllIn(v, lo, hi)
    ensures AllIn(Smooth(v), lo, hi)
  {
    SmoothIsSmoothing(v);
    forall i | 0 <= i < |v|
      ensures lo <= Smooth(v)[i] <= hi
    {
      SmoothingBoundedUpTo(v, Smooth(v), lo, hi, i);
    }
  }

  /** A constant history smooths to the same constant. */
  lemma SmoothConstant(v: seq<real>, c: real)
    requires AllIn(v, c, c)
    ensures AllIn(Smooth(v), c, c)
  {
    SmoothBounded(v, c, c);
  }

  /** The smoothed health index: the last value of the smoothed history. It is
      the only sample for a one-sample history, moves `Alpha` of the way from
      the previous smoothed value toward each new sample, and stays within any
      bounds that hold for every sample. */
  function Smoothed(v: seq<real>): (r: real)
    requires |v| > 0
    ensures |v| == 1 ==> r == v[0]
    ensures |v| > 1 ==> r == Blend(Last(v), Last(Smooth(v[..|v| - 1])))
    ensures forall lo, hi :: AllIn(v, lo, hi) ==> lo <= r <= hi
  {
    assert |v| > 1 ==> Last(Smooth(v)) == Blend(Last(v), Last(Smooth(v[..|v| - 1]))) by {
      if |v| > 1 {
        assert v == v[..|v| - 1] + [Last(v)];
        SmoothSnoc(v[..|v| - 1], Last(v));
      }
    }
    assert forall lo, hi :: AllIn(v, lo, hi) ==> lo <= Last(Smooth(v)) <= hi by {
      forall lo, hi | AllIn(v, lo, hi)
        ensures lo <= Last(Smooth(v)) <= hi
      {
        SmoothBounded(v, lo, hi);
      }
    }
    Last(Smooth(v))
  }

  /** `hi_deriv`: the change of the smoothed value caused by the newest sample,
      zero when there is only one sample. It is `Alpha` times the gap between
      the newest sample and the previous smoothed value. */
  function Derivative(v: seq<real>): (d: real)
    requires |v| > 0
    ensures |v| == 1 ==> d == 0.0
    ensures |v| > 1 ==> d == Alpha * (Last(v) - Smoothed(v[..|v| - 1]))
  {
    if |v| > 1 then Smoothed(v) - Smoothed(v[..|v| - 1]) else 0.0
  }

  /** A constant history has that constant as its smoothed value and no trend. */
  lemma ConstantHasNoTrend(v: seq<real>, c: real)
    requires |v| > 0
    requires AllIn(v, c, c)
    ensures Smoothed(v) == c
    ensures Derivative(v) == 0.0
  {
    SmoothConstant(v, c);
    if |v| > 1 {
      SmoothConstant(v[..|v| - 1], c);
    }
  }
}
