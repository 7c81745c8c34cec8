/** `max(_:_:)` on two values and `Sequence.max() ?? d`, `Sequence.min() ?? d` on a list. */
module Extrema {
  function Max(a: real, b: real): real { if a < b then b else a }

  function Min(a: real, b: real): real { if b < a then b else a }

  /** The largest element of `xs`, or `empty` when there is none (that it is one of
      the elements is MaxOrAttained). */
  function MaxOr(xs: seq<real>, empty: real): (m: real)
    ensures |xs| == 0 ==> m == empty
    ensures forall i :: 0 <= i < |xs| ==> xs[i] <= m
    decreases |xs|
  {
    if |xs| == 0 then empty
    else if |xs| == 1 then xs[0]
    else Max(xs[0], MaxOr(xs[1..], empty))
  }

  /** The smallest element of `xs`, or `empty` when there is none. */
  function MinOr(xs: seq<real>, empty: real): (m: real)
    ensures |xs| == 0 ==> m == empty
    ensures forall i :: 0 <= i < |xs| ==> m <= xs[i]
    decreases |xs|
  {
    if |xs| == 0 then empty
    else if |xs| == 1 then xs[0]
    else Min(xs[0], MinOr(xs[1..], empty))
  }

  lemma {:induction false} MaxOrAttained(xs: seq<real>, empty: real)
    requires |xs| > 0
    ensures exists k :: 0 <= k < |xs| && xs[k] == MaxOr(xs, empty)
    decreases |xs|
  {
    if |xs| > 1 {
      MaxOrAttained(xs[1..], empty);
      var k :| 0 <= k < |xs| - 1 && xs[1..][k] == MaxOr(xs[1..], empty);
      assert xs[k + 1] == MaxOr(xs[1..], empty);
    } else {
      assert xs[0] == MaxOr(xs, empty);
    }
  }

  lemma {:induction false} MinOrAttained(xs: seq<real>, empty: real)
    requires |xs| > 0
    ensures exists k :: 0 <= k < |xs| && xs[k] == MinOr(xs, empty)
    decreases |xs|
  {
    if |xs| > 1 {
      MinOrAttained(xs[1..], empty);
      var k :| 0 <= k < |xs| - 1 && xs[1..][k] == MinOr(xs[1..], empty);
      assert xs[k + 1] == MinOr(xs[1..], empty);
    } else {
      assert xs[0] == MinOr(xs, empty);
    }
  }

  /** An element that bounds the list from above is its maximum. */
  lemma MaxOrIs(xs: seq<real>, empty: real, k: int)
    requires 0 <= k < |xs|
    requires forall i :: 0 <= i < |xs| ==> xs[i] <= xs[k]
    ensures MaxOr(xs, empty) == xs[k]
  {
    MaxOrAttained(xs, empty);
  }

  /** An element that bounds the list from below is its minimum. */
  lemma MinOrIs(xs: seq<real>, empty: real, k: int)
    requires 0 <= k < |xs|
    requires forall i :: 0 <= i < |xs| ==> xs[k] <= xs[i]
    ensures MinOr(xs, empty) == xs[k]
  {
    MinOrAttained(xs, empty);
  }
}
