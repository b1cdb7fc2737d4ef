/** The array operations the components apply to their lists: `filter` and a one-element `splice`. */
module Seqs {

  /** `Array.prototype.filter(keep)`: the elements that pass, in their original order. */
  function Filter<T>(xs: seq<T>, keep: T -> bool): (r: seq<T>)
    ensures |r| <= |xs|
    ensures forall i | 0 <= i < |r| :: r[i] in xs && keep(r[i])
    ensures forall i | 0 <= i < |xs| :: keep(xs[i]) ==> xs[i] in r
  {
    if xs == [] then [] else (if keep(xs[0]) then [xs[0]] else []) + Filter(xs[1..], keep)
  }

  /** Filtering a concatenation filters each part in place: the order of the kept elements is the input order. */
  lemma {:induction false} FilterAppend<T>(xs: seq<T>, ys: seq<T>, keep: T -> bool)
    ensures Filter(xs + ys, keep) == Filter(xs, keep) + Filter(ys, keep)
  {
    if xs != [] {
      assert (xs + ys)[1..] == xs[1..] + ys;
      FilterAppend(xs[1..], ys, keep);
    } else {
      assert xs + ys == ys;
    }
  }

  /** When every element passes, filtering changes nothing. */
  lemma {:induction false} FilterKeepsAll<T>(xs: seq<T>, keep: T -> bool)
    requires forall i | 0 <= i < |xs| :: keep(xs[i])
    ensures Filter(xs, keep) == xs
  {
    if xs != [] {
      FilterKeepsAll(xs[1..], keep);
    }
  }

  /** The position `splice(index, 1)` starts at: a negative index counts from the end, and both ends are clamped. */
  function SpliceStart(index: int, length: nat): (k: nat)
    ensures k <= length
  {
    if index < 0 then (if length + index < 0 then 0 else length + index)
    else if index > length then length
    else index
  }

  /** The list without its element at `k`; unchanged when `k` is the length (nothing to remove). */
  function RemovedAt<T>(xs: seq<T>, k: nat): (r: seq<T>)
    requires k <= |xs|
  {
    if k < |xs| then xs[..k] + xs[k + 1..] else xs
  }

  /**
   * `splice(index, 1)` on a copy of `xs`: the array is shifted left over the
   * removed slot, in place, and its last cell dropped.
   */
  method SpliceOne<T>(xs: seq<T>, index: int) returns (r: seq<T>)
    ensures var k := SpliceStart(index, |xs|);
            if k < |xs| then |r| == |xs| - 1 && r[..k] == xs[..k] && r[k..] == xs[k + 1..] else r == xs
    ensures r == RemovedAt(xs, SpliceStart(index, |xs|))
  {
    var a := new T[|xs|](i requires 0 <= i < |xs| => xs[i]);
    var k := SpliceStart(index, a.Length);
    if k == a.Length {
      return a[..];
    }
    var i := k;
    while i + 1 < a.Length
      invariant k <= i < a.Length
      invariant forall m | 0 <= m < k :: a[m] == xs[m]
      invariant forall m | k <= m < i :: a[m] == xs[m + 1]
      invariant forall m | i <= m < a.Length :: a[m] == xs[m]
    {
      a[i] := a[i + 1];
      i := i + 1;
    }
    assert i == a.Length - 1;
    r := a[..i];
    assert forall m | 0 <= m < k :: r[m] == xs[m];
    assert forall m | k <= m < |r| :: r[m] == xs[m + 1];
    assert r[..k] == xs[..k];
    assert r[k..] == xs[k + 1..];
  }
}
