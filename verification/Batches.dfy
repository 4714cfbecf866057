/** Row batches of one relation input and their slices. */
module Batches {
  // The rows of all batches in physical order.
  function Flatten<T>(batches: seq<seq<T>>): seq<T> {
    if batches == [] then [] else batches[0] + Flatten(batches[1..])
  }

  lemma {:induction false} FlattenConcat<T>(a: seq<seq<T>>, b: seq<seq<T>>)
    ensures Flatten(a + b) == Flatten(a) + Flatten(b)
    decreases |a|
  {
    if a == [] {
      assert a + b == b;
    } else {
      assert (a + b)[1..] == a[1..] + b;
      FlattenConcat(a[1..], b);
      assert a[0] + (Flatten(a[1..]) + Flatten(b)) == (a[0] + Flatten(a[1..])) + Flatten(b);
    }
  }

  lemma FlattenAppend<T>(batches: seq<seq<T>>, batch: seq<T>)
    ensures Flatten(batches + [batch]) == Flatten(batches) + batch
  {
    FlattenConcat(batches, [batch]);
    assert Flatten([batch]) == batch + Flatten<T>([]);
  }

  // Rows from `base` on are the rows of the batches from `i` on.
  ghost predicate From<T>(batches: seq<seq<T>>, i: nat, base: nat) {
    i <= |batches| && base <= |Flatten(batches)| && Flatten(batches)[base..] == Flatten(batches[i..])
  }

  lemma FromStep<T>(batches: seq<seq<T>>, i: nat, base: nat)
    requires From(batches, i, base) && i < |batches|
    ensures From(batches, i + 1, base + |batches[i]|)
    ensures Flatten(batches)[base..base + |batches[i]|] == batches[i]
  {
    var rows, batch := Flatten(batches), batches[i];
    assert batches[i..][0] == batch && batches[i..][1..] == batches[i + 1..];
    assert rows[base..] == batch + Flatten(batches[i + 1..]);
    assert rows[base..][..|batch|] == batch;
    assert rows[base..][|batch|..] == rows[base + |batch|..];
  }

  lemma FromEnd<T>(batches: seq<seq<T>>, base: nat)
    requires From(batches, |batches|, base)
    ensures base == |Flatten(batches)|
  {
    assert batches[|batches|..] == [];
  }

  function Min(a: int, b: int): int { if a < b then a else b }

  function Max(a: nat, b: nat): nat { if a > b then a else b }

  method RowCount<T>(batches: seq<seq<T>>) returns (n: nat)
    ensures n == |Flatten(batches)|
  {
    n := 0;
    var i := 0;
    assert batches[0..] == batches;
    while i < |batches|
      invariant From(batches, i, n)
    {
      FromStep(batches, i, n);
      n := n + |batches[i]|;
      i := i + 1;
    }
    FromEnd(batches, n);
  }

  // Slice rows `lo..hi` out of the batches, keeping batch boundaries and dropping empty pieces.
  method Slice<T>(batches: seq<seq<T>>, lo: nat, hi: nat) returns (pieces: seq<seq<T>>)
    requires lo <= hi <= |Flatten(batches)|
    ensures Flatten(pieces) == Flatten(batches)[lo..hi]
    ensures forall i :: 0 <= i < |pieces| ==> pieces[i] != []
  {
    pieces := [];
    var base: nat := 0;
    var i := 0;
    ghost var at := lo;
    assert batches[0..] == batches;
    while i < |batches|
      invariant From(batches, i, base)
      invariant at == Max(lo, Min(base, hi))
      invariant Flatten(pieces) == Flatten(batches)[lo..at]
      invariant forall k :: 0 <= k < |pieces| ==> pieces[k] != []
    {
      var batch := batches[i];
      FromStep(batches, i, base);
      var end := base + |batch|;
      var from, to := Max(base, lo), Min(end, hi);
      if from < to {
        SliceStep(Flatten(batches), pieces, batch, base, lo, from, to);
        pieces := pieces + [batch[from - base..to - base]];
        at := to;
      }
      base := end;
      i := i + 1;
    }
    FromEnd(batches, base);
  }

  lemma SliceStep<T>(rows: seq<T>, pieces: seq<seq<T>>, batch: seq<T>, base: nat, lo: nat, at: nat, to: nat)
    requires base <= at <= to <= base + |batch| <= |rows| && lo <= at
    requires rows[base..base + |batch|] == batch
    requires Flatten(pieces) == rows[lo..at]
    ensures Flatten(pieces + [batch[at - base..to - base]]) == rows[lo..to]
  {
    SubSlice(rows, base, base + |batch|, at - base, to - base);
    FlattenAppend(pieces, batch[at - base..to - base]);
    assert rows[lo..at] + rows[at..to] == rows[lo..to];
  }

  lemma SubSlice<T>(rows: seq<T>, base: nat, end: nat, a: nat, b: nat)
    requires base <= end <= |rows| && a <= b <= end - base
    ensures rows[base..end][a..b] == rows[base + a..base + b]
  {
    forall k | 0 <= k < b - a ensures rows[base..end][a..b][k] == rows[base + a..base + b][k] {
      assert rows[base..end][a + k] == rows[base + a + k];
    }
  }
}
