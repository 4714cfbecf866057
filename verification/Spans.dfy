/**
 Sparse ordinal progress within one immutable artifact
 (crates/velorix-core/src/processed_spans.rs).

 A `Spans` value is a sorted list of half-open spans over `0..total`. Its meaning is the
 set of covered ordinals. Canonical lists are the unique representation of their set.
 */
module Spans {
  import opened Wrappers

  datatype Span = Span(lo: nat, hi: nat)

  datatype SpansError = InvalidBounds | NonCanonical

  datatype Spans = Spans(total: nat, spans: seq<Span>)

  ghost predicate Covers(spans: seq<Span>, o: nat) {
    exists i :: 0 <= i < |spans| && spans[i].lo <= o < spans[i].hi
  }

  ghost predicate Bounded(spans: seq<Span>, total: nat) {
    forall i :: 0 <= i < |spans| ==> spans[i].lo < spans[i].hi <= total
  }

  // Consecutive spans are separated by at least one missing ordinal.
  ghost predicate Separated(spans: seq<Span>) {
    forall i, j :: 0 <= i < j < |spans| ==> spans[i].hi < spans[j].lo
  }

  ghost predicate Canonical(s: Spans) {
    Bounded(s.spans, s.total) && Separated(s.spans)
  }

  ghost function Ordinals(s: Spans): set<nat> {
    set o: nat | o < s.total && Covers(s.spans, o)
  }

  ghost function Interval(lo: nat, hi: nat): (r: set<nat>)
    ensures forall o: nat :: o in r <==> lo <= o < hi
    decreases hi - lo
  {
    if lo >= hi then {} else {lo} + Interval(lo + 1, hi)
  }

  ghost predicate Full(s: Spans) {
    forall o: nat :: o < s.total ==> Covers(s.spans, o)
  }

  // ---------------------------------------------------------------- construction

  method FromSpans(total: nat, spans: seq<Span>) returns (r: Result<Spans, SpansError>)
    ensures r.Ok? <==> Canonical(Spans(total, spans))
    ensures r.Ok? ==> r.value == Spans(total, spans)
    ensures r.Err? && r.error == NonCanonical ==> !Separated(spans)
  {
    var i := 0;
    var previousEnd := None;
    while i < |spans|
      invariant 0 <= i <= |spans|
      invariant Bounded(spans[..i], total) && Separated(spans[..i])
      invariant previousEnd == if i == 0 then None else Some(spans[i - 1].hi)
    {
      var span := spans[i];
      if span.lo >= span.hi || span.hi > total {
        return Err(InvalidBounds);
      }
      if previousEnd.Some? && span.lo <= previousEnd.value {
        return Err(NonCanonical);
      }
      previousEnd := Some(span.hi);
      i := i + 1;
    }
    assert spans[..i] == spans;
    return Ok(Spans(total, spans));
  }

  method FromPrefix(total: nat, count: nat) returns (r: Result<Spans, SpansError>)
    ensures r.Ok? <==> count <= total
    ensures r.Ok? ==> Canonical(r.value) && r.value.total == total && Ordinals(r.value) == Interval(0, count)
  {
    if count > total {
      return Err(InvalidBounds);
    }
    r := FromSpans(total, if count == 0 then [] else [Span(0, count)]);
    assert count > 0 ==> forall o: nat :: Covers([Span(0, count)], o) <==> [Span(0, count)][0].lo <= o < count;
  }

  // ---------------------------------------------------------------- insertion

  // Union with a nonempty interval; an invalid interval leaves the value unchanged.
  method Insert(s: Spans, start: nat, end: nat) returns (r: Result<Spans, SpansError>)
    requires Canonical(s)
    ensures r.Ok? <==> start < end <= s.total
    ensures r.Ok? ==> Canonical(r.value) && r.value.total == s.total
    ensures r.Ok? ==> Ordinals(r.value) == Ordinals(s) + Interval(start, end)
  {
    if start >= end || end > s.total {
      return Err(InvalidBounds);
    }
    var mergedStart: nat, mergedEnd: nat := start, end;
    var kept: seq<Span> := [];
    var i := 0;
    while i < |s.spans|
      invariant 0 <= i <= |s.spans|
      invariant mergedStart < mergedEnd <= s.total
      invariant Bounded(kept, s.total) && Separated(kept)
      invariant Below(kept, mergedStart) && (i < |s.spans| ==> Below(kept, s.spans[i].lo))
      invariant SameUnion(kept, Span(mergedStart, mergedEnd), s.spans[..i], Span(start, end))
    {
      var span := s.spans[i];
      ghost var was := Span(mergedStart, mergedEnd);
      UnionStep(kept, was, s.spans[..i], Span(start, end), span);
      assert s.spans[..i + 1] == s.spans[..i] + [span];
      if span.hi < mergedStart {
        AppendShape(kept, span, s.total);
        kept := kept + [span];
      } else if span.lo > mergedEnd {
        AppendShape(kept, Span(mergedStart, mergedEnd), s.total);
        kept := kept + [Span(mergedStart, mergedEnd)];
        mergedStart, mergedEnd := span.lo, span.hi;
      } else {
        mergedStart := if span.lo < mergedStart then span.lo else mergedStart;
        mergedEnd := if span.hi > mergedEnd then span.hi else mergedEnd;
      }
      i := i + 1;
    }
    assert s.spans[..i] == s.spans;
    FinishInsert(s, kept, Span(mergedStart, mergedEnd), Span(start, end));
    r := Ok(Spans(s.total, kept + [Span(mergedStart, mergedEnd)]));
  }

  ghost predicate Below(spans: seq<Span>, bound: nat) {
    forall k :: 0 <= k < |spans| ==> spans[k].hi < bound
  }

  ghost predicate SameUnion(kept: seq<Span>, merged: Span, prefix: seq<Span>, inserted: Span) {
    forall o: nat :: Covers(kept, o) || merged.lo <= o < merged.hi
                     <==> Covers(prefix, o) || inserted.lo <= o < inserted.hi
  }

  // Each branch of the insertion loop keeps the union of the spans read and the interval.
  lemma UnionStep(kept: seq<Span>, merged: Span, prefix: seq<Span>, inserted: Span, span: Span)
    requires SameUnion(kept, merged, prefix, inserted)
    ensures SameUnion(kept + [span], merged, prefix + [span], inserted)
    ensures SameUnion(kept + [merged], span, prefix + [span], inserted)
    ensures span.hi >= merged.lo && span.lo <= merged.hi && span.lo < span.hi && merged.lo < merged.hi ==>
              SameUnion(kept, Span(if span.lo < merged.lo then span.lo else merged.lo,
                                   if span.hi > merged.hi then span.hi else merged.hi),
                        prefix + [span], inserted)
  {
    CoversAppend(prefix, span);
    CoversAppend(kept, span);
    CoversAppend(kept, merged);
  }

  lemma FinishInsert(s: Spans, kept: seq<Span>, merged: Span, inserted: Span)
    requires Canonical(s) && Bounded(kept, s.total) && Separated(kept) && Below(kept, merged.lo)
    requires merged.lo < merged.hi <= s.total && inserted.lo < inserted.hi <= s.total
    requires SameUnion(kept, merged, s.spans, inserted)
    ensures Canonical(Spans(s.total, kept + [merged]))
    ensures Ordinals(Spans(s.total, kept + [merged])) == Ordinals(s) + Interval(inserted.lo, inserted.hi)
  {
    AppendShape(kept, merged, s.total);
    CoversAppend(kept, merged);
  }

  lemma AppendShape(spans: seq<Span>, s: Span, total: nat)
    requires Bounded(spans, total) && Separated(spans)
    requires s.lo < s.hi <= total
    requires Below(spans, s.lo)
    ensures Bounded(spans + [s], total) && Separated(spans + [s])
  {
  }

  lemma CoversAppend(spans: seq<Span>, s: Span)
    ensures forall o: nat :: Covers(spans + [s], o) <==> Covers(spans, o) || s.lo <= o < s.hi
  {
    forall o: nat
      ensures Covers(spans + [s], o) <==> Covers(spans, o) || s.lo <= o < s.hi
    {
      if Covers(spans, o) {
        var i :| 0 <= i < |spans| && spans[i].lo <= o < spans[i].hi;
        assert (spans + [s])[i] == spans[i];
      }
      if s.lo <= o < s.hi {
        assert (spans + [s])[|spans|] == s;
      }
    }
  }

  // ---------------------------------------------------------------- queries

  method Contains(s: Spans, ordinal: nat) returns (b: bool)
    ensures b <==> Covers(s.spans, ordinal)
  {
    var i := 0;
    while i < |s.spans|
      invariant 0 <= i <= |s.spans|
      invariant !Covers(s.spans[..i], ordinal)
    {
      if s.spans[i].lo <= ordinal < s.spans[i].hi {
        return true;
      }
      CoversAppend(s.spans[..i], s.spans[i]);
      assert s.spans[..i + 1] == s.spans[..i] + [s.spans[i]];
      i := i + 1;
    }
    assert s.spans[..i] == s.spans;
    return false;
  }

  // The exclusive end of the processed prefix starting at zero.
  function ContiguousFrontier(s: Spans): nat {
    if |s.spans| > 0 && s.spans[0].lo == 0 then s.spans[0].hi else 0
  }

  predicate IsComplete(s: Spans) {
    ContiguousFrontier(s) == s.total
  }

  // Sparse work beyond the first hole never advances the frontier.
  lemma FrontierIsFirstHole(s: Spans)
    requires Canonical(s)
    ensures ContiguousFrontier(s) <= s.total
    ensures forall o: nat :: o < ContiguousFrontier(s) ==> Covers(s.spans, o)
    ensures !Covers(s.spans, ContiguousFrontier(s))
    ensures IsComplete(s) <==> Full(s)
  {
    var f := ContiguousFrontier(s);
    forall o: nat | o < f ensures Covers(s.spans, o) {
      assert s.spans[0].lo <= o < s.spans[0].hi;
    }
  }

  function SpanSum(spans: seq<Span>): int {
    if spans == [] then 0 else SpanSum(spans[..|spans| - 1]) + (spans[|spans| - 1].hi - spans[|spans| - 1].lo)
  }

  // The fold never exceeds the row count, so it stays inside u64 whenever the row count does.
  method ProcessedLen(s: Spans) returns (sum: nat)
    requires Canonical(s)
    ensures sum == |Ordinals(s)|
    ensures sum <= s.total
    ensures sum == s.total <==> IsComplete(s)
  {
    var i := 0;
    var acc: int := 0;
    while i < |s.spans|
      invariant 0 <= i <= |s.spans|
      invariant acc == SpanSum(s.spans[..i])
    {
      assert s.spans[..i + 1][..i] == s.spans[..i];
      acc := acc + (s.spans[i].hi - s.spans[i].lo);
      i := i + 1;
    }
    assert s.spans[..i] == s.spans;
    SpanSumIsCardinality(s);
    sum := acc;
    FullCardinality(s);
  }

  lemma IntervalSize(lo: nat, hi: nat)
    requires lo <= hi
    ensures |Interval(lo, hi)| == hi - lo
    decreases hi - lo
  {
  }

  lemma DisjointSize(a: set<nat>, b: set<nat>)
    requires a !! b
    ensures |a + b| == |a| + |b|
  {
  }

  lemma OrdinalsAppend(total: nat, spans: seq<Span>, last: Span)
    requires Bounded(spans, total) && last.lo < last.hi <= total
    requires Below(spans, last.lo)
    ensures Ordinals(Spans(total, spans + [last])) == Ordinals(Spans(total, spans)) + Interval(last.lo, last.hi)
    ensures Ordinals(Spans(total, spans)) !! Interval(last.lo, last.hi)
  {
    CoversAppend(spans, last);
  }

  lemma {:induction false} SpanSumIsCardinality(s: Spans)
    requires Canonical(s)
    ensures SpanSum(s.spans) == |Ordinals(s)|
    decreases |s.spans|
  {
    if s.spans == [] {
      assert Ordinals(s) == {};
    } else {
      var last := s.spans[|s.spans| - 1];
      var front := Spans(s.total, s.spans[..|s.spans| - 1]);
      SpanSumIsCardinality(front);
      assert s.spans == front.spans + [last];
      OrdinalsAppend(s.total, front.spans, last);
      DisjointSize(Ordinals(front), Interval(last.lo, last.hi));
      IntervalSize(last.lo, last.hi);
    }
  }

  lemma SubsetSize(a: set<nat>, b: set<nat>)
    requires a <= b
    ensures |a| <= |b|
    ensures |a| == |b| <==> a == b
  {
    assert b == a + (b - a);
    assert |b| == |a| + |b - a|;
  }

  lemma FullCardinality(s: Spans)
    requires Canonical(s)
    ensures |Ordinals(s)| <= s.total
    ensures |Ordinals(s)| == s.total <==> IsComplete(s)
  {
    IntervalSize(0, s.total);
    SubsetSize(Ordinals(s), Interval(0, s.total));
    FrontierIsFirstHole(s);
    assert Ordinals(s) == Interval(0, s.total) <==> Full(s) by {
      if Ordinals(s) == Interval(0, s.total) {
        forall o: nat | o < s.total ensures Covers(s.spans, o) {
          assert o in Interval(0, s.total);
        }
      }
    }
  }

  // ---------------------------------------------------------------- gaps

  // The gaps of `spans` within `cursor..total`, in ascending order.
  function Gaps(spans: seq<Span>, cursor: nat, total: nat): seq<Span> {
    if spans == [] then
      if cursor < total then [Span(cursor, total)] else []
    else
      (if cursor < spans[0].lo then [Span(cursor, spans[0].lo)] else []) + Gaps(spans[1..], spans[0].hi, total)
  }

  method UnprocessedRuns(s: Spans) returns (runs: seq<Span>)
    ensures runs == Gaps(s.spans, 0, s.total)
  {
    runs := [];
    var cursor: nat := 0;
    var i := 0;
    while i < |s.spans|
      invariant 0 <= i <= |s.spans|
      invariant Gaps(s.spans, 0, s.total) == runs + Gaps(s.spans[i..], cursor, s.total)
    {
      var span := s.spans[i];
      GapsStep(s.spans, i, cursor, s.total, runs);
      if cursor < span.lo {
        runs := runs + [Span(cursor, span.lo)];
      }
      cursor := span.hi;
      i := i + 1;
    }
    if cursor < s.total {
      runs := runs + [Span(cursor, s.total)];
    }
  }

  lemma GapsStep(spans: seq<Span>, i: nat, cursor: nat, total: nat, runs: seq<Span>)
    requires i < |spans|
    ensures runs + Gaps(spans[i..], cursor, total)
         == (if cursor < spans[i].lo then runs + [Span(cursor, spans[i].lo)] else runs)
            + Gaps(spans[i + 1..], spans[i].hi, total)
  {
    assert spans[i..][1..] == spans[i + 1..];
    var rest := Gaps(spans[i + 1..], spans[i].hi, total);
    if cursor < spans[i].lo {
      assert runs + ([Span(cursor, spans[i].lo)] + rest) == (runs + [Span(cursor, spans[i].lo)]) + rest;
    } else {
      assert [] + rest == rest;
    }
  }

  lemma {:induction false} GapsShape(spans: seq<Span>, cursor: nat, total: nat)
    requires Bounded(spans, total) && Separated(spans) && cursor <= total
    requires spans != [] ==> cursor <= spans[0].lo
    ensures var g := Gaps(spans, cursor, total);
            Bounded(g, total) && Separated(g) && forall i :: 0 <= i < |g| ==> cursor <= g[i].lo
    decreases |spans|
  {
    if spans != [] {
      GapsShape(spans[1..], spans[0].hi, total);
    }
  }

  lemma {:induction false} GapsCover(spans: seq<Span>, cursor: nat, total: nat, o: nat)
    requires Bounded(spans, total) && Separated(spans) && cursor <= total
    requires spans != [] ==> cursor <= spans[0].lo
    ensures Covers(Gaps(spans, cursor, total), o) <==> cursor <= o < total && !Covers(spans, o)
    decreases |spans|
  {
    if spans == [] {
      CoversPrepend(Span(cursor, total), []);
      assert [Span(cursor, total)] + [] == [Span(cursor, total)];
    } else {
      var head, rest := spans[0], spans[1..];
      GapsCover(rest, head.hi, total, o);
      var tail := Gaps(rest, head.hi, total);
      CoversPrepend(head, rest);
      assert [head] + rest == spans;
      assert Covers(rest, o) ==> o > head.hi;
      CoversPrepend(Span(cursor, head.lo), tail);
      assert [] + tail == tail;
    }
  }

  lemma CoversPrepend(s: Span, spans: seq<Span>)
    ensures forall o: nat :: Covers([s] + spans, o) <==> Covers(spans, o) || s.lo <= o < s.hi
  {
    forall o: nat
      ensures Covers([s] + spans, o) <==> Covers(spans, o) || s.lo <= o < s.hi
    {
      if Covers(spans, o) {
        var i :| 0 <= i < |spans| && spans[i].lo <= o < spans[i].hi;
        assert ([s] + spans)[i + 1] == spans[i];
      }
      if s.lo <= o < s.hi {
        assert ([s] + spans)[0] == s;
      }
    }
  }

  // The unprocessed runs are the canonical representation of the complement.
  lemma GapsAreComplement(s: Spans)
    requires Canonical(s)
    ensures Canonical(Spans(s.total, Gaps(s.spans, 0, s.total)))
    ensures Ordinals(Spans(s.total, Gaps(s.spans, 0, s.total))) == Interval(0, s.total) - Ordinals(s)
    ensures Gaps(s.spans, 0, s.total) == [] <==> IsComplete(s)
  {
    GapsShape(s.spans, 0, s.total);
    FrontierIsFirstHole(s);
    var g := Gaps(s.spans, 0, s.total);
    forall o: nat ensures Covers(g, o) <==> o < s.total && !Covers(s.spans, o) {
      GapsCover(s.spans, 0, s.total, o);
    }
    if g != [] {
      assert Covers(g, g[0].lo);
    }
    assert Full(s) ==> g == [];
    if !Full(s) {
      var o: nat :| o < s.total && !Covers(s.spans, o);
      assert Covers(g, o);
    }
  }

  // ---------------------------------------------------------------- canonical form

  // Two canonical values that cover the same ordinals are the same value, so comparing
  // persisted progress for equality compares the sets of processed rows.
  lemma CanonicalIsUnique(a: Spans, b: Spans)
    requires Canonical(a) && Canonical(b) && a.total == b.total
    requires Ordinals(a) == Ordinals(b)
    ensures a == b
  {
    forall o: nat ensures Covers(a.spans, o) <==> Covers(b.spans, o) {
      assert o in Ordinals(a) <==> o in Ordinals(b);
    }
    SameCoverage(a.spans, b.spans, a.total);
  }

  lemma {:induction false} SameCoverage(a: seq<Span>, b: seq<Span>, total: nat)
    requires Bounded(a, total) && Separated(a) && Bounded(b, total) && Separated(b)
    requires forall o: nat :: Covers(a, o) <==> Covers(b, o)
    ensures a == b
    decreases |a|
  {
    if a == [] {
      if b != [] {
        assert Covers(b, b[0].lo);
        assert false;
      }
    } else {
      assert Covers(a, a[0].lo);
      assert b != [];
      SameFirst(a, b, total);
      SameFirst(b, a, total);
      assert a == [a[0]] + a[1..] && b == [b[0]] + b[1..];
      CoversPrepend(a[0], a[1..]);
      CoversPrepend(b[0], b[1..]);
      forall o: nat ensures Covers(a[1..], o) <==> Covers(b[1..], o) {
        assert Covers(a[1..], o) ==> o > a[0].hi;
        assert Covers(b[1..], o) ==> o > b[0].hi;
      }
      SameCoverage(a[1..], b[1..], total);
    }
  }

  // The first span of `b` starts no later, and ends no earlier when it starts at the same place.
  lemma SameFirst(a: seq<Span>, b: seq<Span>, total: nat)
    requires Bounded(a, total) && Separated(a) && Bounded(b, total) && Separated(b)
    requires a != [] && b != []
    requires forall o: nat :: Covers(a, o) <==> Covers(b, o)
    ensures b[0].lo <= a[0].lo
    ensures a[0].lo == b[0].lo ==> a[0].hi <= b[0].hi
  {
    assert Covers(a, a[0].lo);
    var i :| 0 <= i < |b| && b[i].lo <= a[0].lo < b[i].hi;
    if i > 0 {
      assert b[0].hi < b[i].lo;
    }
    if a[0].lo == b[0].lo && b[0].hi < a[0].hi {
      assert a[0].lo <= b[0].hi < a[0].hi;
      assert Covers(a, b[0].hi);
      assert false;
    }
  }
}
