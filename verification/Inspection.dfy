/**
 Inspecting an artifact to the end: `next_inspection` and staging repeated, in any mix of
 orders and row budgets (crates/velorix-api/src/demand_materialization.rs).
 */
module Inspection {
  import opened Wrappers
  import opened Spans
  import opened Batches
  import opened Staging

  // The ordinals that may match among those newly inspected.
  ghost function Wanted(may: seq<bool>, found: set<nat>): set<nat> {
    set o | o in found && o < |may| && may[o]
  }

  // What a number of inspections did: they inspected only fresh ordinals, applied those of them
  // that may match, and left every other scope alone.
  ghost predicate Advanced(p: Progress, q: Progress, scope: Scope, may: seq<bool>) {
    && Valid(q) && q.applied.total == p.applied.total && q.hash == p.hash
    && Inspected(p, scope) <= Inspected(q, scope)
    && Ordinals(q.applied) == Ordinals(p.applied) + Wanted(may, Inspected(q, scope) - Inspected(p, scope))
    && forall other :: other in p.inspected && other != scope ==> other in q.inspected && q.inspected[other] == p.inspected[other]
  }

  lemma SelectionIsWanted(applied: Spans, may: seq<bool>, c: Span)
    requires c.lo < c.hi <= |may| == applied.total
    ensures Ordinals(applied) + Selection(applied, c.lo, may[c.lo..c.hi]) == Ordinals(applied) + Wanted(may, Interval(c.lo, c.hi))
  {
    var sel, wanted := Selection(applied, c.lo, may[c.lo..c.hi]), Wanted(may, Interval(c.lo, c.hi));
    forall o: nat ensures o in Ordinals(applied) + sel <==> o in Ordinals(applied) + wanted {
      if c.lo <= o < c.hi {
        InSelection(applied, c.lo, may[c.lo..c.hi], o);
        assert may[c.lo..c.hi][o - c.lo] == may[o];
        assert o in Interval(c.lo, c.hi);
      }
    }
  }

  lemma AdvanceMore(p: Progress, q: Progress, scope: Scope, may: seq<bool>, c: Span, next: Progress)
    requires |may| == p.applied.total && Advanced(p, q, scope, may) && FreshInterval(q, scope, c)
    requires StagedFrom(q, scope, c.lo, may[c.lo..c.hi], next)
    ensures Advanced(p, next, scope, may)
  {
    var more := Interval(c.lo, c.hi);
    SelectionIsWanted(q.applied, may, c);
    assert Inspected(next, scope) == Inspected(q, scope) + more;
    WantedGrows(may, Inspected(p, scope), Inspected(q, scope), more, Ordinals(p.applied), Ordinals(q.applied));
    OthersKept(p, q, scope, c.lo, may[c.lo..c.hi], next);
  }

  lemma OthersKept(p: Progress, q: Progress, scope: Scope, start: nat, may: seq<bool>, next: Progress)
    requires StagedFrom(q, scope, start, may, next)
    requires forall other :: other in p.inspected && other != scope ==> other in q.inspected && q.inspected[other] == p.inspected[other]
    ensures forall other :: other in p.inspected && other != scope ==> other in next.inspected && next.inspected[other] == p.inspected[other]
  {
  }

  lemma MoreInspected(q: Progress, scope: Scope, may: seq<bool>, c: Span, next: Progress)
    requires FreshInterval(q, scope, c) && c.hi <= |may| && StagedFrom(q, scope, c.lo, may[c.lo..c.hi], next)
    ensures |Inspected(next, scope)| == |Inspected(q, scope)| + (c.hi - c.lo)
  {
    assert Inspected(next, scope) == Inspected(q, scope) + Interval(c.lo, c.hi);
    DisjointSize(Inspected(q, scope), Interval(c.lo, c.hi));
    IntervalSize(c.lo, c.hi);
  }

  lemma WantedGrows(may: seq<bool>, before: set<nat>, now: set<nat>, more: set<nat>, first: set<nat>, applied: set<nat>)
    requires before <= now && more !! now && applied == first + Wanted(may, now - before)
    ensures applied + Wanted(may, more) == first + Wanted(may, now + more - before)
  {
    assert now + more - before == (now - before) + more;
    assert Wanted(may, (now - before) + more) == Wanted(may, now - before) + Wanted(may, more);
  }

  // One inspection: the next interval the budget allows is staged and becomes inspected.
  method InspectNext<T>(q: Progress, input: Input<T>, scope: Scope, may: seq<bool>, order: Order, budget: nat)
    returns (c: Option<Span>, next: Progress, taken: seq<T>)
    requires Valid(q) && |Flatten(input.batches)| == q.applied.total == |may| && budget > 0
    ensures c.None? <==> Full(Scan(q, scope))
    ensures c.None? ==> next == q && taken == []
    ensures c.Some? ==>
      && FreshInterval(q, scope, c.value) && c.value.hi - c.value.lo <= budget
      && StagedFrom(q, scope, c.value.lo, may[c.value.lo..c.value.hi], next)
      && taken == Pick(Flatten(input.batches), Selection(q.applied, c.value.lo, may[c.value.lo..c.value.hi]), c.value.lo, c.value.hi)
  {
    next, taken := q, [];
    c := NextInspection(q, scope, order, budget);
    if c.Some? {
      var staged := StageInspection(q, input, scope, c.value.lo, c.value.hi, may[c.value.lo..c.value.hi]);
      next, taken := staged.value.0, Flatten(staged.value.1.batches);
    }
  }

  // Repeats inspections until nothing is left. It ends after at most as many inspections as
  // rows were uninspected; no row is inspected twice; and whatever the orders and budgets were,
  // the outcome is the same: the scope is inspected in full and every row that may match it and
  // was not inspected before is applied.
  method InspectAll<T>(p: Progress, input: Input<T>, scope: Scope, may: seq<bool>, orders: nat -> Order, budgets: nat -> nat)
    returns (q: Progress, intervals: seq<Span>)
    requires Valid(p) && |Flatten(input.batches)| == p.applied.total == |may|
    requires forall n: nat :: budgets(n) > 0
    ensures Advanced(p, q, scope, may) && Full(Scan(q, scope))
    ensures |intervals| <= p.applied.total - |Inspected(p, scope)|
    ensures forall i, j :: 0 <= i < j < |intervals| ==> Interval(intervals[i].lo, intervals[i].hi) !! Interval(intervals[j].lo, intervals[j].hi)
    ensures forall i :: 0 <= i < |intervals| ==> Interval(intervals[i].lo, intervals[i].hi) !! Inspected(p, scope)
  {
    q, intervals := p, [];
    ScanSize(p, scope);
    while true
      invariant Progressed(p, q, scope, may, intervals)
      decreases p.applied.total - |Inspected(q, scope)|
    {
      var c, next, taken := InspectNext(q, input, scope, may, orders(|intervals|), budgets(|intervals|));
      if c.None? {
        return;
      }
      ProgressMore(p, q, scope, may, intervals, c.value, next);
      q, intervals := next, intervals + [c.value];
    }
  }

  // The inspections so far: each took at least one row, and they are apart.
  ghost predicate Progressed(p: Progress, q: Progress, scope: Scope, may: seq<bool>, intervals: seq<Span>) {
    && Advanced(p, q, scope, may)
    && |intervals| + |Inspected(p, scope)| <= |Inspected(q, scope)| <= p.applied.total
    && Apart(intervals, Inspected(p, scope), Inspected(q, scope))
  }

  lemma ProgressMore(p: Progress, q: Progress, scope: Scope, may: seq<bool>, intervals: seq<Span>, c: Span, next: Progress)
    requires |may| == p.applied.total && Progressed(p, q, scope, may, intervals) && FreshInterval(q, scope, c)
    requires StagedFrom(q, scope, c.lo, may[c.lo..c.hi], next)
    ensures Progressed(p, next, scope, may, intervals + [c]) && |Inspected(q, scope)| < |Inspected(next, scope)|
  {
    AdvanceMore(p, q, scope, may, c, next);
    MoreInspected(q, scope, may, c, next);
    ApartMore(intervals, Inspected(p, scope), Inspected(q, scope), c);
    ScanSize(next, scope);
  }

  lemma ScanSize(p: Progress, scope: Scope)
    requires Valid(p)
    ensures |Inspected(p, scope)| <= p.applied.total
  {
    FullCardinality(Scan(p, scope));
  }

  // Intervals are inside what is inspected now, outside what was before, and apart.
  ghost predicate Apart(intervals: seq<Span>, before: set<nat>, now: set<nat>) {
    && before <= now
    && (forall i :: 0 <= i < |intervals| ==>
          Interval(intervals[i].lo, intervals[i].hi) <= now && Interval(intervals[i].lo, intervals[i].hi) !! before)
    && (forall i, j :: 0 <= i < j < |intervals| ==> Interval(intervals[i].lo, intervals[i].hi) !! Interval(intervals[j].lo, intervals[j].hi))
  }

  lemma ApartMore(intervals: seq<Span>, before: set<nat>, now: set<nat>, c: Span)
    requires Apart(intervals, before, now) && Interval(c.lo, c.hi) !! now
    ensures Apart(intervals + [c], before, now + Interval(c.lo, c.hi))
  {
  }
}
