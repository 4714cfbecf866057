/**
 Interval choice, staging and source-run extraction for one artifact
 (`DemandArtifactProgress` in crates/velorix-api/src/demand_materialization.rs).
 */
module Staging {
  import opened Wrappers
  import opened Spans
  import opened Batches

  // `None` is the unrestricted scope. Scope hashes are collision-free, so a scope is its own key.
  type Scope = Option<string>

  datatype Order = Forward | Reverse

  datatype Input<T> = Input(start: nat, end: nat, batches: seq<seq<T>>, watermark: Option<int>)

  datatype Progress = Progress(
    hash: string,
    applied: Spans,
    inspected: map<Scope, Spans>,
    watermark: Option<Option<int>>)

  datatype StageError = OrdinalMismatch | OffsetOverflow

  const U64_MAX: nat := 0xFFFF_FFFF_FFFF_FFFF

  ghost predicate Valid(p: Progress) {
    && Canonical(p.applied)
    && forall s :: s in p.inspected ==> Canonical(p.inspected[s]) && p.inspected[s].total == p.applied.total
  }

  // ---------------------------------------------------------------- interval choice

  function Scan(p: Progress, scope: Scope): Spans {
    if scope in p.inspected then p.inspected[scope] else Spans(p.applied.total, [])
  }

  ghost function Inspected(p: Progress, scope: Scope): set<nat> {
    Ordinals(Scan(p, scope))
  }

  function Choose(runs: seq<Span>, order: Order, limit: nat): Option<Span>
    requires forall i :: 0 <= i < |runs| ==> runs[i].lo <= runs[i].hi
  {
    if runs == [] then None
    else if order == Forward then
      var run := runs[0]; Some(Span(run.lo, run.lo + Min(run.hi - run.lo, limit)))
    else
      var run := runs[|runs| - 1]; Some(Span(run.hi - Min(run.hi - run.lo, limit), run.hi))
  }

  // Selects one bounded interval: it is fresh for the scope, it is the first (or last) such
  // interval, and it is missing exactly when there is no budget or nothing left to inspect.
  method NextInspection(p: Progress, scope: Scope, order: Order, maxRows: nat) returns (r: Option<Span>)
    requires Valid(p)
    ensures r == None <==> maxRows == 0 || Full(Scan(p, scope))
    ensures r.Some? ==> FreshInterval(p, scope, r.value) && r.value.hi - r.value.lo <= maxRows
    ensures r.Some? ==> Extreme(Scan(p, scope), order, maxRows, r.value)
  {
    if maxRows == 0 {
      return None;
    }
    var scan := Scan(p, scope);
    var runs := UnprocessedRuns(scan);
    ChoiceExists(scan, runs);
    r := Choose(runs, order, maxRows);
    if runs != [] {
      ChoiceIsExtreme(scan, runs, order, maxRows);
    }
  }

  lemma ChoiceExists(scan: Spans, runs: seq<Span>)
    requires Canonical(scan) && runs == Gaps(scan.spans, 0, scan.total)
    ensures Bounded(runs, scan.total)
    ensures runs == [] <==> Full(scan)
  {
    GapsAreComplement(scan);
    FrontierIsFirstHole(scan);
  }

  // Nonempty, inside the artifact, and never inspected for this scope before.
  ghost predicate FreshInterval(p: Progress, scope: Scope, interval: Span) {
    && interval.lo < interval.hi <= p.applied.total
    && Interval(interval.lo, interval.hi) !! Inspected(p, scope)
  }

  lemma GapFacts(scan: Spans, runs: seq<Span>)
    requires Canonical(scan) && runs == Gaps(scan.spans, 0, scan.total)
    ensures Canonical(Spans(scan.total, runs))
    ensures forall o: nat :: o < scan.total ==> (o in Ordinals(scan) <==> !Covers(runs, o))
  {
    GapsAreComplement(scan);
    forall o: nat | o < scan.total
      ensures o in Ordinals(scan) <==> !Covers(runs, o)
    {
      assert o in Interval(0, scan.total);
      assert o in Ordinals(Spans(scan.total, runs)) <==> Covers(runs, o);
    }
  }

  // Nothing is left to inspect before a forward choice or after a reverse one, and the choice
  // stops only at the budget, at the edge of the artifact or at an inspected row.
  ghost predicate Extreme(scan: Spans, order: Order, limit: nat, c: Span) {
    match order
    case Forward =>
      && (forall o: nat :: o < c.lo ==> o in Ordinals(scan))
      && (c.hi == c.lo + limit || c.hi == scan.total || c.hi in Ordinals(scan))
    case Reverse =>
      && (forall o: nat :: c.hi <= o < scan.total ==> o in Ordinals(scan))
      && (c.hi == c.lo + limit || c.lo == 0 || c.lo - 1 in Ordinals(scan))
  }

  // There is no other choice.
  lemma ExtremeIsUnique(scan: Spans, order: Order, limit: nat, a: Span, b: Span)
    requires Uncovered(scan, a) && a.hi <= a.lo + limit && Extreme(scan, order, limit, a)
    requires Uncovered(scan, b) && b.hi <= b.lo + limit && Extreme(scan, order, limit, b)
    ensures a == b
  {
    assert a.lo in Interval(a.lo, a.hi) && b.lo in Interval(b.lo, b.hi);
    assert a.hi - 1 in Interval(a.lo, a.hi) && b.hi - 1 in Interval(b.lo, b.hi);
    match order
    case Forward =>
      assert a.hi < b.hi ==> a.hi in Interval(b.lo, b.hi);
      assert b.hi < a.hi ==> b.hi in Interval(a.lo, a.hi);
    case Reverse =>
      assert a.lo < b.lo ==> b.lo - 1 in Interval(a.lo, a.hi);
      assert b.lo < a.lo ==> a.lo - 1 in Interval(b.lo, b.hi);
  }

  // The interval that the next inspection takes.
  ghost function Chosen(p: Progress, scope: Scope, order: Order, limit: nat): (c: Span)
    requires Valid(p) && limit > 0 && !Full(Scan(p, scope))
    ensures c.lo < c.hi <= c.lo + limit
  {
    ChoiceIsThere(p, scope, order, limit);
    var c :| IsChoice(p, scope, order, limit, c);
    c
  }

  ghost predicate IsChoice(p: Progress, scope: Scope, order: Order, limit: nat, c: Span) {
    FreshInterval(p, scope, c) && c.hi - c.lo <= limit && Extreme(Scan(p, scope), order, limit, c)
  }

  lemma ChoiceIsThere(p: Progress, scope: Scope, order: Order, limit: nat)
    requires Valid(p) && limit > 0 && !Full(Scan(p, scope))
    ensures exists c :: IsChoice(p, scope, order, limit, c)
  {
    var scan := Scan(p, scope);
    var runs := Gaps(scan.spans, 0, scan.total);
    ChoiceExists(scan, runs);
    ChoiceIsExtreme(scan, runs, order, limit);
    assert IsChoice(p, scope, order, limit, Choose(runs, order, limit).value);
  }

  lemma ChosenIsChoice(p: Progress, scope: Scope, order: Order, limit: nat)
    requires Valid(p) && limit > 0 && !Full(Scan(p, scope))
    ensures IsChoice(p, scope, order, limit, Chosen(p, scope, order, limit))
  {
    ChoiceIsThere(p, scope, order, limit);
  }

  lemma ChoiceIsExtreme(scan: Spans, runs: seq<Span>, order: Order, limit: nat)
    requires Canonical(scan) && runs == Gaps(scan.spans, 0, scan.total) && runs != [] && limit > 0
    requires Bounded(runs, scan.total)
    ensures var c := Choose(runs, order, limit).value;
            Uncovered(scan, c) && c.hi <= c.lo + limit && Extreme(scan, order, limit, c)
  {
    var c := Choose(runs, order, limit).value;
    match order
    case Forward =>
      FirstGap(scan, runs);
      InsideGap(scan, runs, 0, c);
    case Reverse =>
      LastGap(scan, runs);
      InsideGap(scan, runs, |runs| - 1, c);
  }

  ghost predicate Uncovered(scan: Spans, c: Span) {
    c.lo < c.hi <= scan.total && Interval(c.lo, c.hi) !! Ordinals(scan)
  }

  lemma InsideGap(scan: Spans, runs: seq<Span>, at: nat, c: Span)
    requires Canonical(scan) && runs == Gaps(scan.spans, 0, scan.total) && at < |runs|
    requires runs[at].lo <= c.lo < c.hi <= runs[at].hi
    ensures Uncovered(scan, c)
  {
    GapFacts(scan, runs);
    forall o: nat | o in Interval(c.lo, c.hi) ensures o !in Ordinals(scan) {
      assert Covers(runs, o);
    }
  }

  lemma FirstGap(scan: Spans, runs: seq<Span>)
    requires Canonical(scan) && runs == Gaps(scan.spans, 0, scan.total) && runs != []
    ensures forall o: nat :: o < runs[0].lo ==> o in Ordinals(scan)
    ensures runs[0].hi == scan.total || runs[0].hi in Ordinals(scan)
  {
    GapFacts(scan, runs);
    NotCoveredBeside(runs, scan.total, 0);
  }

  lemma LastGap(scan: Spans, runs: seq<Span>)
    requires Canonical(scan) && runs == Gaps(scan.spans, 0, scan.total) && runs != []
    ensures forall o: nat :: runs[|runs| - 1].hi <= o < scan.total ==> o in Ordinals(scan)
    ensures runs[|runs| - 1].lo == 0 || runs[|runs| - 1].lo - 1 in Ordinals(scan)
  {
    GapFacts(scan, runs);
    NotCoveredBeside(runs, scan.total, |runs| - 1);
  }

  // A span of a canonical list ends before an uncovered ordinal and starts after one.
  lemma NotCoveredBeside(spans: seq<Span>, total: nat, i: nat)
    requires Canonical(Spans(total, spans)) && i < |spans|
    ensures !Covers(spans, spans[i].hi)
    ensures spans[i].lo > 0 ==> !Covers(spans, spans[i].lo - 1)
  {
  }

  // ---------------------------------------------------------------- selection

  // The inspected ordinals that may match and are not applied yet.
  ghost function Selection(applied: Spans, start: nat, may: seq<bool>): set<nat> {
    set o: nat | o in Interval(start, start + |may|) && may[o - start] && o !in Ordinals(applied)
  }

  // The rows of `rows[lo..hi]` at the selected ordinals, in physical order.
  ghost function Pick<T>(rows: seq<T>, sel: set<nat>, lo: nat, hi: nat): seq<T>
    requires hi <= |rows|
    decreases hi - lo
  {
    if lo >= hi then [] else (if lo in sel then [rows[lo]] else []) + Pick(rows, sel, lo + 1, hi)
  }

  lemma {:induction false} PickSplit<T>(rows: seq<T>, sel: set<nat>, lo: nat, mid: nat, hi: nat)
    requires lo <= mid <= hi <= |rows|
    ensures Pick(rows, sel, lo, hi) == Pick(rows, sel, lo, mid) + Pick(rows, sel, mid, hi)
    decreases mid - lo
  {
    if lo < mid {
      PickSplit(rows, sel, lo + 1, mid, hi);
    }
  }

  lemma {:induction false} PickAll<T>(rows: seq<T>, sel: set<nat>, lo: nat, hi: nat)
    requires lo <= hi <= |rows|
    requires forall o: nat :: lo <= o < hi ==> o in sel
    ensures Pick(rows, sel, lo, hi) == rows[lo..hi]
    decreases hi - lo
  {
    if lo < hi {
      PickAll(rows, sel, lo + 1, hi);
    }
  }

  lemma {:induction false} PickNone<T>(rows: seq<T>, sel: set<nat>, lo: nat, hi: nat)
    requires lo <= hi <= |rows|
    requires forall o: nat :: lo <= o < hi ==> o !in sel
    ensures Pick(rows, sel, lo, hi) == []
    decreases hi - lo
  {
    if lo < hi {
      PickNone(rows, sel, lo + 1, hi);
    }
  }

  lemma InSelection(applied: Spans, start: nat, may: seq<bool>, o: nat)
    requires start <= o < start + |may| && o < applied.total
    ensures o in Selection(applied, start, may) <==> may[o - start] && !Covers(applied.spans, o)
  {
    assert o in Interval(start, start + |may|);
  }

  // One maximal run of selected ordinals inside a window that starts at `from`.
  method NextRun(applied: Spans, start: nat, may: seq<bool>, from: nat, bound: nat) returns (run: Option<Span>)
    requires Canonical(applied) && start <= from && bound <= start + |may|
    requires bound <= applied.total
    ensures run.None? ==> forall o: nat :: from <= o < bound ==> o !in Selection(applied, start, may)
    ensures run.Some? ==>
              && from <= run.value.lo < run.value.hi <= bound
              && (forall o: nat :: from <= o < run.value.lo ==> o !in Selection(applied, start, may))
              && (forall o: nat :: run.value.lo <= o < run.value.hi ==> o in Selection(applied, start, may))
              && (run.value.hi == bound || run.value.hi !in Selection(applied, start, may))
  {
    ghost var sel := Selection(applied, start, may);
    var ordinal: nat := from;
    while ordinal < bound
      invariant from <= ordinal
      invariant forall o: nat :: from <= o < ordinal && o < bound ==> o !in sel
    {
      var there := Contains(applied, ordinal);
      InSelection(applied, start, may, ordinal);
      if may[ordinal - start] && !there {
        var runStart := ordinal;
        ordinal := ordinal + 1;
        while ordinal < bound
          invariant runStart < ordinal <= bound
          invariant forall o: nat :: runStart <= o < ordinal ==> o in sel
        {
          there := Contains(applied, ordinal);
          InSelection(applied, start, may, ordinal);
          if !may[ordinal - start] || there {
            break;
          }
          ordinal := ordinal + 1;
        }
        return Some(Span(runStart, ordinal));
      }
      ordinal := ordinal + 1;
    }
    return None;
  }

  ghost function Window(sel: set<nat>, lo: nat, hi: nat): set<nat> {
    set o | o in sel && lo <= o < hi
  }

  // The pieces taken from ordinals `lo..at` and the progress with those ordinals applied.
  ghost predicate Staged<T>(rows: seq<T>, sel: set<nat>, lo: nat, at: nat,
                            before: Spans, batches: seq<seq<T>>, after: Spans) {
    && lo <= at <= |rows|
    && Canonical(after) && after.total == before.total
    && Flatten(batches) == Pick(rows, sel, lo, at)
    && Ordinals(after) == Ordinals(before) + Window(sel, lo, at)
  }

  lemma StagedSkip<T>(rows: seq<T>, sel: set<nat>, lo: nat, at: nat, to: nat,
                      before: Spans, batches: seq<seq<T>>, after: Spans)
    requires Staged(rows, sel, lo, at, before, batches, after) && at <= to <= |rows|
    requires forall o: nat :: at <= o < to ==> o !in sel
    ensures Staged(rows, sel, lo, to, before, batches, after)
  {
    PickSplit(rows, sel, lo, at, to);
    PickNone(rows, sel, at, to);
    assert Window(sel, lo, to) == Window(sel, lo, at);
  }

  lemma StagedRun<T>(rows: seq<T>, sel: set<nat>, lo: nat, at: nat, run: Span,
                     before: Spans, batches: seq<seq<T>>, after: Spans, next: Spans)
    requires Staged(rows, sel, lo, at, before, batches, after) && at <= run.lo <= run.hi <= |rows|
    requires forall o: nat :: at <= o < run.lo ==> o !in sel
    requires forall o: nat :: run.lo <= o < run.hi ==> o in sel
    requires Canonical(next) && next.total == after.total
    requires Ordinals(next) == Ordinals(after) + Interval(run.lo, run.hi)
    ensures Staged(rows, sel, lo, run.hi, before, batches + [rows[run.lo..run.hi]], next)
  {
    StagedSkip(rows, sel, lo, at, run.lo, before, batches, after);
    PickSplit(rows, sel, lo, run.lo, run.hi);
    PickAll(rows, sel, run.lo, run.hi);
    FlattenAppend(batches, rows[run.lo..run.hi]);
    assert Window(sel, lo, run.hi) == Window(sel, lo, run.lo) + Interval(run.lo, run.hi);
  }

  lemma StagedPiece<T>(rows: seq<T>, sel: set<nat>, lo: nat, at: nat, run: Span,
                       before: Spans, batches: seq<seq<T>>, after: Spans, next: Spans, batch: seq<T>, base: nat)
    requires Staged(rows, sel, lo, at, before, batches, after) && at <= run.lo <= run.hi <= |rows|
    requires forall o: nat :: at <= o < run.lo ==> o !in sel
    requires forall o: nat :: run.lo <= o < run.hi ==> o in sel
    requires Canonical(next) && next.total == after.total
    requires Ordinals(next) == Ordinals(after) + Interval(run.lo, run.hi)
    requires base <= run.lo && run.hi <= base + |batch| <= |rows| && rows[base..base + |batch|] == batch
    ensures Staged(rows, sel, lo, run.hi, before, batches + [batch[run.lo - base..run.hi - base]], next)
  {
    StagedRun(rows, sel, lo, at, run, before, batches, after, next);
    SubSlice(rows, base, base + |batch|, run.lo - base, run.hi - base);
  }

  // Continue staging through one batch, which holds rows `base..base + |batch|`.
  method StageBatch<T>(applied: Spans, start: nat, may: seq<bool>, batch: seq<T>, base: nat,
                       taken: seq<seq<T>>, current: Spans, ghost rows: seq<T>)
    returns (batches: seq<seq<T>>, next: Spans)
    requires Canonical(applied) && applied.total == |rows| && start + |may| <= |rows|
    requires base + |batch| <= |rows| && rows[base..base + |batch|] == batch
    requires Staged(rows, Selection(applied, start, may), start, Max(start, Min(base, start + |may|)), applied, taken, current)
    ensures Staged(rows, Selection(applied, start, may), start, Max(start, Min(base + |batch|, start + |may|)),
                   applied, batches, next)
  {
    var bound, ordinal := Min(start + |may|, base + |batch|), Max(start, base);
    batches, next := taken, current;
    if ordinal < bound {
      batches, next := StageWindow(applied, start, may, batch, base, ordinal, bound, taken, current, rows);
    }
  }

  method StageWindow<T>(applied: Spans, start: nat, may: seq<bool>, batch: seq<T>, base: nat, from: nat, bound: nat,
                        taken: seq<seq<T>>, current: Spans, ghost rows: seq<T>)
    returns (batches: seq<seq<T>>, next: Spans)
    requires Canonical(applied) && applied.total == |rows|
    requires start <= from < bound <= start + |may| <= |rows| && base <= from && bound <= base + |batch| <= |rows|
    requires rows[base..base + |batch|] == batch
    requires Staged(rows, Selection(applied, start, may), start, from, applied, taken, current)
    ensures Staged(rows, Selection(applied, start, may), start, bound, applied, batches, next)
  {
    ghost var sel := Selection(applied, start, may);
    var ordinal: nat := from;
    batches, next := taken, current;
    while ordinal < bound
      invariant from <= ordinal <= bound
      invariant Staged(rows, sel, start, ordinal, applied, batches, next)
    {
      var run := NextRun(applied, start, may, ordinal, bound);
      if run.None? {
        StagedSkip(rows, sel, start, ordinal, bound, applied, batches, next);
        ordinal := bound;
      } else {
        var lo, hi := run.value.lo, run.value.hi;
        var inserted := Insert(next, lo, hi);
        StagedPiece(rows, sel, start, ordinal, run.value, applied, batches, next, inserted.value, batch, base);
        batches, next := batches + [batch[lo - base..hi - base]], inserted.value;
        ordinal := hi;
      }
    }
  }

  method StageBatches<T>(applied: Spans, start: nat, may: seq<bool>, input: seq<seq<T>>)
    returns (batches: seq<seq<T>>, next: Spans)
    requires Canonical(applied) && applied.total == |Flatten(input)| && start + |may| <= applied.total
    ensures Staged(Flatten(input), Selection(applied, start, may), start, start + |may|, applied, batches, next)
  {
    ghost var rows := Flatten(input);
    ghost var sel := Selection(applied, start, may);
    batches, next := [], applied;
    var base: nat := 0;
    var i := 0;
    assert input[0..] == input;
    assert Window(sel, start, start) == {};
    while i < |input|
      invariant From(input, i, base)
      invariant Staged(rows, sel, start, Max(start, Min(base, start + |may|)), applied, batches, next)
    {
      FromStep(input, i, base);
      batches, next := StageBatch(applied, start, may, input[i], base, batches, next, rows);
      base := base + |input[i]|;
      i := i + 1;
    }
    FromEnd(input, base);
  }

  // Slices an authenticated artifact without changing its row order. The returned progress
  // stays speculative: the argument is a value and is left as it was.
  method StageInspection<T>(p: Progress, input: Input<T>, scope: Scope, start: nat, end: nat, may: seq<bool>)
    returns (r: Result<(Progress, Input<T>), StageError>)
    requires Valid(p)
    ensures r.Ok? <==> |Flatten(input.batches)| == p.applied.total && start < end <= p.applied.total && |may| == end - start
    ensures r.Ok? ==> StagedFrom(p, scope, start, may, r.value.0)
    ensures r.Ok? ==>
      && Flatten(r.value.1.batches) == Pick(Flatten(input.batches), Selection(p.applied, start, may), start, end)
      && r.value.1.batches != []
      && r.value.1.start == r.value.1.end == 0 && r.value.1.watermark == None
  {
    var rowsTotal := RowCount(input.batches);
    if rowsTotal != p.applied.total || start >= end || end > rowsTotal || |may| != end - start {
      return Err(OrdinalMismatch);
    }
    var staged, batches := StageRows(p, input.batches, scope, start, end, may);
    r := Ok((staged, Input(0, 0, batches, None)));
  }

  method StageRows<T>(p: Progress, batches: seq<seq<T>>, scope: Scope, start: nat, end: nat, may: seq<bool>)
    returns (staged: Progress, rows: seq<seq<T>>)
    requires Valid(p) && |Flatten(batches)| == p.applied.total && start < end <= p.applied.total && |may| == end - start
    ensures StagedFrom(p, scope, start, may, staged)
    ensures rows != [] && Flatten(rows) == Pick(Flatten(batches), Selection(p.applied, start, may), start, end)
  {
    var applied, inspected;
    rows, applied := StageBatches(p.applied, start, may, batches);
    inspected := Insert(Scan(p, scope), start, end);
    InstallStaged(p, scope, start, may, applied, inspected.value);
    staged := p.(applied := applied, inspected := p.inspected[scope := inspected.value]);
    if rows == [] {
      rows := [[]];
      assert Flatten([[]]) == [] + Flatten<T>([]);
    }
  }

  // Exactly the fresh matching ordinals become applied, exactly the interval becomes inspected
  // for this scope, and every other scope keeps its record.
  ghost predicate StagedFrom(p: Progress, scope: Scope, start: nat, may: seq<bool>, staged: Progress) {
    && Valid(staged) && staged.applied.total == p.applied.total
    && staged.hash == p.hash && staged.watermark == p.watermark
    && Ordinals(staged.applied) == Ordinals(p.applied) + Selection(p.applied, start, may)
    && Inspected(staged, scope) == Inspected(p, scope) + Interval(start, start + |may|)
    && staged.inspected.Keys == p.inspected.Keys + {scope}
    && forall other :: other in p.inspected && other != scope ==> staged.inspected[other] == p.inspected[other]
  }

  lemma InstallStaged(p: Progress, scope: Scope, start: nat, may: seq<bool>, applied: Spans, inspected: Spans)
    requires Valid(p) && start + |may| <= p.applied.total
    requires Canonical(applied) && applied.total == p.applied.total
    requires Canonical(inspected) && inspected.total == p.applied.total
    requires var sel := Selection(p.applied, start, may);
             Ordinals(applied) == Ordinals(p.applied) + Window(sel, start, start + |may|)
    requires Ordinals(inspected) == Inspected(p, scope) + Interval(start, start + |may|)
    ensures StagedFrom(p, scope, start, may, p.(applied := applied, inspected := p.inspected[scope := inspected]))
  {
    assert Window(Selection(p.applied, start, may), start, start + |may|) == Selection(p.applied, start, may);
  }

  // ---------------------------------------------------------------- source runs

  // A run of consecutive source offsets with the rows at those offsets.
  ghost predicate RunOf<T>(input: Input<T>, span: Span, run: Input<T>)
    requires span.lo <= span.hi <= |Flatten(input.batches)|
  {
    && run.start == input.start + span.lo
    && run.end == input.start + span.hi
    && run.watermark == input.watermark
    && Flatten(run.batches) == Flatten(input.batches)[span.lo..span.hi]
  }

  ghost predicate SpansOf(spans: seq<Span>, sel: set<nat>, lo: nat, hi: nat) {
    && Separated(spans)
    && (forall i :: 0 <= i < |spans| ==> lo <= spans[i].lo < spans[i].hi <= hi)
    && (forall o: nat :: Covers(spans, o) <==> o in sel && lo <= o < hi)
  }

  // The offset after every selected row fits 64 bits.
  ghost predicate OffsetsFit(start: nat, sel: set<nat>) {
    forall o :: o in sel ==> start + o < U64_MAX
  }

  // The runs are the canonical spans of the selection: maximal, disjoint, ascending, and each
  // as wide in offsets as it has rows. Without a selection one empty run keeps the watermark.
  method SelectedSourceRuns<T>(p: Progress, input: Input<T>, start: nat, end: nat, may: seq<bool>)
    returns (r: Result<seq<Input<T>>, StageError>, ghost spans: seq<Span>)
    requires Valid(p) && |Flatten(input.batches)| == p.applied.total
    requires start < end <= p.applied.total && |may| == end - start
    ensures r.Ok? <==> OffsetsFit(input.start, Selection(p.applied, start, may))
    ensures r.Ok? ==> SpansOf(spans, Selection(p.applied, start, may), start, end)
    ensures r.Ok? && spans == [] ==> r.value == [input.(batches := [], end := input.start)]
    ensures r.Ok? && spans != [] ==> RunsOf(input, spans, r.value)
    ensures r.Ok? ==> RunRows(r.value) == Pick(Flatten(input.batches), Selection(p.applied, start, may), start, end)
  {
    var collected;
    collected, spans := CollectRuns(p.applied, input, start, may);
    if collected.Err? {
      return collected, spans;
    }
    RunsArePicked(input, Selection(p.applied, start, may), start, end, spans, collected.value);
    if collected.value == [] {
      r := Ok([input.(batches := [], end := input.start)]);
    } else {
      r := collected;
    }
  }

  lemma RunsArePicked<T>(input: Input<T>, sel: set<nat>, lo: nat, hi: nat, spans: seq<Span>, runs: seq<Input<T>>)
    requires lo <= hi <= |Flatten(input.batches)| && SpansOf(spans, sel, lo, hi) && RunsOf(input, spans, runs)
    ensures RunRows(if runs == [] then [input.(batches := [], end := input.start)] else runs)
         == Pick(Flatten(input.batches), sel, lo, hi)
  {
    TwoExtractionsAgree(Flatten(input.batches), spans, sel, lo, hi);
    RunsLaidOut(input, spans, runs);
    var evidence := [input.(batches := [], end := input.start)];
    assert RunRows(evidence) == Flatten(evidence[0].batches) + RunRows(evidence[1..]);
  }

  ghost predicate RunsOf<T>(input: Input<T>, spans: seq<Span>, runs: seq<Input<T>>) {
    && |runs| == |spans|
    && forall i :: 0 <= i < |spans| ==>
         spans[i].lo <= spans[i].hi <= |Flatten(input.batches)| && RunOf(input, spans[i], runs[i])
  }

  method CollectRuns<T>(applied: Spans, input: Input<T>, start: nat, may: seq<bool>)
    returns (r: Result<seq<Input<T>>, StageError>, ghost spans: seq<Span>)
    requires Canonical(applied) && |Flatten(input.batches)| == applied.total && start + |may| <= applied.total
    ensures r.Ok? <==> OffsetsFit(input.start, Selection(applied, start, may))
    ensures r.Ok? ==> SpansOf(spans, Selection(applied, start, may), start, start + |may|) && RunsOf(input, spans, r.value)
  {
    ghost var sel := Selection(applied, start, may);
    var end := start + |may|;
    var runs: seq<Input<T>> := [];
    spans := [];
    var ordinal: nat := start;
    while ordinal < end
      invariant start <= ordinal <= end
      invariant SpansOf(spans, sel, start, ordinal)
      invariant ordinal == start || ordinal == end || ordinal !in sel
      invariant RunsOf(input, spans, runs)
      invariant forall o :: o in sel && o < ordinal ==> input.start + o < U64_MAX
    {
      var next := NextRun(applied, start, may, ordinal, end);
      if next.None? {
        SpansOfSkip(spans, sel, start, ordinal, end);
        ordinal := end;
      } else {
        var run := next.value;
        if input.start + run.hi > U64_MAX {
          assert run.hi - 1 in sel;
          return Err(OffsetOverflow), spans;
        }
        var pieces := Slice(input.batches, run.lo, run.hi);
        SpansOfStep(spans, sel, start, ordinal, run);
        runs := runs + [Input(input.start + run.lo, input.start + run.hi, pieces, input.watermark)];
        spans := spans + [run];
        ordinal := run.hi;
      }
    }
    r := Ok(runs);
  }

  lemma SpansOfSkip(spans: seq<Span>, sel: set<nat>, lo: nat, at: nat, to: nat)
    requires SpansOf(spans, sel, lo, at) && at <= to
    requires forall o: nat :: at <= o < to ==> o !in sel
    ensures SpansOf(spans, sel, lo, to)
  {
  }

  lemma SpansOfStep(spans: seq<Span>, sel: set<nat>, lo: nat, at: nat, run: Span)
    requires SpansOf(spans, sel, lo, at) && (at == lo || at !in sel)
    requires lo <= at <= run.lo < run.hi
    requires forall o: nat :: at <= o < run.lo ==> o !in sel
    requires forall o: nat :: run.lo <= o < run.hi ==> o in sel
    ensures SpansOf(spans + [run], sel, lo, run.hi)
  {
    CoversAppend(spans, run);
    forall i | 0 <= i < |spans| ensures spans[i].hi < run.lo {
      assert spans[i].hi <= at;
    }
  }

  ghost function RowsOf<T>(rows: seq<T>, spans: seq<Span>): seq<T>
    requires forall i :: 0 <= i < |spans| ==> spans[i].lo <= spans[i].hi <= |rows|
  {
    if spans == [] then [] else rows[spans[0].lo..spans[0].hi] + RowsOf(rows, spans[1..])
  }

  lemma FirstRun(spans: seq<Span>, sel: set<nat>, lo: nat, hi: nat)
    requires SpansOf(spans, sel, lo, hi) && spans != []
    ensures forall o: nat :: lo <= o < spans[0].lo ==> o !in sel
    ensures forall o: nat :: spans[0].lo <= o < spans[0].hi ==> o in sel
    ensures SpansOf(spans[1..], sel, spans[0].hi, hi)
  {
    var first, rest := spans[0], spans[1..];
    CoversPrepend(first, rest);
    assert [first] + rest == spans;
    assert forall o: nat :: Covers(rest, o) ==> o > first.hi;
    forall o: nat | lo <= o < hi ensures o in sel <==> Covers(rest, o) || first.lo <= o < first.hi {
      assert Covers(spans, o) <==> o in sel && lo <= o < hi;
    }
  }

  function RunRows<T>(runs: seq<Input<T>>): seq<T> {
    if runs == [] then [] else Flatten(runs[0].batches) + RunRows(runs[1..])
  }

  lemma {:induction false} RunsLaidOut<T>(input: Input<T>, spans: seq<Span>, runs: seq<Input<T>>)
    requires RunsOf(input, spans, runs)
    ensures RunRows(runs) == RowsOf(Flatten(input.batches), spans)
    decreases |runs|
  {
    if runs != [] {
      RunsLaidOut(input, spans[1..], runs[1..]);
    }
  }

  // The two extractions agree: the source runs laid end to end are the staged rows.
  lemma {:induction false} TwoExtractionsAgree<T>(rows: seq<T>, spans: seq<Span>, sel: set<nat>, lo: nat, hi: nat)
    requires lo <= hi <= |rows| && SpansOf(spans, sel, lo, hi)
    ensures RowsOf(rows, spans) == Pick(rows, sel, lo, hi)
    decreases |spans|
  {
    if spans == [] {
      forall o: nat | lo <= o < hi ensures o !in sel {
        assert !Covers(spans, o);
      }
      PickNone(rows, sel, lo, hi);
    } else {
      var first, rest := spans[0], spans[1..];
      FirstRun(spans, sel, lo, hi);
      TwoExtractionsAgree(rows, rest, sel, first.hi, hi);
      PickSplit(rows, sel, lo, first.lo, hi);
      PickSplit(rows, sel, first.lo, first.hi, hi);
      PickNone(rows, sel, lo, first.lo);
      PickAll(rows, sel, first.lo, first.hi);
    }
  }
}
