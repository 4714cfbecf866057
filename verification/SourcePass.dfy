/**
 The inspection loop of one physical-source demand unit (`materialize_source_demand` in
 crates/velorix-api/src/demand_materialization.rs).

 The course of a pass is determined before it starts: `CourseTo` says which intervals it stages
 and what it reads, `Ends` and `Breaks` where it stops.
 */
module SourcePass {
  import opened Wrappers
  import opened Spans
  import opened Batches
  import opened Staging
  import opened Coverage
  import opened Requests
  import opened SourceUnit

  // ---------------------------------------------------------------- staging steps

  datatype Inspection = Inspection(progress: Progresses, inputs: seq<Input<RowId>>, rows: nat, bytes: nat, units: nat)

  ghost predicate CapturedOk(source: Source, progress: Progresses, c: Captured) {
    && c.pub.key in source && source[c.pub.key] == c.pub.artifact && c.pub.key in progress
    && |Flatten(c.loaded.batches)| == c.pub.artifact.len && IsArtifact(c.pub.key, Flatten(c.loaded.batches))
  }

  // The loop's state after some staged intervals.
  ghost predicate Advanced(plan: Plan, source: Source, scan: Scope, start: Table, stages: seq<Stage>,
                           progress: Progresses, inputs: seq<Input<RowId>>) {
    && ProgressOk(source, progress)
    && StagesOk(plan, source, scan, start, stages)
    && Abs(progress) == ApplyStages(plan, source, scan, start, stages)
    && multiset(RunRows(inputs)) == StagedBag(plan, source, scan, start, stages)
  }

  lemma {:induction false} StageAppend(plan: Plan, source: Source, scan: Scope, table: Table, stages: seq<Stage>, s: Stage)
    requires StagesOk(plan, source, scan, table, stages)
    requires StageOk(source, ApplyStages(plan, source, scan, table, stages), s)
    ensures StagesOk(plan, source, scan, table, stages + [s])
    ensures ApplyStages(plan, source, scan, table, stages + [s])
         == ApplyStage(plan, scan, ApplyStages(plan, source, scan, table, stages), s)
    ensures StagedBag(plan, source, scan, table, stages + [s])
         == StagedBag(plan, source, scan, table, stages)
            + multiset(NewRows(plan, scan, ApplyStages(plan, source, scan, table, stages), s))
    decreases |stages|
  {
    if stages == [] {
      assert (stages + [s])[0] == s && (stages + [s])[1..] == [];
    } else {
      assert (stages + [s])[0] == stages[0] && (stages + [s])[1..] == stages[1..] + [s];
      StageAppend(plan, source, scan, ApplyStage(plan, scan, table, stages[0]), stages[1..], s);
    }
  }

  lemma {:induction false} RunRowsConcat<T>(a: seq<Input<T>>, b: seq<Input<T>>)
    ensures RunRows(a + b) == RunRows(a) + RunRows(b)
    decreases |a|
  {
    if a == [] {
      assert a + b == b;
    } else {
      assert (a + b)[1..] == a[1..] + b;
      RunRowsConcat(a[1..], b);
      assert Flatten(a[0].batches) + (RunRows(a[1..]) + RunRows(b)) == (Flatten(a[0].batches) + RunRows(a[1..])) + RunRows(b);
    }
  }

  lemma AdvanceTable(plan: Plan, scan: Scope, progress: Progresses, k: Key, lo: nat, hi: nat, staged: Progress)
    requires k in progress && AbsEntry(staged) == StageEntry(plan, scan, k, AbsEntry(progress[k]), lo, hi)
    ensures Abs(progress[k := staged]) == ApplyStage(plan, scan, Abs(progress), Stage(k, lo, hi))
    ensures NewRows(plan, scan, Abs(progress), Stage(k, lo, hi))
         == RowIds(k, Fresh(plan, scan, k, Ordinals(progress[k].applied), lo, hi))
  {
    AbsUpdate(progress, k, staged);
    assert Abs(progress)[k] == AbsEntry(progress[k]);
  }

  lemma AdvanceStep(plan: Plan, source: Source, scan: Scope, start: Table, stages: seq<Stage>,
                    progress: Progresses, inputs: seq<Input<RowId>>, k: Key, lo: nat, hi: nat,
                    staged: Progress, more: seq<Input<RowId>>)
    requires Advanced(plan, source, scan, start, stages, progress, inputs)
    requires k in progress && lo < hi <= source[k].len
    requires InspectedOne(plan, scan, k, progress[k], lo, hi, staged, more)
    ensures Advanced(plan, source, scan, start, stages + [Stage(k, lo, hi)], progress[k := staged], inputs + more)
  {
    AdvanceTable(plan, scan, progress, k, lo, hi, staged);
    StageAppend(plan, source, scan, start, stages, Stage(k, lo, hi));
    AdvanceBag(inputs, more);
    ProgressUpdate(source, progress, k, staged);
  }

  lemma ProgressUpdate(source: Source, progress: Progresses, k: Key, p: Progress)
    requires ProgressOk(source, progress) && k in source && Valid(p) && p.applied.total == source[k].len
    ensures ProgressOk(source, progress[k := p])
  {
  }

  lemma AdvanceBag(inputs: seq<Input<RowId>>, more: seq<Input<RowId>>)
    ensures multiset(RunRows(inputs + more)) == multiset(RunRows(inputs)) + multiset(RunRows(more))
  {
    RunRowsConcat(inputs, more);
  }

  ghost function Widths(stages: seq<Stage>): int {
    if stages == [] then 0 else Widths(stages[..|stages| - 1]) + (stages[|stages| - 1].hi - stages[|stages| - 1].lo)
  }

  ghost predicate LoopOk(plan: Plan, source: Source, scan: Scope, start: Table, stages: seq<Stage>, out: Inspection,
                         budget: Budget, charged: nat) {
    && Advanced(plan, source, scan, start, stages, out.progress, out.inputs)
    && out.progress.Keys == start.Keys
    && Counted(stages, out, budget, charged)
  }

  ghost predicate Counted(stages: seq<Stage>, out: Inspection, budget: Budget, charged: nat) {
    && out.units == |stages| <= budget.batchLimit
    && out.rows == Widths(stages) <= budget.maxRows
    && charged <= out.bytes <= budget.maxBytes
  }

  lemma WidthsStep(stages: seq<Stage>, s: Stage)
    ensures Widths(stages + [s]) == Widths(stages) + (s.hi - s.lo)
  {
    assert (stages + [s])[..|stages|] == stages;
  }

  // ---------------------------------------------------------------- the course of a pass

  // One pass over the artifacts of a cut: the progress it starts from, the scan, the budget of
  // which some bytes are charged already, and where it will be told to stop.
  datatype Pass = Pass(progress: Progresses, captured: seq<Captured>, scan: Scope, order: Order, causal: bool,
                       budget: Budget, charged: nat, stops: seq<bool>)

  ghost predicate Distinct(captured: seq<Captured>) {
    forall i, j :: 0 <= i < j < |captured| ==> captured[i].pub.key != captured[j].pub.key
  }

  ghost predicate Runnable(w: Pass) {
    AllValid(w.progress) && |w.stops| == |w.captured|
  }

  ghost predicate PassOk(source: Source, w: Pass) {
    && ProgressOk(source, w.progress) && Runnable(w) && w.charged <= w.budget.maxBytes && Distinct(w.captured)
    && forall i :: 0 <= i < |w.captured| ==> CapturedOk(source, w.progress, w.captured[i])
  }

  // An artifact has something left to inspect.
  ghost predicate Due(w: Pass, i: nat)
    requires i < |w.captured|
  {
    w.captured[i].pub.key in w.progress && !Full(Scan(w.progress[w.captured[i].pub.key], w.scan))
  }

  datatype Course = Course(stages: seq<Stage>, rows: nat, bytes: nat)

  // The course over the first `n` artifacts.
  ghost function CourseTo(w: Pass, n: nat): (c: Course)
    requires Runnable(w) && n <= |w.captured|
    ensures c.rows <= w.budget.maxRows
  {
    if n == 0 then Course([], 0, w.charged) else Next(w, n - 1, CourseTo(w, n - 1))
  }

  // While rows are left, each artifact that has something left to inspect is loaded once and one
  // interval of it is staged.
  ghost function Next(w: Pass, i: nat, c: Course): (next: Course)
    requires Runnable(w) && i < |w.captured| && c.rows <= w.budget.maxRows
    ensures next.rows <= w.budget.maxRows
  {
    var k := w.captured[i].pub.key;
    if c.rows == w.budget.maxRows || !Due(w, i) then c
    else Longer(c, k, Chosen(w.progress[k], w.scan, w.order, w.budget.maxRows - c.rows), w.captured[i].loaded.bytes)
  }

  ghost function Longer(c: Course, k: Key, x: Span, bytes: nat): Course
    requires x.lo <= x.hi
  {
    Course(c.stages + [Stage(k, x.lo, x.hi)], c.rows + (x.hi - x.lo), c.bytes + bytes)
  }

  // The pass loads this artifact when it comes to it.
  ghost predicate Loads(w: Pass, i: nat)
    requires Runnable(w) && i < |w.captured|
  {
    CourseTo(w, i).rows < w.budget.maxRows && Due(w, i)
  }

  // The interval it then takes.
  ghost function Taken(w: Pass, i: nat): Span
    requires Runnable(w) && i < |w.captured| && Loads(w, i)
  {
    Chosen(w.progress[w.captured[i].pub.key], w.scan, w.order, w.budget.maxRows - CourseTo(w, i).rows)
  }

  // An artifact can be read: it fits in the bytes left, and its offsets in 64 bits where they matter.
  ghost predicate Readable(plan: Plan, scan: Scope, causal: bool, c: Captured, p: Progress, x: Span, left: int) {
    Loadable(c.loaded, left) && InRange(plan, scan, causal, c.pub.key, c.pub.artifact.start, p, x)
  }

  // Why it cannot.
  ghost predicate Refuses(plan: Plan, scan: Scope, causal: bool, c: Captured, p: Progress, x: Span, left: int, error: UnitError) {
    || LoadError(c.loaded, left, error)
    || (error.Unit? && Loadable(c.loaded, left) && !InRange(plan, scan, causal, c.pub.key, c.pub.artifact.start, p, x))
  }

  // Nothing is left to do or to spend, or the pass is told to stop.
  ghost predicate Spent(w: Pass, i: nat)
    requires Runnable(w) && i <= |w.captured|
  {
    i == |w.captured| || w.stops[i] || |CourseTo(w, i).stages| >= w.budget.batchLimit || CourseTo(w, i).bytes >= w.budget.maxBytes
  }

  ghost predicate GoesOn(plan: Plan, w: Pass, i: nat)
    requires Runnable(w) && i < |w.captured|
  {
    && !Spent(w, i)
    && (Loads(w, i) ==>
          Readable(plan, w.scan, w.causal, w.captured[i], w.progress[w.captured[i].pub.key], Taken(w, i),
                   w.budget.maxBytes - CourseTo(w, i).bytes))
  }

  ghost predicate Reaches(plan: Plan, w: Pass, n: nat)
    requires Runnable(w) && n <= |w.captured|
  {
    forall i :: 0 <= i < n ==> GoesOn(plan, w, i)
  }

  // The pass ends with exactly the first `n` artifacts behind it.
  ghost predicate Ends(plan: Plan, w: Pass, n: nat) {
    Runnable(w) && n <= |w.captured| && Reaches(plan, w, n) && Spent(w, n)
  }

  // The pass fails at the `n`th artifact.
  ghost predicate Breaks(plan: Plan, w: Pass, n: nat, error: UnitError) {
    && Runnable(w) && n < |w.captured| && Reaches(plan, w, n) && !Spent(w, n) && Loads(w, n)
    && Refuses(plan, w.scan, w.causal, w.captured[n], w.progress[w.captured[n].pub.key], Taken(w, n),
               w.budget.maxBytes - CourseTo(w, n).bytes, error)
  }

  // A pass ends in one place or fails in one place.
  lemma PassIsDetermined(plan: Plan, w: Pass, n: nat, m: nat, error: UnitError)
    requires Ends(plan, w, n)
    ensures Ends(plan, w, m) ==> n == m
    ensures !Breaks(plan, w, m, error)
  {
    if m < n {
      GoesOnBefore(plan, w, m, n);
    } else if n < m && (Ends(plan, w, m) || Breaks(plan, w, m, error)) {
      GoesOnBefore(plan, w, n, m);
    }
  }

  lemma GoesOnBefore(plan: Plan, w: Pass, i: nat, n: nat)
    requires Runnable(w) && i < n <= |w.captured| && Reaches(plan, w, n)
    ensures GoesOn(plan, w, i)
  {
  }

  lemma BreakIsDetermined(plan: Plan, w: Pass, n: nat, m: nat, e: UnitError, f: UnitError)
    requires Breaks(plan, w, n, e) && Breaks(plan, w, m, f)
    ensures n == m
  {
    if m < n {
      GoesOnBefore(plan, w, m, n);
    } else if n < m {
      GoesOnBefore(plan, w, n, m);
    }
  }

  // ---------------------------------------------------------------- where a pass has come to

  ghost predicate HasStage(stages: seq<Stage>, k: Key) {
    exists j :: 0 <= j < |stages| && stages[j].key == k
  }

  // No artifact changed its identity, and exactly the artifacts loaded got their watermarks.
  ghost predicate Marked(progress: Progresses, stages: seq<Stage>, current: Progresses) {
    && current.Keys == progress.Keys && SameIdentity(progress, current)
    && forall k :: k in progress ==> (Unstamped(current, k) <==> Unstamped(progress, k) && !HasStage(stages, k))
  }

  ghost predicate SameIdentity(a: Progresses, b: Progresses) {
    forall k :: k in a ==> k in b && b[k].hash == a[k].hash && b[k].applied.total == a[k].applied.total
  }

  ghost predicate AllIn(captured: seq<Captured>, progress: Progresses) {
    forall i :: 0 <= i < |captured| ==> captured[i].pub.key in progress
  }

  // The rows of the cut that a scan has not inspected.
  ghost function RowsLeft(captured: seq<Captured>, scan: Scope, progress: Progresses): int
    requires AllIn(captured, progress)
  {
    Uninspected(progress, KeysOf(captured), |captured|, scan)
  }

  // What a pass has done by some point of its course: the staging steps up to there, no more and
  // no less, with each row staged one row less to inspect.
  ghost predicate Ran(plan: Plan, source: Source, w: Pass, c: Course, out: Inspection) {
    && LoopOk(plan, source, w.scan, Abs(w.progress), c.stages, out, w.budget, w.charged)
    && Noted(w, c, out)
  }

  ghost predicate Noted(w: Pass, c: Course, out: Inspection) {
    out.rows == c.rows && out.bytes == c.bytes && Marked(w.progress, c.stages, out.progress) && Fewer(w, out)
  }

  ghost predicate Fewer(w: Pass, out: Inspection) {
    && AllIn(w.captured, w.progress) && AllIn(w.captured, out.progress)
    && RowsLeft(w.captured, w.scan, out.progress) == RowsLeft(w.captured, w.scan, w.progress) - out.rows
  }

  // Progress the pass has not come to is as it was.
  ghost predicate Untouched(w: Pass, n: nat, current: Progresses) {
    forall i :: n <= i < |w.captured| && w.captured[i].pub.key in w.progress ==>
      w.captured[i].pub.key in current && current[w.captured[i].pub.key] == w.progress[w.captured[i].pub.key]
  }

  // ---------------------------------------------------------------- one turn

  // One inspected interval: the progress it leads to and the rows to feed.
  datatype Piece = Piece(interval: Span, staged: Progress, inputs: seq<Input<RowId>>)

  // Chooses an interval of an artifact, loads the artifact within the bytes left, and inspects it.
  method InspectArtifact(plan: Plan, scan: Scope, order: Order, causal: bool, frontier: nat, c: Captured, p: Progress,
                         rows: nat, left: nat)
    returns (r: Result<Option<Piece>, UnitError>)
    requires Valid(p) && p.applied.total == c.pub.artifact.len == |Flatten(c.loaded.batches)|
    requires IsArtifact(c.pub.key, Flatten(c.loaded.batches))
    ensures r == Ok(None) <==> rows == 0 || Full(Scan(p, scan))
    ensures r.Ok? && r.value.Some? ==>
      && r.value.value.interval == Chosen(p, scan, order, rows) && IsPiece(plan, scan, c, p, r.value.value)
      && Readable(plan, scan, causal, c, p, Chosen(p, scan, order, rows), left)
    ensures r.Err? ==> Refuses(plan, scan, causal, c, p, Chosen(p, scan, order, rows), left, r.error)
  {
    var interval := NextInspection(p, scan, order, rows);
    if interval.None? {
      return Ok(None);
    }
    ChosenIsChoice(p, scan, order, rows);
    ExtremeIsUnique(Scan(p, scan), order, rows, interval.value, Chosen(p, scan, order, rows));
    var failed := Load(c.loaded, left);
    if failed.Some? {
      return Err(failed.value);
    }
    var one :=
      InspectOne(plan, scan, c.pub.key, c.pub.artifact.len, p, c.loaded, interval.value, causal, frontier, c.pub.artifact.start);
    r := if one.Err? then Err(one.error) else Ok(Some(Piece(interval.value, one.value.0, one.value.1)));
  }

  ghost predicate IsPiece(plan: Plan, scan: Scope, c: Captured, p: Progress, x: Piece) {
    && FreshInterval(p, scan, x.interval)
    && InspectedOne(plan, scan, c.pub.key, p, x.interval.lo, x.interval.hi, x.staged, x.inputs)
  }

  function Charge(out: Inspection, k: Key, x: Piece, bytes: nat): Inspection
    requires x.interval.lo <= x.interval.hi
  {
    Inspection(out.progress[k := x.staged], out.inputs + x.inputs, out.rows + (x.interval.hi - x.interval.lo),
               out.bytes + bytes, out.units + 1)
  }

  // The loop has come to an artifact: its progress is as it was, and the course up to here is run.
  ghost predicate TurnOf(source: Source, w: Pass, i: nat, c: Course, out: Inspection) {
    && Runnable(w) && i < |w.captured| && c == CourseTo(w, i) && !Spent(w, i) && CapturedOk(source, out.progress, w.captured[i])
    && w.captured[i].pub.key in w.progress && out.progress[w.captured[i].pub.key] == w.progress[w.captured[i].pub.key]
    && Valid(out.progress[w.captured[i].pub.key]) && out.progress[w.captured[i].pub.key].applied.total == w.captured[i].pub.artifact.len
    && out.rows == c.rows <= w.budget.maxRows && out.bytes == c.bytes <= w.budget.maxBytes
  }

  // One turn of the loop: the piece it adds, if any.
  method InspectTurn(plan: Plan, ghost source: Source, frontier: map<Partition, nat>, w: Pass, i: nat, ghost j: nat, out: Inspection,
                     ghost course: Course)
    returns (r: Result<Option<Piece>, UnitError>)
    requires TurnOf(source, w, i, course, out) && Reaches(plan, w, i) && j == i + 1
    ensures r.Ok? ==> Reaches(plan, w, j) && CourseTo(w, j) == Next(w, i, course)
    ensures r == Ok(None) ==> Next(w, i, course) == course
    ensures r.Ok? && r.value.Some? ==> Fits(plan, w, i, out, r.value.value) && Next(w, i, course) == With(w, i, course, r.value.value)
    ensures r.Err? ==> Breaks(plan, w, i, r.error)
  {
    var c := w.captured[i];
    var rows: nat, left: nat := w.budget.maxRows - out.rows, w.budget.maxBytes - out.bytes;
    r := InspectArtifact(plan, w.scan, w.order, w.causal, At(frontier, c.pub.artifact.part), c, out.progress[c.pub.key], rows, left);
    if r.Err? {
      BreaksHere(plan, w, i, course, rows, left, r.error);
    } else {
      ReachesStep(plan, w, i, j, course, rows, left);
      CourseStep(w, i, j);
      NextIs(w, i, course, rows);
    }
  }

  lemma NextIs(w: Pass, i: nat, c: Course, rows: nat)
    requires Runnable(w) && i < |w.captured| && c.rows <= w.budget.maxRows && rows == w.budget.maxRows - c.rows
    ensures rows == 0 || !Due(w, i) ==> Next(w, i, c) == c
    ensures rows > 0 && Due(w, i) ==>
      var k := w.captured[i].pub.key;
      Next(w, i, c) == Longer(c, k, Chosen(w.progress[k], w.scan, w.order, rows), w.captured[i].loaded.bytes)
  {
  }

  // A piece of an artifact that the budget allows.
  ghost predicate Fits(plan: Plan, w: Pass, i: nat, out: Inspection, x: Piece)
    requires i < |w.captured|
  {
    && w.captured[i].pub.key in out.progress && IsPiece(plan, w.scan, w.captured[i], out.progress[w.captured[i].pub.key], x)
    && out.rows + (x.interval.hi - x.interval.lo) <= w.budget.maxRows && out.bytes + w.captured[i].loaded.bytes <= w.budget.maxBytes
  }

  ghost function With(w: Pass, i: nat, c: Course, x: Piece): Course
    requires i < |w.captured| && x.interval.lo <= x.interval.hi
  {
    Longer(c, w.captured[i].pub.key, x.interval, w.captured[i].loaded.bytes)
  }

  lemma ComeTo(plan: Plan, source: Source, w: Pass, i: nat, c: Course, out: Inspection)
    requires PassOk(source, w) && i < |w.captured| && c == CourseTo(w, i) && !Spent(w, i)
    requires Ran(plan, source, w, c, out) && Untouched(w, i, out.progress)
    ensures TurnOf(source, w, i, c, out) && out.units == |c.stages|
  {
    assert CapturedOk(source, w.progress, w.captured[i]);
  }

  // What the turn at an artifact depends on, when so many rows and bytes are left.
  ghost predicate LeftAt(w: Pass, i: nat, c: Course, rows: nat, left: nat) {
    && Runnable(w) && i < |w.captured| && c == CourseTo(w, i)
    && rows == w.budget.maxRows - c.rows && left == w.budget.maxBytes - c.bytes
  }

  lemma BreaksHere(plan: Plan, w: Pass, i: nat, c: Course, rows: nat, left: nat, error: UnitError)
    requires LeftAt(w, i, c, rows, left) && Reaches(plan, w, i) && !Spent(w, i) && rows > 0 && Due(w, i)
    requires var p := w.progress[w.captured[i].pub.key];
             Refuses(plan, w.scan, w.causal, w.captured[i], p, Chosen(p, w.scan, w.order, rows), left, error)
    ensures Breaks(plan, w, i, error)
  {
  }

  lemma ReachesStep(plan: Plan, w: Pass, i: nat, j: nat, c: Course, rows: nat, left: nat)
    requires LeftAt(w, i, c, rows, left) && j == i + 1 && Reaches(plan, w, i) && !Spent(w, i)
    requires rows > 0 && Due(w, i) ==>
      var p := w.progress[w.captured[i].pub.key];
      Readable(plan, w.scan, w.causal, w.captured[i], p, Chosen(p, w.scan, w.order, rows), left)
    ensures Reaches(plan, w, j)
  {
  }

  lemma CourseStep(w: Pass, i: nat, j: nat)
    requires Runnable(w) && i < |w.captured| && j == i + 1
    ensures CourseTo(w, j) == Next(w, i, CourseTo(w, i))
  {
  }

  lemma UntouchedStep(w: Pass, i: nat, j: nat, current: Progresses, staged: Progress)
    requires Distinct(w.captured) && i < |w.captured| && j == i + 1 && Untouched(w, i, current)
    ensures Untouched(w, j, current) && Untouched(w, j, current[w.captured[i].pub.key := staged])
  {
  }

  lemma RanStep(plan: Plan, source: Source, w: Pass, i: nat, c: Course, out: Inspection, x: Piece)
    requires Distinct(w.captured) && Ran(plan, source, w, c, out) && TurnOf(source, w, i, c, out) && Fits(plan, w, i, out, x)
    ensures Ran(plan, source, w, With(w, i, c, x), Charge(out, w.captured[i].pub.key, x, w.captured[i].loaded.bytes))
  {
    LoopStep(plan, source, w, Abs(w.progress), c.stages, i, out, x);
    NotedStep(plan, w, i, c, out, x);
  }

  lemma LoopStep(plan: Plan, source: Source, w: Pass, start: Table, stages: seq<Stage>, i: nat, out: Inspection, x: Piece)
    requires i < |w.captured| && LoopOk(plan, source, w.scan, start, stages, out, w.budget, w.charged)
    requires out.units < w.budget.batchLimit && CapturedOk(source, out.progress, w.captured[i]) && Fits(plan, w, i, out, x)
    ensures var k, bytes := w.captured[i].pub.key, w.captured[i].loaded.bytes;
            LoopOk(plan, source, w.scan, start, stages + [Stage(k, x.interval.lo, x.interval.hi)], Charge(out, k, x, bytes),
                   w.budget, w.charged)
  {
    var k, lo, hi := w.captured[i].pub.key, x.interval.lo, x.interval.hi;
    AdvanceStep(plan, source, w.scan, start, stages, out.progress, out.inputs, k, lo, hi, x.staged, x.inputs);
    CountedStep(stages, out, w.budget, w.charged, k, x, w.captured[i].loaded.bytes);
  }

  lemma CountedStep(stages: seq<Stage>, out: Inspection, budget: Budget, charged: nat, k: Key, x: Piece, bytes: nat)
    requires Counted(stages, out, budget, charged) && out.units < budget.batchLimit && x.interval.lo <= x.interval.hi
    requires out.rows + (x.interval.hi - x.interval.lo) <= budget.maxRows && out.bytes + bytes <= budget.maxBytes
    ensures Counted(stages + [Stage(k, x.interval.lo, x.interval.hi)], Charge(out, k, x, bytes), budget, charged)
  {
    WidthsStep(stages, Stage(k, x.interval.lo, x.interval.hi));
  }

  lemma NotedStep(plan: Plan, w: Pass, i: nat, c: Course, out: Inspection, x: Piece)
    requires Distinct(w.captured) && i < |w.captured| && Noted(w, c, out) && Valid(out.progress[w.captured[i].pub.key])
    requires IsPiece(plan, w.scan, w.captured[i], out.progress[w.captured[i].pub.key], x)
    ensures Noted(w, With(w, i, c, x), Charge(out, w.captured[i].pub.key, x, w.captured[i].loaded.bytes))
  {
    MarkedStep(w.progress, c.stages, out.progress, Stage(w.captured[i].pub.key, x.interval.lo, x.interval.hi), x.staged);
    LeftStep(plan, w.captured, i, w.scan, out.progress, x);
  }

  lemma MarkedStep(progress: Progresses, stages: seq<Stage>, current: Progresses, s: Stage, staged: Progress)
    requires Marked(progress, stages, current) && s.key in progress && staged.watermark.Some?
    requires staged.hash == current[s.key].hash && staged.applied.total == current[s.key].applied.total
    ensures Marked(progress, stages + [s], current[s.key := staged])
  {
    forall k ensures HasStage(stages + [s], k) <==> HasStage(stages, k) || k == s.key {
      if HasStage(stages, k) {
        var j :| 0 <= j < |stages| && stages[j].key == k;
        assert (stages + [s])[j].key == k;
      }
      assert (stages + [s])[|stages|] == s;
    }
  }

  // Staging an interval leaves as many rows fewer as it is wide.
  lemma LeftStep(plan: Plan, captured: seq<Captured>, i: nat, scan: Scope, current: Progresses, x: Piece)
    requires Distinct(captured) && i < |captured| && AllIn(captured, current) && Valid(current[captured[i].pub.key])
    requires IsPiece(plan, scan, captured[i], current[captured[i].pub.key], x)
    ensures AllIn(captured, current[captured[i].pub.key := x.staged])
    ensures RowsLeft(captured, scan, current[captured[i].pub.key := x.staged])
         == RowsLeft(captured, scan, current) - (x.interval.hi - x.interval.lo)
  {
    ScanGrows(plan, scan, captured[i].pub.key, current[captured[i].pub.key], x);
    UninspectedUpdate(current, captured, i, |captured|, scan, x.staged);
  }

  lemma ScanGrows(plan: Plan, scan: Scope, k: Key, p: Progress, x: Piece)
    requires Valid(p) && FreshInterval(p, scan, x.interval)
    requires InspectedOne(plan, scan, k, p, x.interval.lo, x.interval.hi, x.staged, x.inputs)
    ensures |Ordinals(Scan(x.staged, scan))| == |Ordinals(Scan(p, scan))| + (x.interval.hi - x.interval.lo)
  {
    SeenIsScan(p, scan);
    SeenIsScan(x.staged, scan);
    IntervalSize(x.interval.lo, x.interval.hi);
    assert Interval(x.interval.lo, x.interval.hi) * Ordinals(Scan(p, scan)) == {};
  }

  lemma {:induction false} UninspectedUpdate(current: Progresses, captured: seq<Captured>, i: nat, n: nat, scan: Scope, staged: Progress)
    requires Distinct(captured) && i < |captured| && n <= |captured| && AllIn(captured, current)
    requires staged.applied.total == current[captured[i].pub.key].applied.total
    ensures var k := captured[i].pub.key;
            Uninspected(current[k := staged], KeysOf(captured), n, scan)
            == Uninspected(current, KeysOf(captured), n, scan)
               - (if i < n then |Ordinals(Scan(staged, scan))| - |Ordinals(Scan(current[k], scan))| else 0)
    decreases n
  {
    if n > 0 {
      UninspectedUpdate(current, captured, i, n - 1, scan, staged);
    }
  }

  // ---------------------------------------------------------------- the loop

  // The budgeted loop over the artifacts of the cut. It runs its course to where that ends, or
  // fails where that breaks.
  method InspectArtifacts(plan: Plan, ghost source: Source, frontier: map<Partition, nat>, w: Pass)
    returns (r: Result<Inspection, UnitError>, ghost n: nat)
    requires PassOk(source, w)
    ensures r.Ok? ==> Ends(plan, w, n) && Ran(plan, source, w, CourseTo(w, n), r.value)
    ensures r.Ok? ==>
      r.value.units <= w.budget.batchLimit && r.value.rows <= w.budget.maxRows && r.value.bytes <= w.budget.maxBytes
    ensures r.Err? ==> Breaks(plan, w, n, r.error)
  {
    var out, i := Inspection(w.progress, [], 0, w.charged, 0), 0;
    ghost var course := CourseTo(w, 0);
    LoopStart(plan, source, w);
    while i < |w.captured|
      invariant 0 <= i <= |w.captured| && course == CourseTo(w, i) && Reaches(plan, w, i)
      invariant Ran(plan, source, w, course, out)
      invariant Untouched(w, i, out.progress)
    {
      if w.stops[i] || out.units >= w.budget.batchLimit || out.bytes >= w.budget.maxBytes {
        return Ok(out), i;
      }
      var next, k := i + 1, w.captured[i].pub.key;
      ComeTo(plan, source, w, i, course, out);
      var piece := InspectTurn(plan, source, frontier, w, i, next, out, course);
      if piece.Err? {
        return Err(piece.error), i;
      }
      if piece.value.Some? {
        var x := piece.value.value;
        RanStep(plan, source, w, i, course, out, x);
        UntouchedStep(w, i, next, out.progress, x.staged);
        out := Charge(out, k, x, w.captured[i].loaded.bytes);
      }
      course, i := CourseTo(w, next), next;
    }
    return Ok(out), i;
  }

  lemma LoopStart(plan: Plan, source: Source, w: Pass)
    requires PassOk(source, w)
    ensures Ran(plan, source, w, Course([], 0, w.charged), Inspection(w.progress, [], 0, w.charged, 0))
  {
  }
}
