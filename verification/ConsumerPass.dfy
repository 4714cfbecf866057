/**
 The course of a consumer view's replay (`materialize_published_demand` in
 crates/velorix-api/src/demand_materialization_published.rs).

 It is determined before it starts: `CourseTo` says what the loop has taken and read when so many
 artifacts are behind it, `Ends` and `Breaks` where it stops, and `Kept` what is then committed.
 */
module ConsumerPass {
  import opened Wrappers
  import opened Batches
  import opened Staging
  import opened Deltas
  import opened Requests
  import opened Replay

  // Pages of one baseline share a commit.
  datatype Group = Group(edge: nat, epoch: nat)

  function GroupOf(a: Artifact): Option<Group> {
    if a.payload.Page? then Some(Group(a.id.edge, a.id.epoch)) else None
  }

  // What the environment does at a turn: whether the loop must yield, and the fate of commits.
  datatype Turnout = Turnout(busy: bool, flush: Fault, commit: Fault)

  // ---------------------------------------------------------------- the artifacts in order

  // How many artifacts the first edges have.
  ghost function Offset(inv: Inventory, e: nat): nat
    requires e <= |inv|
  {
    |Flatten(inv[..e])|
  }

  lemma OffsetNext(inv: Inventory, e: nat)
    requires e < |inv|
    ensures Offset(inv, e + 1) == Offset(inv, e) + |inv[e]|
  {
    assert inv[..e + 1] == inv[..e] + [inv[e]];
    FlattenAppend(inv[..e], inv[e]);
  }

  lemma {:induction false} OffsetGrows(inv: Inventory, e: nat, f: nat)
    requires e < f <= |inv|
    ensures Offset(inv, e) + |inv[e]| <= Offset(inv, f)
    decreases f
  {
    OffsetNext(inv, f - 1);
    if e < f - 1 {
      OffsetGrows(inv, e, f - 1);
    }
  }

  // The `n`th artifact of all is the `j`th of edge `e`.
  ghost predicate IsPlace(inv: Inventory, n: nat, e: nat, j: nat) {
    e < |inv| && j < |inv[e]| && n == Offset(inv, e) + j
  }

  lemma FlatAt(inv: Inventory, e: nat, j: nat)
    requires e < |inv| && j < |inv[e]|
    ensures Offset(inv, e) + j < |Flatten(inv)| && Flatten(inv)[Offset(inv, e) + j] == inv[e][j]
  {
    assert inv == inv[..e] + inv[e..];
    FlattenConcat(inv[..e], inv[e..]);
    assert Flatten(inv[e..]) == inv[e] + Flatten(inv[e..][1..]);
  }

  lemma {:induction false} PlaceOf(inv: Inventory, n: nat) returns (e: nat, j: nat)
    requires n < |Flatten(inv)|
    ensures IsPlace(inv, n, e, j) && Flatten(inv)[n] == inv[e][j]
    decreases |inv|
  {
    if n < |inv[0]| {
      e, j := 0, n;
      assert inv[..0] == [];
    } else {
      e, j := PlaceOf(inv[1..], n - |inv[0]|);
      assert inv[..e + 1][1..] == inv[1..][..e];
      e := e + 1;
    }
    FlatAt(inv, e, j);
  }

  // Whose turn it is, said of the list and of the edges.
  lemma TurnAt(d: Durable, inv: Inventory, n: nat, e: nat, j: nat)
    requires n < |Flatten(inv)| && IsPlace(inv, n, e, j) && !Done(d, inv[e][j])
    requires forall i :: 0 <= i < n ==> Done(d, Flatten(inv)[i])
    ensures AtTurn(d, inv, e, j)
  {
    forall i | 0 <= i < j ensures Done(d, inv[e][i]) {
      FlatAt(inv, e, i);
      assert Done(d, Flatten(inv)[Offset(inv, e) + i]);
    }
    forall f, i | 0 <= f < e && 0 <= i < |inv[f]| ensures Done(d, inv[f][i]) {
      FlatAt(inv, f, i);
      OffsetGrows(inv, f, e);
      assert Done(d, Flatten(inv)[Offset(inv, f) + i]);
    }
  }

  lemma AllDoneFlat(d: Durable, inv: Inventory)
    ensures AllDone(d, inv) <==> forall i :: 0 <= i < |Flatten(inv)| ==> Done(d, Flatten(inv)[i])
  {
    if AllDone(d, inv) {
      forall i | 0 <= i < |Flatten(inv)| ensures Done(d, Flatten(inv)[i]) {
        var e, j := PlaceOf(inv, i);
      }
    } else {
      var e, j :| 0 <= e < |inv| && 0 <= j < |inv[e]| && !Done(d, inv[e][j]);
      FlatAt(inv, e, j);
    }
  }

  ghost predicate DistinctIds(list: seq<Artifact>) {
    forall i, k :: 0 <= i < k < |list| ==> list[i].id != list[k].id
  }

  lemma InventoryIds(inv: Inventory)
    requires InventoryOk(inv)
    ensures DistinctIds(Flatten(inv))
  {
    var list := Flatten(inv);
    forall i, k | 0 <= i < k < |list| ensures list[i].id != list[k].id {
      var e, j := PlaceOf(inv, i);
      var f, l := PlaceOf(inv, k);
      assert ListOk(e, inv[e]) && ListOk(f, inv[f]);
    }
  }

  // ---------------------------------------------------------------- the course of a pass

  // One pass over the artifacts in order, from a committed checkpoint, with some bytes spent already.
  datatype Pass = Pass(d: Durable, list: seq<Artifact>, budget: Budget, spent: nat, env: nat -> Turnout)

  // What is taken and read, and the baseline whose pages wait for their commit.
  datatype Course = Course(units: nat, rows: nat, bytes: nat, waiting: Option<Group>)

  // The rows of an artifact that are not folded yet.
  function Rest(d: Durable, a: Artifact): nat {
    if Count(d, a) <= |Rows(a)| then |Rows(a)| - Count(d, a) else 0
  }

  // The course when the first `n` artifacts are behind it.
  ghost function CourseTo(w: Pass, n: nat): Course
    requires n <= |w.list|
  {
    if n == 0 then Course(0, 0, w.spent, None) else Next(w, n - 1, CourseTo(w, n - 1))
  }

  // Every artifact that is not done is loaded once and taken whole. A page waits with those of its
  // baseline; anything else is committed at once, and so are pages before it.
  ghost function Next(w: Pass, i: nat, c: Course): Course
    requires i < |w.list|
  {
    if Done(w.d, w.list[i]) then c.(waiting := Waits(w.list[i], c))
    else Course(c.units + 1, c.rows + Rest(w.d, w.list[i]), c.bytes + w.list[i].bytes, GroupOf(w.list[i]))
  }

  // The pages that still wait at an artifact: those of its own baseline.
  function Waits(a: Artifact, c: Course): Option<Group> {
    if GroupOf(a) == c.waiting then c.waiting else None
  }

  // Waiting pages are committed at this artifact, and that fails.
  ghost predicate Lost(w: Pass, i: nat, c: Course)
    requires i < |w.list|
  {
    c.waiting.Some? && GroupOf(w.list[i]) != c.waiting && w.env(i).flush != NoFault
  }

  // The loop may not go on: it must yield, or a budget is used up.
  ghost predicate Halts(w: Pass, i: nat, c: Course) {
    w.env(i).busy || c.units >= w.budget.batchLimit || c.rows >= w.budget.maxRows
  }

  ghost predicate Fits(w: Pass, a: Artifact, c: Course) {
    c.bytes + a.bytes <= w.budget.maxBytes
  }

  // The rows left allow the whole of what is not folded yet; a signed commit is never split.
  ghost predicate Whole(w: Pass, a: Artifact, c: Course) {
    c.rows + (if a.payload.Commit? then |Rows(a)| else Rest(w.d, a)) <= w.budget.maxRows
  }

  // The artifact is passed: it is done already, or it is taken whole and what must be committed is.
  ghost predicate Goes(w: Pass, i: nat, c: Course)
    requires i < |w.list|
  {
    var a := w.list[i];
    && !Lost(w, i, c)
    && (!Done(w.d, a) ==>
          !Halts(w, i, c) && Fits(w, a, c) && a.sound && Whole(w, a, c) && (!a.payload.Page? ==> w.env(i).commit == NoFault))
  }

  // The loop stops at the artifact: before loading it, after finding that a signed commit does not
  // fit the rows left, or having taken as much of a page as they allow.
  ghost predicate Stops(w: Pass, i: nat, c: Course, o: Course)
    requires i < |w.list|
  {
    var a := w.list[i];
    && !Lost(w, i, c) && !Done(w.d, a)
    && (if Halts(w, i, c) || (!Fits(w, a, c) && Waits(a, c).Some?) then o == c.(waiting := Waits(a, c))
        else
          && Fits(w, a, c) && a.sound && !Whole(w, a, c)
          && (if a.payload.Page? then o == Course(c.units + 1, w.budget.maxRows, c.bytes + a.bytes, GroupOf(a))
              else |Rows(a)| <= w.budget.maxRows && o == Course(c.units, c.rows, c.bytes + a.bytes, None)))
  }

  // The loop fails at the artifact: a commit, the room for it, or the artifact itself.
  ghost predicate Fails(w: Pass, i: nat, c: Course, error: Error)
    requires i < |w.list|
  {
    var a := w.list[i];
    if Lost(w, i, c) then error == CommitFailed
    else
      && !Done(w.d, a) && !Halts(w, i, c)
      && (if !Fits(w, a, c) then
            Waits(a, c).None? && c.bytes <= w.budget.maxBytes && error == BudgetRequired(a.bytes, w.budget.maxBytes - c.bytes)
          else if !a.sound then error == Corrupt
          else if a.payload.Commit? && |Rows(a)| > w.budget.maxRows then error == BudgetRequired(|Rows(a)|, w.budget.maxRows)
          else Whole(w, a, c) && !a.payload.Page? && w.env(i).commit != NoFault && error == CommitFailed)
  }

  ghost predicate GoesOn(w: Pass, i: nat)
    requires i < |w.list|
  {
    Goes(w, i, CourseTo(w, i))
  }

  ghost predicate Reaches(w: Pass, n: nat)
    requires n <= |w.list|
  {
    forall i :: 0 <= i < n ==> GoesOn(w, i)
  }

  // The pass ends with the first `n` artifacts behind it, all of them or where it stops.
  ghost predicate Ends(w: Pass, n: nat, o: Course) {
    && n <= |w.list| && Reaches(w, n)
    && (if n == |w.list| then o == CourseTo(w, n) else Stops(w, n, CourseTo(w, n), o))
  }

  ghost predicate Breaks(w: Pass, n: nat, error: Error) {
    n < |w.list| && Reaches(w, n) && Fails(w, n, CourseTo(w, n), error)
  }

  lemma GoesOnBefore(w: Pass, i: nat, n: nat)
    requires i < n <= |w.list| && Reaches(w, n)
    ensures GoesOn(w, i)
  {
  }

  // A pass ends in one place with one result, or fails in one place.
  lemma PassIsDetermined(w: Pass, n: nat, o: Course, m: nat, p: Course, error: Error)
    requires Ends(w, n, o)
    ensures Ends(w, m, p) ==> n == m && o == p
    ensures !Breaks(w, m, error)
  {
    if m < n {
      GoesOnBefore(w, m, n);
    } else if n < m && (Ends(w, m, p) || Breaks(w, m, error)) {
      GoesOnBefore(w, n, m);
    }
  }

  lemma BreakIsDetermined(w: Pass, n: nat, e: Error, m: nat, f: Error)
    requires Breaks(w, n, e) && Breaks(w, m, f)
    ensures n == m && e == f
  {
    if m < n {
      GoesOnBefore(w, m, n);
    } else if n < m {
      GoesOnBefore(w, n, m);
    }
  }

  // ---------------------------------------------------------------- what is committed

  // An artifact that is behind the loop is done, unless it waits with its baseline and stands as
  // it did.
  ghost predicate KeptAt(w: Pass, i: nat, waiting: Option<Group>, d: Durable)
    requires i < |w.list|
  {
    Done(d, w.list[i]) || (waiting.Some? && GroupOf(w.list[i]) == waiting && SameStanding(w.d, d, w.list[i]))
  }

  // A checkpoint with the first `n` artifacts done but for those waiting, and all others standing
  // as they did.
  ghost predicate Kept(w: Pass, n: nat, waiting: Option<Group>, d: Durable)
    requires n <= |w.list|
  {
    && d.frontier == w.d.frontier && d.certs == w.d.certs
    && (forall i :: 0 <= i < n ==> KeptAt(w, i, waiting, d))
    && (forall i :: n <= i < |w.list| ==> SameStanding(w.d, d, w.list[i]))
  }

  // A checkpoint where the pass ended: the first `n` artifacts are done, the next one may be partly
  // taken, and all others stand as they did.
  ghost predicate Stood(w: Pass, n: nat, c: Course, o: Course, d: Durable)
    requires n <= |w.list|
  {
    && d.frontier == w.d.frontier && d.certs == w.d.certs
    && (forall i :: 0 <= i < n ==> Done(d, w.list[i]))
    && (forall i :: n < i < |w.list| ==> SameStanding(w.d, d, w.list[i]))
    && (n < |w.list| ==> StoodAt(w, n, c, o, d))
  }

  ghost predicate StoodAt(w: Pass, n: nat, c: Course, o: Course, d: Durable)
    requires n < |w.list|
  {
    if o.units == c.units then SameStanding(w.d, d, w.list[n])
    else Partial(d, w.list[n]) && Count(d, w.list[n]) == Count(w.d, w.list[n]) + (o.rows - c.rows)
  }

  // What is committed when the pass failed at an artifact.
  ghost predicate Remains(w: Pass, n: nat, c: Course, error: Error, d: Durable)
    requires n < |w.list|
  {
    if Lost(w, n, c) then Unanswered(w.env(n).flush, Kept(w, n, c.waiting, d), Kept(w, n, None, d))
    else if error == CommitFailed then Unanswered(w.env(n).commit, Kept(w, n, None, d), Kept(w, n + 1, None, d))
    else Kept(w, n, Waits(w.list[n], c), d)
  }

  lemma SameStandingTrans(a: Durable, b: Durable, c: Durable, x: Artifact)
    requires SameStanding(a, b, x) && SameStanding(b, c, x)
    ensures SameStanding(a, c, x)
  {
  }

  // Where nothing waits, passing an artifact that is done changes nothing.
  lemma KeptPast(w: Pass, n: nat, j: nat, waiting: Option<Group>, waits: Option<Group>, d: Durable)
    requires n < |w.list| && j == n + 1 && Kept(w, n, waiting, d) && (waiting.None? || waiting == waits)
    requires Done(d, w.list[n]) || (waits.Some? && GroupOf(w.list[n]) == waits)
    ensures Kept(w, j, waits, d)
  {
    forall i | 0 <= i < j ensures KeptAt(w, i, waits, d) {
      assert i < n ==> KeptAt(w, i, waiting, d);
    }
  }

  // Taking rows of an artifact leaves all others as they stand.
  lemma TookOthers(w: Pass, n: nat, d: Durable, next: Progress, rows: seq<Row>)
    requires DistinctIds(w.list) && n < |w.list| && Kept(w, n, None, d)
    ensures var d' := Took(d, w.list[n], next, rows);
            && d'.frontier == w.d.frontier && d'.certs == w.d.certs
            && (forall i :: 0 <= i < n ==> Done(d', w.list[i]))
            && (forall i :: n < i < |w.list| ==> SameStanding(w.d, d', w.list[i]))
  {
    var d' := Took(d, w.list[n], next, rows);
    forall i | 0 <= i < |w.list| && i != n ensures SameStanding(d, d', w.list[i]) {
      OthersSame(d, w.list[n], next, rows, w.list[i]);
    }
    forall i | 0 <= i < n ensures Done(d', w.list[i]) {
      assert KeptAt(w, i, None, d) && SameStanding(d, d', w.list[i]);
    }
    forall i | n < i < |w.list| ensures SameStanding(w.d, d', w.list[i]) {
      SameStandingTrans(w.d, d, d', w.list[i]);
    }
  }

  lemma CourseStep(w: Pass, n: nat, j: nat)
    requires n < |w.list| && j == n + 1
    ensures CourseTo(w, j) == Next(w, n, CourseTo(w, n))
  {
  }

  lemma ReachesStep(w: Pass, n: nat, j: nat, c: Course)
    requires n < |w.list| && j == n + 1 && c == CourseTo(w, n) && Reaches(w, n) && Goes(w, n, c)
    ensures Reaches(w, j)
  {
  }
}
