/**
 What a caller of one consumer request can rely on: the answer is determined, a request that stops
 short has done something, a series of requests comes to an end, and when a request completes.
 */
module ConsumerCalls {
  import opened Wrappers
  import opened Staging
  import opened Batches
  import opened Requests
  import opened Replay
  import opened ConsumerPass
  import opened Consumer

  // ---------------------------------------------------------------- the answer is determined

  ghost predicate AllSound(d: Durable, inv: Inventory) {
    forall e :: 0 <= e < |inv| ==> AllOk(d, inv[e]) && inv[e] != []
  }

  // As much is left of an artifact in both checkpoints.
  ghost predicate LeftAlike(a: Durable, b: Durable, x: Artifact) {
    && ArtifactOk(a, x) && ArtifactOk(b, x) && LeftOf(a, x) == LeftOf(b, x)
  }

  lemma SameLeft(a: Durable, b: Durable, x: Artifact)
    requires a.frontier == b.frontier && ArtifactOk(a, x) && ArtifactOk(b, x)
    requires (Done(a, x) && Done(b, x)) || (Count(a, x) == Count(b, x) && (Touched(a, x) <==> Touched(b, x)))
    ensures LeftAlike(a, b, x)
  {
    LeftIsZero(a, x);
    LeftIsZero(b, x);
  }

  lemma StoodAlike(w: Pass, n: nat, c: Course, o: Course, a: Durable, b: Durable, i: nat)
    requires n <= |w.list| && i < |w.list| && Stood(w, n, c, o, a) && Stood(w, n, c, o, b)
    requires ArtifactOk(a, w.list[i]) && ArtifactOk(b, w.list[i])
    ensures LeftAlike(a, b, w.list[i])
  {
    assert n < i ==> SameStanding(w.d, a, w.list[i]) && SameStanding(w.d, b, w.list[i]);
    SameLeft(a, b, w.list[i]);
  }

  lemma EndsAlike(inv: Inventory, w: Pass, n: nat, c: Course, o: Course, a: Durable, b: Durable)
    requires w.list == Flatten(inv) && n <= |w.list| && Stood(w, n, c, o, a) && Stood(w, n, c, o, b)
    requires AllSound(a, inv) && AllSound(b, inv)
    ensures LeftAll(a, inv, |inv|) == LeftAll(b, inv, |inv|)
  {
    forall e, j | 0 <= e < |inv| && 0 <= j < |inv[e]| ensures LeftAlike(a, b, inv[e][j]) {
      FlatAt(inv, e, j);
      assert ArtifactOk(a, inv[e][j]) && ArtifactOk(b, inv[e][j]);
      StoodAlike(w, n, c, o, a, b, Offset(inv, e) + j);
    }
    AllAlike(a, b, inv, |inv|);
  }

  lemma {:induction false} AllAlike(a: Durable, b: Durable, inv: Inventory, n: nat)
    requires n <= |inv| && AllSound(a, inv) && AllSound(b, inv)
    requires forall e, j :: 0 <= e < |inv| && 0 <= j < |inv[e]| ==> LeftAlike(a, b, inv[e][j])
    ensures LeftAll(a, inv, n) == LeftAll(b, inv, n)
    decreases n
  {
    if n > 0 {
      AllAlike(a, b, inv, n - 1);
      ListAlike(a, b, inv[n - 1], |inv[n - 1]|);
    }
  }

  lemma {:induction false} ListAlike(a: Durable, b: Durable, list: seq<Artifact>, n: nat)
    requires n <= |list| && AllOk(a, list) && AllOk(b, list) && forall j :: 0 <= j < |list| ==> LeftAlike(a, b, list[j])
    ensures LeftIn(a, list, n) == LeftIn(b, list, n)
    decreases n
  {
    if n > 0 {
      ListAlike(a, b, list, n - 1);
      assert LeftAlike(a, b, list[n - 1]);
    }
  }

  lemma ConcludedAlike(inv: Inventory, scope: Scope, o: Course, a: Durable, b: Durable, fault: Fault, d: Durable, d': Durable,
                       r: Result<Outcome, Error>, r': Result<Outcome, Error>)
    requires AllSound(a, inv) && AllSound(b, inv) && LeftAll(a, inv, |inv|) == LeftAll(b, inv, |inv|)
    requires Concluded(inv, scope, o, a, fault, d, r) && Concluded(inv, scope, o, b, fault, d', r')
    ensures r == r'
  {
  }

  lemma SettledAlike(inv: Inventory, scope: Scope, w: Pass, n: nat, o: Course, last: Turnout, d: Durable, d': Durable,
                     r: Result<Outcome, Error>, r': Result<Outcome, Error>)
    requires w.list == Flatten(inv) && n <= |w.list|
    requires Settled(inv, scope, w, n, o, last, d, r) && Settled(inv, scope, w, n, o, last, d', r')
    ensures r == r'
  {
    if o.waiting.None? || last.flush == NoFault {
      var a :| EndedWith(inv, w, n, o, a) && Concluded(inv, scope, o, a, last.commit, d, r);
      var b :| EndedWith(inv, w, n, o, b) && Concluded(inv, scope, o, b, last.commit, d', r');
      EndsAlike(inv, w, n, CourseTo(w, n), o, a, b);
      ConcludedAlike(inv, scope, o, a, b, last.commit, d, d', r, r');
    }
  }

  // The checkpoint, the inventory, the budget and the environment determine the answer.
  lemma AnswerIsDetermined(inv: Inventory, scope: Scope, w: Pass, last: Turnout, d: Durable, d': Durable,
                           r: Result<Outcome, Error>, r': Result<Outcome, Error>)
    requires (forall e :: 0 <= e < |inv| ==> inv[e] != []) && w.list == Flatten(inv)
    requires Answered(inv, scope, w, last, d, r) && Answered(inv, scope, w, last, d', r')
    ensures r == r'
  {
    if !Certified(w.d, inv, scope) {
      if r.Err? && exists n :: Breaks(w, n, r.error) {
        var n :| Breaks(w, n, r.error);
        BreakAlike(inv, scope, w, last, d', r', n, r.error);
      } else {
        var n, o :| Ends(w, n, o) && Settled(inv, scope, w, n, o, last, d, r);
        EndAlike(inv, scope, w, last, d, d', r, r', n, o);
      }
    }
  }

  lemma BreakAlike(inv: Inventory, scope: Scope, w: Pass, last: Turnout, d: Durable, r: Result<Outcome, Error>, n: nat, error: Error)
    requires (forall e :: 0 <= e < |inv| ==> inv[e] != []) && !Certified(w.d, inv, scope)
    requires Answered(inv, scope, w, last, d, r) && Breaks(w, n, error)
    ensures r == Err(error)
  {
    if r.Err? && exists m :: Breaks(w, m, r.error) {
      var m :| Breaks(w, m, r.error);
      BreakIsDetermined(w, n, error, m, r.error);
    } else {
      var m, p :| Ends(w, m, p) && Settled(inv, scope, w, m, p, last, d, r);
      PassIsDetermined(w, m, p, n, p, error);
    }
  }

  lemma EndAlike(inv: Inventory, scope: Scope, w: Pass, last: Turnout, d: Durable, d': Durable, r: Result<Outcome, Error>,
                 r': Result<Outcome, Error>, n: nat, o: Course)
    requires (forall e :: 0 <= e < |inv| ==> inv[e] != []) && !Certified(w.d, inv, scope) && w.list == Flatten(inv)
    requires Answered(inv, scope, w, last, d', r') && Ends(w, n, o) && Settled(inv, scope, w, n, o, last, d, r)
    ensures r == r'
  {
    if r'.Err? && exists m :: Breaks(w, m, r'.error) {
      var m :| Breaks(w, m, r'.error);
      PassIsDetermined(w, n, o, m, o, r'.error);
    } else {
      var m, p :| Ends(w, m, p) && Settled(inv, scope, w, m, p, last, d', r');
      PassIsDetermined(w, n, o, m, p, CommitFailed);
      SettledAlike(inv, scope, w, n, o, last, d, d', r, r');
    }
  }

  // ---------------------------------------------------------------- stopping short leaves less

  // What is to be done in the first artifacts: one for each that is not done, and its rows.
  ghost function ToDo(d: Durable, list: seq<Artifact>, n: nat): nat
    requires n <= |list|
  {
    if n == 0 then 0 else ToDo(d, list, n - 1) + if Done(d, list[n - 1]) then 0 else 1 + Rest(d, list[n - 1])
  }

  // No artifact has more to be done in `b` than in `a`.
  ghost predicate NoMore(a: Durable, b: Durable, x: Artifact) {
    Done(b, x) || (!Done(a, x) && Rest(b, x) <= Rest(a, x))
  }

  ghost predicate Less(a: Durable, b: Durable, x: Artifact) {
    !Done(a, x) && (Done(b, x) || Rest(b, x) < Rest(a, x))
  }

  lemma {:induction false} ToDoShrinks(a: Durable, b: Durable, list: seq<Artifact>, n: nat)
    requires n <= |list| && forall i :: 0 <= i < |list| ==> NoMore(a, b, list[i])
    ensures ToDo(b, list, n) <= ToDo(a, list, n)
    ensures (exists i :: 0 <= i < n && Less(a, b, list[i])) ==> ToDo(b, list, n) < ToDo(a, list, n)
    decreases n
  {
    if n > 0 {
      ToDoShrinks(a, b, list, n - 1);
      assert NoMore(a, b, list[n - 1]);
    }
  }

  // A pass that was not told to yield takes something: its first artifact that is not done fits, or
  // the request fails.
  lemma EndTakes(w: Pass, n: nat, o: Course)
    requires Ends(w, n, o) && n < |w.list| && Positive(w.budget) && !w.env(n).busy
    requires w.list[n].payload.EmptyBaseline? ==> Rest(w.d, w.list[n]) == 0
    ensures o.units > 0
  {
    if CourseTo(w, n).units == 0 {
      NothingTaken(w, n);
    }
  }

  lemma {:induction false} NothingTaken(w: Pass, n: nat)
    requires n <= |w.list| && CourseTo(w, n).units == 0
    ensures CourseTo(w, n) == Course(0, 0, w.spent, None) && forall i :: 0 <= i < n ==> Done(w.d, w.list[i])
    decreases n
  {
    if n > 0 {
      var i: nat := n - 1;
      CourseStep(w, i, n);
      NothingTaken(w, i);
    }
  }

  // What was taken is less to be done.
  lemma StoodLess(w: Pass, n: nat, c: Course, o: Course, d: Durable)
    requires n < |w.list| && c == CourseTo(w, n) && Stops(w, n, c, o) && Stood(w, n, c, o, d) && o.units > 0
    requires ArtifactOk(d, w.list[n])
    ensures ToDo(d, w.list, |w.list|) < ToDo(w.d, w.list, |w.list|)
  {
    forall i | 0 <= i < |w.list| ensures NoMore(w.d, d, w.list[i]) {
      assert n < i ==> SameStanding(w.d, d, w.list[i]);
    }
    if c.units == 0 {
      assert Less(w.d, d, w.list[n]);
    } else {
      var i := FirstTaken(w, n);
      assert Less(w.d, d, w.list[i]);
    }
    ToDoShrinks(w.d, d, w.list, |w.list|);
  }

  lemma {:induction false} FirstTaken(w: Pass, n: nat) returns (i: nat)
    requires n <= |w.list| && CourseTo(w, n).units > 0
    ensures i < n && !Done(w.d, w.list[i])
    decreases n
  {
    i := n - 1;
    CourseStep(w, i, n);
    if Done(w.d, w.list[i]) {
      i := FirstTaken(w, i);
    }
  }

  lemma {:induction false} NothingLeft(d: Durable, inv: Inventory, n: nat)
    requires n <= |inv| && AllSound(d, inv) && AllDone(d, inv)
    ensures LeftAll(d, inv, n) == 0
    decreases n
  {
    if n > 0 {
      NothingLeft(d, inv, n - 1);
      LeftInIsZero(d, inv[n - 1], |inv[n - 1]|);
    }
  }

  // Where a request ended that stopped short.
  lemma ShortEnd(inv: Inventory, scope: Scope, w: Pass, last: Turnout, d: Durable, r: Result<Outcome, Error>)
    returns (n: nat, o: Course)
    requires (forall e :: 0 <= e < |inv| ==> inv[e] != []) && w.list == Flatten(inv)
    requires Answered(inv, scope, w, last, d, r) && r.Ok? && !r.value.complete
    ensures n < |w.list| && Ends(w, n, o) && Stood(w, n, CourseTo(w, n), o, d) && AllSound(d, inv) && r.value.units == o.units
  {
    n, o :| Ends(w, n, o) && Settled(inv, scope, w, n, o, last, d, r);
    ShortSettled(inv, scope, w, n, o, last, d, r);
  }

  lemma ShortSettled(inv: Inventory, scope: Scope, w: Pass, n: nat, o: Course, last: Turnout, d: Durable, r: Result<Outcome, Error>)
    requires w.list == Flatten(inv) && n <= |w.list| && Settled(inv, scope, w, n, o, last, d, r) && r.Ok? && !r.value.complete
    ensures n < |w.list| && Stood(w, n, CourseTo(w, n), o, d) && AllSound(d, inv) && r.value.units == o.units
  {
    var s :| EndedWith(inv, w, n, o, s) && Concluded(inv, scope, o, s, last.commit, d, r);
    ShortConcluded(inv, scope, o, s, last.commit, d, r);
    if n == |w.list| {
      AllStood(inv, w, CourseTo(w, n), o, s);
    }
  }

  lemma ShortConcluded(inv: Inventory, scope: Scope, o: Course, s: Durable, fault: Fault, d: Durable, r: Result<Outcome, Error>)
    requires AllSound(s, inv) && Concluded(inv, scope, o, s, fault, d, r) && r.Ok? && !r.value.complete
    ensures d == s && LeftAll(s, inv, |inv|) > 0 && r.value.units == o.units
  {
  }

  lemma AllStood(inv: Inventory, w: Pass, c: Course, o: Course, s: Durable)
    requires w.list == Flatten(inv) && Stood(w, |w.list|, c, o, s) && AllSound(s, inv)
    ensures LeftAll(s, inv, |inv|) == 0
  {
    AllDoneFlat(s, inv);
    NothingLeft(s, inv, |inv|);
  }

  // A request that stops short though it did not have to yield has taken something, and less is to
  // be done after it.
  lemma StopLeavesLess(inv: Inventory, scope: Scope, w: Pass, last: Turnout, d: Durable, r: Result<Outcome, Error>)
    requires InventoryOk(inv) && (forall e :: 0 <= e < |inv| ==> inv[e] != []) && w.list == Flatten(inv)
    requires Answered(inv, scope, w, last, d, r) && r.Ok? && !r.value.complete
    requires Positive(w.budget) && forall i: nat :: !w.env(i).busy
    ensures r.value.units > 0 && ToDo(d, w.list, |w.list|) < ToDo(w.d, w.list, |w.list|)
  {
    var n, o := ShortEnd(inv, scope, w, last, d, r);
    var e, j := PlaceOf(inv, n);
    assert ListOk(e, inv[e]) && AllOk(d, inv[e]);
    assert ArtifactOk(d, inv[e][j]);
    EndTakes(w, n, o);
    StoodLess(w, n, CourseTo(w, n), o, d);
  }

  // One request of a series.
  datatype Round = Round(scope: Scope, w: Pass, last: Turnout, next: Durable, r: Result<Outcome, Error>)

  // The request stopped short though it did not have to yield.
  ghost predicate FellShort(inv: Inventory, x: Round)
    requires forall e :: 0 <= e < |inv| ==> inv[e] != []
  {
    && x.w.list == Flatten(inv) && Answered(inv, x.scope, x.w, x.last, x.next, x.r) && x.r.Ok? && !x.r.value.complete
    && Positive(x.w.budget) && forall i: nat :: !x.w.env(i).busy
  }

  ghost predicate Series(inv: Inventory, xs: seq<Round>)
    requires forall e :: 0 <= e < |inv| ==> inv[e] != []
  {
    && (forall i :: 0 <= i < |xs| ==> FellShort(inv, xs[i]))
    && (forall i :: 0 < i < |xs| ==> xs[i].w.d == xs[i - 1].next)
  }

  // No series of requests over one inventory falls short more often than there is to be done: after
  // so many, whatever their budgets, one completes or fails.
  lemma {:induction false} SeriesEnds(inv: Inventory, xs: seq<Round>)
    requires InventoryOk(inv) && (forall e :: 0 <= e < |inv| ==> inv[e] != []) && xs != [] && Series(inv, xs)
    ensures |xs| <= ToDo(xs[0].w.d, Flatten(inv), |Flatten(inv)|)
    decreases |xs|
  {
    assert FellShort(inv, xs[0]);
    StopLeavesLess(inv, xs[0].scope, xs[0].w, xs[0].last, xs[0].next, xs[0].r);
    if |xs| > 1 {
      assert xs[1].w.d == xs[0].next;
      SeriesTail(inv, xs);
      SeriesEnds(inv, xs[1..]);
    }
  }

  lemma SeriesTail(inv: Inventory, xs: seq<Round>)
    requires (forall e :: 0 <= e < |inv| ==> inv[e] != []) && |xs| > 1 && Series(inv, xs)
    ensures Series(inv, xs[1..])
  {
  }

  // ---------------------------------------------------------------- when a request completes

  ghost function DueTo(w: Pass, n: nat): nat
    requires n <= |w.list|
  {
    if n == 0 then 0 else DueTo(w, n - 1) + if Done(w.d, w.list[n - 1]) then 0 else 1
  }

  ghost function RestTo(w: Pass, n: nat): nat
    requires n <= |w.list|
  {
    if n == 0 then 0 else RestTo(w, n - 1) + if Done(w.d, w.list[n - 1]) then 0 else Rest(w.d, w.list[n - 1])
  }

  ghost function BytesTo(w: Pass, n: nat): nat
    requires n <= |w.list|
  {
    if n == 0 then 0 else BytesTo(w, n - 1) + if Done(w.d, w.list[n - 1]) then 0 else w.list[n - 1].bytes
  }

  ghost predicate Calm(t: Turnout) {
    !t.busy && t.flush == NoFault && t.commit == NoFault
  }

  // The budgets cover all there is to do, every artifact can be read, and nothing goes wrong.
  ghost predicate Ample(w: Pass) {
    && (forall i :: 0 <= i < |w.list| ==> w.list[i].sound && Calm(w.env(i)))
    && DueTo(w, |w.list|) <= w.budget.batchLimit && RestTo(w, |w.list|) < w.budget.maxRows
    && w.spent + BytesTo(w, |w.list|) <= w.budget.maxBytes
  }

  lemma {:induction false} SumsGrow(w: Pass, a: nat, b: nat)
    requires a <= b <= |w.list|
    ensures DueTo(w, a) <= DueTo(w, b) && RestTo(w, a) <= RestTo(w, b) && BytesTo(w, a) <= BytesTo(w, b)
    decreases b
  {
    if a < b {
      SumsGrow(w, a, b - 1);
    }
  }

  // What a course has spent is what was to be done.
  lemma {:induction false} CourseSums(w: Pass, n: nat)
    requires n <= |w.list|
    ensures CourseTo(w, n).units == DueTo(w, n) && CourseTo(w, n).rows == RestTo(w, n) && CourseTo(w, n).bytes == w.spent + BytesTo(w, n)
    decreases n
  {
    if n > 0 {
      var i: nat := n - 1;
      CourseStep(w, i, n);
      CourseSums(w, i);
    }
  }

  lemma AmpleGoesOn(w: Pass, i: nat)
    requires Ample(w) && i < |w.list| && ArtifactOk(w.d, w.list[i])
    ensures GoesOn(w, i)
  {
    CourseSums(w, i);
    SumsGrow(w, i + 1, |w.list|);
  }

  lemma AmpleReaches(inv: Inventory, w: Pass)
    requires Ample(w) && w.list == Flatten(inv) && StateOk(w.d, inv)
    ensures Ends(w, |w.list|, CourseTo(w, |w.list|))
  {
    forall i | 0 <= i < |w.list| ensures GoesOn(w, i) {
      var e, j := PlaceOf(inv, i);
      assert EdgeOk(w.d, e, inv[e]);
      assert ArtifactOk(w.d, inv[e][j]);
      AmpleGoesOn(w, i);
    }
  }

  // Without faults, without having to yield, over sound artifacts and with budgets that cover what
  // is left, a request completes.
  lemma AmpleRequestCompletes(inv: Inventory, scope: Scope, w: Pass, last: Turnout, d: Durable, r: Result<Outcome, Error>)
    requires InventoryOk(inv) && (forall e :: 0 <= e < |inv| ==> inv[e] != []) && StateOk(w.d, inv) && w.list == Flatten(inv)
    requires Ample(w) && Calm(last) && Answered(inv, scope, w, last, d, r)
    ensures r.Ok? && r.value.complete
  {
    if !Certified(w.d, inv, scope) {
      AmpleReaches(inv, w);
      var m, c := |w.list|, CourseTo(w, |w.list|);
      if r.Err? && exists n :: Breaks(w, n, r.error) {
        var n :| Breaks(w, n, r.error);
        PassIsDetermined(w, m, c, n, c, r.error);
      } else {
        var n, o :| Ends(w, n, o) && Settled(inv, scope, w, n, o, last, d, r);
        PassIsDetermined(w, m, c, n, o, CommitFailed);
        AllSettles(inv, scope, w, o, last, d, r);
      }
    }
  }

  lemma AllSettles(inv: Inventory, scope: Scope, w: Pass, o: Course, last: Turnout, d: Durable, r: Result<Outcome, Error>)
    requires w.list == Flatten(inv) && Calm(last) && Settled(inv, scope, w, |w.list|, o, last, d, r)
    ensures r.Ok? && r.value.complete
  {
    var s :| EndedWith(inv, w, |w.list|, o, s) && Concluded(inv, scope, o, s, last.commit, d, r);
    AllStood(inv, w, CourseTo(w, |w.list|), o, s);
  }
}
