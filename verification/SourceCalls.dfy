/**
 What a caller of one physical-source request can rely on: the answer is determined, a request
 that stops short leaves less to do, and when a request completes.
 */
module SourceCalls {
  import opened Wrappers
  import opened Spans
  import opened Batches
  import opened Staging
  import opened Coverage
  import opened Requests
  import opened SourceUnit
  import opened SourcePass
  import opened Preflight
  import opened SourceDemand

  // ---------------------------------------------------------------- the answer is determined

  lemma EntryIsUnique(p: Progress, q: Progress)
    requires Valid(p) && Valid(q) && p.applied.total == q.applied.total && AbsEntry(p) == AbsEntry(q)
    requires p.hash == q.hash && p.watermark == q.watermark
    ensures p == q
  {
    CanonicalIsUnique(p.applied, q.applied);
    assert p.inspected.Keys == AbsEntry(p).inspected.Keys && q.inspected.Keys == AbsEntry(q).inspected.Keys;
    forall s | s in p.inspected ensures p.inspected[s] == q.inspected[s] {
      assert AbsEntry(p).inspected[s] == AbsEntry(q).inspected[s];
      CanonicalIsUnique(p.inspected[s], q.inspected[s]);
    }
    assert p.inspected == q.inspected;
  }

  // There is one way to reconcile the progress of a head with a cut.
  lemma RereadIsUnique(source: Source, cut: Cut, scan: Scope, head: Option<Header>, a: Progresses, b: Progresses)
    requires CutOk(source, cut) && Reread(source, cut, scan, head, a) && Reread(source, cut, scan, head, b)
    ensures a == b
  {
    forall k
      ensures k in a <==> k in b
      ensures k in a ==> a[k] == b[k]
    {
      assert ReconciledAt(source, FrontierAt(head), ProgressOf(head), source.Keys, scan, a, k);
      assert ReconciledAt(source, FrontierAt(head), ProgressOf(head), source.Keys, scan, b, k);
      if k in a && k in source {
        SameDigest(source, cut, k, a, b);
        EntryIsUnique(a[k], b[k]);
      }
    }
  }

  lemma SameDigest(source: Source, cut: Cut, k: Key, a: Progresses, b: Progresses)
    requires CutOk(source, cut) && k in source && k in a && k in b
    requires AllMatch(Pubs(cut.captured), |cut.captured|, a) && AllMatch(Pubs(cut.captured), |cut.captured|, b)
    ensures a[k].hash == b[k].hash
  {
    var pubs := Pubs(cut.captured);
    KeysToContains(pubs, |pubs|, k);
    var i :| 0 <= i < |pubs| && pubs[i].key == k;
    MatchesAt(pubs, i, |pubs|, a);
    MatchesAt(pubs, i, |pubs|, b);
  }

  // Two outcomes of one pass differ in nothing that a call depends on.
  ghost predicate Alike(a: Inspection, b: Inspection) {
    && a.units == b.units && a.rows == b.rows && a.bytes == b.bytes && Abs(a.progress) == Abs(b.progress)
    && multiset(RunRows(a.inputs)) == multiset(RunRows(b.inputs))
    && forall k :: Unstamped(a.progress, k) <==> Unstamped(b.progress, k)
  }

  lemma RanAlike(plan: Plan, source: Source, w: Pass, c: Course, a: Inspection, b: Inspection)
    requires Ran(plan, source, w, c, a) && Ran(plan, source, w, c, b)
    ensures Alike(a, b) && RowsLeft(w.captured, w.scan, a.progress) == RowsLeft(w.captured, w.scan, b.progress)
  {
  }

  lemma {:induction false} AffordableAlike(captured: seq<Captured>, a: Progresses, b: Progresses, i: nat, left: int)
    requires i <= |captured| && forall k :: Unstamped(a, k) <==> Unstamped(b, k)
    ensures Affordable(captured, a, i, left) <==> Affordable(captured, b, i, left)
    ensures StampBytes(captured, a, i) == StampBytes(captured, b, i)
    decreases |captured| - i
  {
    if i < |captured| {
      AffordableAlike(captured, a, b, i + 1, if Unstamped(a, captured[i].pub.key) then left - captured[i].loaded.bytes else left);
    }
  }

  lemma SealAlike(causal: bool, source: Source, cut: Cut, a: Inspection, b: Inspection, left: int)
    requires Alike(a, b)
    ensures Sealable(causal, source, cut, a.progress, left) <==> Sealable(causal, source, cut, b.progress, left)
    ensures SealBytes(causal, source, cut, a.progress) == SealBytes(causal, source, cut, b.progress)
  {
    AffordableAlike(cut.captured, a.progress, b.progress, 0, left);
  }

  // Answers of the same kind, equal where they report work done.
  ghost predicate SameAnswer(a: Result<Outcome, SourceError>, b: Result<Outcome, SourceError>) {
    a == b || (a.Err? && b.Err? && Kind(a.error) == Kind(b.error))
  }

  ghost function Kind(e: SourceError): nat {
    match e
    case InvalidBudget => 0
    case Unread(_) => 1
    case Unloaded(_) => 2
    case CommitFailed => 3
    case Overflow => 4
    case Unsealed(_) => 5
    case FinishFailed => 6
  }

  lemma HeldAlike(head: Option<Header>, a: Inspection, b: Inspection, next: Option<Header>, next': Option<Header>)
    requires Alike(a, b) && Held(head, a, next) && Held(head, b, next')
    ensures StateOf(next) == StateOf(next')
  {
  }

  lemma LastCommitAlike(causal: bool, source: Source, cut: Cut, fault: Fault, a: Progresses, b: Progresses, left: int,
                        kept: bool, certified: bool, r: Result<nat, SourceError>,
                        kept': bool, certified': bool, r': Result<nat, SourceError>)
    requires LastCommit(causal, source, cut, fault, a, left, kept, certified, r)
    requires LastCommit(causal, source, cut, fault, b, left, kept', certified', r')
    requires Sealable(causal, source, cut, a, left) <==> Sealable(causal, source, cut, b, left)
    requires SealBytes(causal, source, cut, a) == SealBytes(causal, source, cut, b)
    ensures (kept && kept') || (certified && certified')
    ensures r == r' || (r.Err? && r'.Err? && Kind(r.error) == Kind(r'.error))
  {
  }

  lemma FinishedAlike(view: View, source: Source, cut: Cut, scope: Scope, head: Option<Header>, a: Inspection, b: Inspection,
                      next: Option<Header>, next': Option<Header>)
    requires Alike(a, b)
    requires CertifiedOver(view, source, cut, scope, head, a, next) && CertifiedOver(view, source, cut, scope, head, b, next')
    ensures StateOf(next) == StateOf(next')
  {
  }

  lemma ClosedAlike(view: View, source: Source, cut: Cut, call: Call, head: Option<Header>, a: Inspection, b: Inspection,
                    next: Option<Header>, next': Option<Header>, r: Result<Outcome, SourceError>, r': Result<Outcome, SourceError>)
    requires Alike(a, b)
    requires Closed(view, source, cut, call, head, a, next, r) && Closed(view, source, cut, call, head, b, next', r')
    ensures SameAnswer(r, r') && StateOf(next) == StateOf(next')
  {
    var left := call.budget.maxBytes - a.bytes;
    var used := SealBytes(view.causal, source, cut, a.progress);
    SealAlike(view.causal, source, cut, a, b, left);
    LastCommitAlike(view.causal, source, cut, call.env.finish, a.progress, b.progress, left,
                    Held(head, a, next), CertifiedOver(view, source, cut, call.scope, head, a, next),
                    if r.Ok? then Ok(used) else Err(r.error),
                    Held(head, b, next'), CertifiedOver(view, source, cut, call.scope, head, b, next'),
                    if r'.Ok? then Ok(used) else Err(r'.error));
    if Held(head, a, next) && Held(head, b, next') {
      HeldAlike(head, a, b, next, next');
    } else {
      FinishedAlike(view, source, cut, call.scope, head, a, b, next, next');
    }
  }

  lemma SettledAlike(view: View, source: Source, cut: Cut, call: Call, head: Option<Header>, a: Inspection, b: Inspection,
                     next: Option<Header>, next': Option<Header>, r: Result<Outcome, SourceError>, r': Result<Outcome, SourceError>)
    requires Alike(a, b) && AllIn(cut.captured, a.progress) && AllIn(cut.captured, b.progress)
    requires RowsLeft(cut.captured, ScanScope(view.plan, call.scope), a.progress)
          == RowsLeft(cut.captured, ScanScope(view.plan, call.scope), b.progress)
    requires Settled(view, source, cut, call, head, a, next, r) && Settled(view, source, cut, call, head, b, next', r')
    ensures SameAnswer(r, r') && StateOf(next) == StateOf(next')
  {
    if Closed(view, source, cut, call, head, a, next, r) && Closed(view, source, cut, call, head, b, next', r') {
      ClosedAlike(view, source, cut, call, head, a, b, next, next', r, r');
    } else if Held(head, a, next) && Held(head, b, next') {
      HeldAlike(head, a, b, next, next');
    }
  }

  lemma PassedAlike(view: View, source: Source, cut: Cut, call: Call, w: Pass, head: Option<Header>, next: Option<Header>,
                    next': Option<Header>, r: Result<Outcome, SourceError>, r': Result<Outcome, SourceError>)
    requires w.scan == ScanScope(view.plan, call.scope)
    requires Passed(view, source, cut, call, w, head, next, r) && Passed(view, source, cut, call, w, head, next', r')
    ensures SameAnswer(r, r') && StateOf(next) == StateOf(next')
  {
    if Failing(r) {
      var n := Failure(view, source, cut, call, w, head, next, r);
      FailingAlike(view, source, cut, call, w, head, next', r', n, r.error.unit);
    } else {
      var n, a := Ending(view, source, cut, call, w, head, next, r);
      EndingAlike(view, source, cut, call, w, head, next, next', r, r', n, a);
    }
  }

  lemma Failure(view: View, source: Source, cut: Cut, call: Call, w: Pass, head: Option<Header>, next: Option<Header>,
                r: Result<Outcome, SourceError>) returns (n: nat)
    requires Passed(view, source, cut, call, w, head, next, r) && Failing(r)
    ensures next == head && Breaks(view.plan, w, n, r.error.unit)
  {
    n :| Breaks(view.plan, w, n, r.error.unit);
  }

  lemma Ending(view: View, source: Source, cut: Cut, call: Call, w: Pass, head: Option<Header>, next: Option<Header>,
               r: Result<Outcome, SourceError>) returns (n: nat, out: Inspection)
    requires Passed(view, source, cut, call, w, head, next, r) && !Failing(r)
    ensures Ends(view.plan, w, n) && Ran(view.plan, source, w, CourseTo(w, n), out)
    ensures w.captured == cut.captured && Settled(view, source, cut, call, head, out, next, r)
  {
    n, out :|
      && Ends(view.plan, w, n) && Ran(view.plan, source, w, CourseTo(w, n), out)
      && w.captured == cut.captured && Settled(view, source, cut, call, head, out, next, r);
  }

  // A pass that fails does not end.
  lemma FailingAlike(view: View, source: Source, cut: Cut, call: Call, w: Pass, head: Option<Header>, next: Option<Header>,
                     r: Result<Outcome, SourceError>, m: nat, error: UnitError)
    requires Passed(view, source, cut, call, w, head, next, r) && Breaks(view.plan, w, m, error)
    ensures Failing(r) && next == head
  {
    if !Failing(r) {
      var n, _ := Ending(view, source, cut, call, w, head, next, r);
      PassIsDetermined(view.plan, w, n, m, error);
    } else {
      var _ := Failure(view, source, cut, call, w, head, next, r);
    }
  }

  lemma EndingAlike(view: View, source: Source, cut: Cut, call: Call, w: Pass, head: Option<Header>, next: Option<Header>,
                    next': Option<Header>, r: Result<Outcome, SourceError>, r': Result<Outcome, SourceError>, n: nat, a: Inspection)
    requires w.scan == ScanScope(view.plan, call.scope) && w.captured == cut.captured
    requires Ends(view.plan, w, n) && Ran(view.plan, source, w, CourseTo(w, n), a) && Settled(view, source, cut, call, head, a, next, r)
    requires Passed(view, source, cut, call, w, head, next', r')
    ensures SameAnswer(r, r') && StateOf(next) == StateOf(next')
  {
    if Failing(r') {
      var m := Failure(view, source, cut, call, w, head, next', r');
      PassIsDetermined(view.plan, w, n, m, r'.error.unit);
    } else {
      var m, b := Ending(view, source, cut, call, w, head, next', r');
      EndingsAlike(view, source, cut, call, w, head, next, next', r, r', n, a, m, b);
    }
  }

  lemma EndingsAlike(view: View, source: Source, cut: Cut, call: Call, w: Pass, head: Option<Header>, next: Option<Header>,
                     next': Option<Header>, r: Result<Outcome, SourceError>, r': Result<Outcome, SourceError>,
                     n: nat, a: Inspection, m: nat, b: Inspection)
    requires w.scan == ScanScope(view.plan, call.scope) && w.captured == cut.captured
    requires Ends(view.plan, w, n) && Ran(view.plan, source, w, CourseTo(w, n), a) && Settled(view, source, cut, call, head, a, next, r)
    requires Ends(view.plan, w, m) && Ran(view.plan, source, w, CourseTo(w, m), b) && Settled(view, source, cut, call, head, b, next', r')
    ensures SameAnswer(r, r') && StateOf(next) == StateOf(next')
  {
    PassIsDetermined(view.plan, w, n, m, LoadFailed);
    RanAlike(view.plan, source, w, CourseTo(w, n), a, b);
    SettledAlike(view, source, cut, call, head, a, b, next, next', r, r');
  }

  // The head, the cut and the call determine the answer and the rows folded in.
  lemma AnswerIsDetermined(view: View, source: Source, cut: Cut, call: Call, head: Option<Header>, next: Option<Header>,
                           next': Option<Header>, r: Result<Outcome, SourceError>, r': Result<Outcome, SourceError>)
    requires CutOk(source, cut)
    requires Answered(view, source, cut, call, head, next, r) && Answered(view, source, cut, call, head, next', r')
    ensures SameAnswer(r, r') && StateOf(next) == StateOf(next')
  {
    var s, q, scan := SnapshotOf(head, cut), RequestOf(view, call.scope), ScanScope(view.plan, call.scope);
    if Positive(call.budget) && Authentic(s, q, call.budget.maxBytes) && !CompleteDemand(s, q) {
      var p :| Reread(source, cut, scan, head, p) && Passed(view, source, cut, call, PassOf(view, cut, call, head, p), head, next, r);
      var p' :| Reread(source, cut, scan, head, p') && Passed(view, source, cut, call, PassOf(view, cut, call, head, p'), head, next', r');
      RereadIsUnique(source, cut, scan, head, p, p');
      PassedAlike(view, source, cut, call, PassOf(view, cut, call, head, p), head, next, next', r, r');
    }
  }

  // ---------------------------------------------------------------- stopping short leaves less

  // A call that stops short reports exactly what it did not inspect, and has done something unless
  // it was told to stop or the head alone used up the bytes.
  lemma StopLeavesLess(view: View, source: Source, cut: Cut, call: Call, head: Option<Header>, next: Option<Header>,
                       r: Result<Outcome, SourceError>, progress: Progresses)
    requires CutOk(source, cut) && Answered(view, source, cut, call, head, next, r) && r.Ok? && !r.value.complete
    requires Reread(source, cut, ScanScope(view.plan, call.scope), head, progress)
    ensures AllIn(cut.captured, progress)
    ensures r.value.remaining == RowsLeft(cut.captured, ScanScope(view.plan, call.scope), progress) - r.value.rows
    ensures true !in call.env.stops && HeadBytes(SnapshotOf(head, cut)) < call.budget.maxBytes ==> r.value.rows > 0
  {
    var w := PassOf(view, cut, call, head, progress);
    var n := StopCounts(view, source, cut, call, head, next, r, progress);
    if r.value.rows == 0 && true !in call.env.stops && w.charged < call.budget.maxBytes {
      IdleLeft(view.plan, w, n);
    }
  }

  lemma StopCounts(view: View, source: Source, cut: Cut, call: Call, head: Option<Header>, next: Option<Header>,
                   r: Result<Outcome, SourceError>, progress: Progresses) returns (n: nat)
    requires CutOk(source, cut) && Answered(view, source, cut, call, head, next, r) && r.Ok? && !r.value.complete
    requires Reread(source, cut, ScanScope(view.plan, call.scope), head, progress)
    ensures var w := PassOf(view, cut, call, head, progress);
            && Positive(call.budget) && Ends(view.plan, w, n) && r.value.rows == CourseTo(w, n).rows && AllIn(w.captured, w.progress)
            && 0 < r.value.remaining == RowsLeft(w.captured, w.scan, w.progress) - r.value.rows
  {
    var scan, w := ScanScope(view.plan, call.scope), PassOf(view, cut, call, head, progress);
    var p :| Reread(source, cut, scan, head, p) && Passed(view, source, cut, call, PassOf(view, cut, call, head, p), head, next, r);
    RereadIsUnique(source, cut, scan, head, p, progress);
    var out;
    n, out := Ending(view, source, cut, call, w, head, next, r);
    RanLeft(view.plan, source, w, CourseTo(w, n), out);
    SettledStop(view, source, cut, call, head, out, next, r);
  }

  lemma RanLeft(plan: Plan, source: Source, w: Pass, c: Course, out: Inspection)
    requires Ran(plan, source, w, c, out)
    ensures AllIn(w.captured, w.progress) && AllIn(w.captured, out.progress) && out.rows == c.rows
    ensures RowsLeft(w.captured, w.scan, out.progress) == RowsLeft(w.captured, w.scan, w.progress) - c.rows
  {
  }

  lemma SettledStop(view: View, source: Source, cut: Cut, call: Call, head: Option<Header>, out: Inspection, next: Option<Header>,
                    r: Result<Outcome, SourceError>)
    requires AllIn(cut.captured, out.progress) && Settled(view, source, cut, call, head, out, next, r) && r.Ok? && !r.value.complete
    ensures r.value.rows == out.rows && Held(head, out, next)
    ensures 0 < r.value.remaining == RowsLeft(cut.captured, ScanScope(view.plan, call.scope), out.progress)
  {
  }

  lemma IdleLeft(plan: Plan, w: Pass, n: nat)
    requires Ends(plan, w, n) && CourseTo(w, n).rows == 0 && Positive(w.budget) && w.charged < w.budget.maxBytes && true !in w.stops
    requires AllIn(w.captured, w.progress)
    ensures RowsLeft(w.captured, w.scan, w.progress) == 0
  {
    IdlePass(plan, w, n);
    NoneDue(w, |w.captured|);
  }

  // A pass that stages nothing, though it may, finds nothing to inspect.
  lemma IdlePass(plan: Plan, w: Pass, n: nat)
    requires Ends(plan, w, n) && CourseTo(w, n).rows == 0 && Positive(w.budget) && w.charged < w.budget.maxBytes && true !in w.stops
    ensures n == |w.captured| && forall i :: 0 <= i < n ==> !Due(w, i)
  {
    IdleCourse(w, n);
  }

  lemma {:induction false} IdleCourse(w: Pass, n: nat)
    requires Runnable(w) && n <= |w.captured| && CourseTo(w, n).rows == 0 && w.budget.maxRows > 0
    ensures CourseTo(w, n) == Course([], 0, w.charged) && forall i :: 0 <= i < n ==> !Due(w, i)
    decreases n
  {
    if n > 0 {
      CourseStep(w, n - 1, n);
      IdleCourse(w, n - 1);
    }
  }

  lemma {:induction false} NoneDue(w: Pass, n: nat)
    requires Runnable(w) && n <= |w.captured| && AllIn(w.captured, w.progress) && forall i :: 0 <= i < n ==> !Due(w, i)
    ensures LeftTo(w, n) == 0
    decreases n
  {
    if n > 0 {
      NoneDue(w, n - 1);
      assert !Due(w, n - 1);
      LeftAtPlace(w, n - 1);
    }
  }

  // The rows left in the first `n` artifacts.
  ghost function LeftTo(w: Pass, n: nat): int
    requires n <= |w.captured| && AllIn(w.captured, w.progress)
  {
    Uninspected(w.progress, KeysOf(w.captured), n, w.scan)
  }

  ghost function LeftIn(w: Pass, i: nat): int
    requires i < |w.captured| && AllIn(w.captured, w.progress)
  {
    w.progress[w.captured[i].pub.key].applied.total - |Ordinals(Scan(w.progress[w.captured[i].pub.key], w.scan))|
  }

  lemma LeftAtPlace(w: Pass, i: nat)
    requires Runnable(w) && i < |w.captured| && AllIn(w.captured, w.progress)
    ensures LeftTo(w, i + 1) == LeftTo(w, i) + LeftIn(w, i) && LeftIn(w, i) >= 0
    ensures Due(w, i) <==> LeftIn(w, i) > 0
  {
    var scan := Scan(w.progress[w.captured[i].pub.key], w.scan);
    FullCardinality(scan);
    FrontierIsFirstHole(scan);
  }

  // ---------------------------------------------------------------- the next call goes on from there

  // After a call that stopped short, the next one of the same scope finds no more left than was reported.
  lemma NextFindsNoMore(view: View, source: Source, cut: Cut, call: Call, head: Option<Header>, next: Option<Header>,
                        r: Result<Outcome, SourceError>, progress: Progresses, progress': Progresses)
    requires CutOk(source, cut) && Answered(view, source, cut, call, head, next, r) && r.Ok? && !r.value.complete
    requires Reread(source, cut, ScanScope(view.plan, call.scope), head, progress)
    requires Reread(source, cut, ScanScope(view.plan, call.scope), next, progress')
    ensures AllIn(cut.captured, progress') && RowsLeft(cut.captured, ScanScope(view.plan, call.scope), progress') <= r.value.remaining
  {
    var scan := ScanScope(view.plan, call.scope);
    AllReread(source, cut, scan, next, progress');
    var out := StopHolds(view, source, cut, call, head, next, r);
    if out.units == 0 {
      RereadIsUnique(source, cut, scan, head, progress, progress');
      StopLeavesLess(view, source, cut, call, head, next, r, progress');
    } else {
      RereadGrows(source, cut, scan, next, out.progress, progress');
    }
  }

  lemma AllReread(source: Source, cut: Cut, scan: Scope, head: Option<Header>, progress: Progresses)
    requires CutOk(source, cut) && Reread(source, cut, scan, head, progress)
    ensures AllIn(cut.captured, progress)
  {
    forall i | 0 <= i < |cut.captured| ensures cut.captured[i].pub.key in progress {
      var pub := Pubs(cut.captured)[i];
      assert ReconciledAt(source, FrontierAt(head), ProgressOf(head), source.Keys, scan, progress, pub.key);
    }
  }

  lemma StopHolds(view: View, source: Source, cut: Cut, call: Call, head: Option<Header>, next: Option<Header>,
                  r: Result<Outcome, SourceError>) returns (out: Inspection)
    requires Answered(view, source, cut, call, head, next, r) && r.Ok? && !r.value.complete
    ensures ProgressOk(source, out.progress) && AllIn(cut.captured, out.progress)
    ensures if out.units == 0 then next == head && r.value.rows == 0 else Abs(ProgressOf(next)) == Abs(out.progress)
    ensures r.value.remaining == RowsLeft(cut.captured, ScanScope(view.plan, call.scope), out.progress)
  {
    var scan := ScanScope(view.plan, call.scope);
    var p :| Reread(source, cut, scan, head, p) && Passed(view, source, cut, call, PassOf(view, cut, call, head, p), head, next, r);
    var n;
    n, out := Ending(view, source, cut, call, PassOf(view, cut, call, head, p), head, next, r);
    SettledStop(view, source, cut, call, head, out, next, r);
    RanCounts(view.plan, source, PassOf(view, cut, call, head, p), CourseTo(PassOf(view, cut, call, head, p), n), out);
  }

  lemma RanCounts(plan: Plan, source: Source, w: Pass, c: Course, out: Inspection)
    requires Ran(plan, source, w, c, out)
    ensures out.units == 0 ==> out.rows == 0
    ensures ProgressOk(source, out.progress)
  {
  }

  // Reconciling progress again forgets nothing that was inspected.
  lemma RereadGrows(source: Source, cut: Cut, scan: Scope, head: Option<Header>, held: Progresses, progress: Progresses)
    requires CutOk(source, cut) && Reread(source, cut, scan, head, progress) && AllIn(cut.captured, progress)
    requires ProgressOk(source, held) && AllIn(cut.captured, held) && Abs(ProgressOf(head)) == Abs(held)
    ensures RowsLeft(cut.captured, scan, progress) <= RowsLeft(cut.captured, scan, held)
  {
    forall i | 0 <= i < |cut.captured| ensures NoLess(held, progress, cut.captured[i].pub.key, scan) {
      var pub := Pubs(cut.captured)[i];
      assert pub.key in source;
      assert ReconciledAt(source, FrontierAt(head), ProgressOf(head), source.Keys, scan, progress, pub.key);
      assert Abs(held)[pub.key] == Abs(ProgressOf(head))[pub.key];
      RefreshGrows(source[pub.key], scan, held[pub.key], progress[pub.key]);
    }
    LeftShrinks(cut.captured, scan, held, progress, |cut.captured|);
  }

  // An artifact has no more left to inspect in `b` than in `a`.
  ghost predicate NoLess(a: Progresses, b: Progresses, k: Key, scan: Scope) {
    && k in a && k in b && b[k].applied.total == a[k].applied.total
    && |Ordinals(Scan(a[k], scan))| <= |Ordinals(Scan(b[k], scan))|
  }

  lemma RefreshGrows(a: Artifact, scan: Scope, p: Progress, q: Progress)
    requires Valid(p) && Valid(q) && p.applied.total == q.applied.total == a.len && AbsEntry(q) == Refresh(a, scan, AbsEntry(p))
    ensures |Ordinals(Scan(p, scan))| <= |Ordinals(Scan(q, scan))|
  {
    SeenIsScan(p, scan);
    SeenIsScan(q, scan);
    assert Ordinals(Scan(p, scan)) <= Interval(0, a.len);
    SubsetSize(Ordinals(Scan(p, scan)), Ordinals(Scan(q, scan)));
  }

  lemma {:induction false} LeftShrinks(captured: seq<Captured>, scan: Scope, a: Progresses, b: Progresses, n: nat)
    requires n <= |captured| && AllIn(captured, a) && AllIn(captured, b)
    requires forall i :: 0 <= i < |captured| ==> NoLess(a, b, captured[i].pub.key, scan)
    ensures Uninspected(b, KeysOf(captured), n, scan) <= Uninspected(a, KeysOf(captured), n, scan)
    decreases n
  {
    if n > 0 {
      LeftShrinks(captured, scan, a, b, n - 1);
      assert NoLess(a, b, captured[n - 1].pub.key, scan);
    }
  }

  // One call of a series, with the progress it starts from.
  datatype Round = Round(call: Call, head: Option<Header>, progress: Progresses, next: Option<Header>, r: Result<Outcome, SourceError>)

  // The call stopped short though it was not told to, and the head left bytes to spend.
  ghost predicate FellShort(view: View, source: Source, cut: Cut, scope: Scope, x: Round) {
    && Answered(view, source, cut, x.call, x.head, x.next, x.r) && x.r.Ok? && !x.r.value.complete && x.call.scope == scope
    && Reread(source, cut, ScanScope(view.plan, scope), x.head, x.progress)
    && true !in x.call.env.stops && HeadBytes(SnapshotOf(x.head, cut)) < x.call.budget.maxBytes
  }

  ghost predicate Series(view: View, source: Source, cut: Cut, scope: Scope, xs: seq<Round>) {
    && (forall i :: 0 <= i < |xs| ==> FellShort(view, source, cut, scope, xs[i]))
    && (forall i :: 0 < i < |xs| ==> xs[i].head == xs[i - 1].next)
  }

  // No series of calls falls short more often than there are rows left: after so many, whatever
  // their budgets, one completes or fails.
  lemma {:induction false} SeriesEnds(view: View, source: Source, cut: Cut, scope: Scope, xs: seq<Round>)
    requires CutOk(source, cut) && xs != [] && Series(view, source, cut, scope, xs)
    ensures AllIn(cut.captured, xs[0].progress) && |xs| <= RowsLeft(cut.captured, ScanScope(view.plan, scope), xs[0].progress)
    decreases |xs|
  {
    var x := xs[0];
    assert FellShort(view, source, cut, scope, x);
    StopLeavesLess(view, source, cut, x.call, x.head, x.next, x.r, x.progress);
    if |xs| > 1 {
      assert FellShort(view, source, cut, scope, xs[1]) && xs[1].head == x.next;
      NextFindsNoMore(view, source, cut, x.call, x.head, x.next, x.r, x.progress, xs[1].progress);
      SeriesTail(view, source, cut, scope, xs);
      SeriesEnds(view, source, cut, scope, xs[1..]);
    } else {
      var _ := StopCounts(view, source, cut, x.call, x.head, x.next, x.r, x.progress);
    }
  }

  lemma SeriesTail(view: View, source: Source, cut: Cut, scope: Scope, xs: seq<Round>)
    requires |xs| > 1 && Series(view, source, cut, scope, xs)
    ensures Series(view, source, cut, scope, xs[1..])
  {
  }

  // ---------------------------------------------------------------- when a call completes

  // What loading an artifact takes of the byte budget, at most.
  ghost function Size(c: Captured): nat {
    Max(c.loaded.bytes, c.loaded.decoded)
  }

  // How many artifacts have something left to inspect, and what it takes to load them and to load
  // the others that lack a watermark.
  ghost function DueTo(w: Pass, n: nat): nat
    requires n <= |w.captured|
  {
    if n == 0 then 0 else DueTo(w, n - 1) + if Due(w, n - 1) then 1 else 0
  }

  ghost function DueSize(w: Pass, n: nat): nat
    requires n <= |w.captured|
  {
    if n == 0 then 0 else DueSize(w, n - 1) + if Due(w, n - 1) then Size(w.captured[n - 1]) else 0
  }

  ghost predicate Bare(w: Pass, i: nat)
    requires i < |w.captured|
  {
    !Due(w, i) && Unstamped(w.progress, w.captured[i].pub.key)
  }

  ghost function BareSize(w: Pass, i: nat): nat
    requires i <= |w.captured|
    decreases |w.captured| - i
  {
    if i == |w.captured| then 0 else (if Bare(w, i) then Size(w.captured[i]) else 0) + BareSize(w, i + 1)
  }

  ghost predicate Loads64(w: Pass, i: nat)
    requires i < |w.captured|
  {
    && w.captured[i].loaded.sound && Size(w.captured[i]) <= MAX_ARTIFACT_BYTES
    && (w.causal ==> EndOf(w.captured[i].pub.artifact) <= U64_MAX)
  }

  // The budgets cover all there is to do, every artifact can be read, and nothing tells the pass to stop.
  ghost predicate Ample(w: Pass) {
    && Runnable(w) && AllIn(w.captured, w.progress) && true !in w.stops && Positive(w.budget)
    && DueTo(w, |w.captured|) <= w.budget.batchLimit
    && LeftTo(w, |w.captured|) <= Min(w.budget.maxRows, U64_MAX)
    && w.charged + DueSize(w, |w.captured|) + BareSize(w, 0) < w.budget.maxBytes
    && (forall i :: 0 <= i < |w.captured| ==> Loads64(w, i))
  }

  // What an artifact has left is one stretch of rows.
  ghost predicate OneGap(scan: Spans) {
    exists lo: nat, hi: nat :: IsGap(scan, lo, hi)
  }

  ghost predicate IsGap(scan: Spans, lo: nat, hi: nat) {
    lo <= hi <= scan.total && forall o: nat :: o < scan.total ==> (o in Ordinals(scan) <==> !(lo <= o < hi))
  }

  ghost predicate OneGapTo(w: Pass, n: nat) {
    n <= |w.captured| && AllIn(w.captured, w.progress)
    && forall i :: 0 <= i < n ==> GapAt(w, i)
  }

  // With enough rows to spend, the interval taken is all that is left exactly when that is one stretch.
  lemma TakesAll(p: Progress, scan: Scope, order: Order, limit: nat)
    requires Valid(p) && !Full(Scan(p, scan)) && limit > 0
    requires p.applied.total - |Ordinals(Scan(p, scan))| <= limit
    ensures var c, left := Chosen(p, scan, order, limit), p.applied.total - |Ordinals(Scan(p, scan))|;
            c.hi - c.lo <= left && (c.hi - c.lo == left <==> OneGap(Scan(p, scan)))
  {
    ChosenIsChoice(p, scan, order, limit);
    ChoiceTakesAll(Scan(p, scan), order, limit, Chosen(p, scan, order, limit));
  }

  lemma ChoiceTakesAll(s: Spans, order: Order, limit: nat, c: Span)
    requires Canonical(s) && s.total - |Ordinals(s)| <= limit
    requires Uncovered(s, c) && c.hi <= c.lo + limit && Extreme(s, order, limit, c)
    ensures c.hi - c.lo <= s.total - |Ordinals(s)| && (c.hi - c.lo == s.total - |Ordinals(s)| <==> OneGap(s))
  {
    var rest := Interval(0, s.total) - Ordinals(s);
    RestSize(s, rest);
    IntervalSize(c.lo, c.hi);
    assert Interval(c.lo, c.hi) <= rest;
    SubsetSize(Interval(c.lo, c.hi), rest);
    if OneGap(s) {
      var lo: nat, hi: nat :| IsGap(s, lo, hi);
      GapIsRest(s, lo, hi, rest);
      ChoiceIsGap(s, order, limit, c, lo, hi);
    } else if Interval(c.lo, c.hi) == rest {
      RestIsGap(s, c, rest);
    }
  }

  lemma RestIsGap(s: Spans, c: Span, rest: set<nat>)
    requires c.lo <= c.hi <= s.total && rest == Interval(0, s.total) - Ordinals(s) == Interval(c.lo, c.hi)
    ensures OneGap(s)
  {
    forall o: nat | o < s.total ensures o in Ordinals(s) <==> !(c.lo <= o < c.hi) {
      assert o in Interval(0, s.total);
      assert o in rest <==> o in Interval(c.lo, c.hi);
    }
    assert IsGap(s, c.lo, c.hi);
  }

  lemma RestSize(s: Spans, rest: set<nat>)
    requires Canonical(s) && rest == Interval(0, s.total) - Ordinals(s)
    ensures |rest| == s.total - |Ordinals(s)|
  {
    IntervalSize(0, s.total);
    assert Ordinals(s) <= Interval(0, s.total);
    assert Interval(0, s.total) == rest + Ordinals(s) && rest * Ordinals(s) == {};
  }

  lemma GapIsRest(s: Spans, lo: nat, hi: nat, rest: set<nat>)
    requires IsGap(s, lo, hi) && rest == Interval(0, s.total) - Ordinals(s)
    ensures Interval(lo, hi) == rest && |rest| == hi - lo
  {
    IntervalSize(lo, hi);
  }

  lemma ChoiceIsGap(s: Spans, order: Order, limit: nat, c: Span, lo: nat, hi: nat)
    requires IsGap(s, lo, hi) && hi - lo <= limit && Uncovered(s, c) && c.hi <= c.lo + limit && Extreme(s, order, limit, c)
    ensures c == Span(lo, hi)
  {
    assert c.lo in Interval(c.lo, c.hi) && c.hi - 1 in Interval(c.lo, c.hi);
    assert c.lo !in Ordinals(s) && c.hi - 1 !in Ordinals(s);
    assert lo !in Ordinals(s) && hi - 1 !in Ordinals(s);
  }

  lemma {:induction false} LeftGrows(w: Pass, a: nat, b: nat)
    requires Runnable(w) && AllIn(w.captured, w.progress) && a <= b <= |w.captured|
    ensures LeftTo(w, a) <= LeftTo(w, b) && (LeftTo(w, a) == LeftTo(w, b) <==> NotDue(w, a, b))
    decreases b
  {
    if a < b {
      LeftGrows(w, a, b - 1);
      LeftAtPlace(w, b - 1);
    }
  }

  ghost predicate NotDue(w: Pass, a: nat, b: nat)
    requires b <= |w.captured|
  {
    forall i :: a <= i < b ==> !Due(w, i)
  }

  lemma {:induction false} DueGrows(w: Pass, a: nat, b: nat)
    requires a <= b <= |w.captured|
    ensures DueTo(w, a) <= DueTo(w, b) && DueSize(w, a) <= DueSize(w, b)
    ensures DueTo(w, a) == DueTo(w, b) ==> NotDue(w, a, b)
    ensures a < b && Due(w, a) ==> DueSize(w, a) + Size(w.captured[a]) <= DueSize(w, b)
    decreases b
  {
    if a < b {
      DueGrows(w, a, b - 1);
    }
  }

  // The course of an ample pass takes all that is left of each artifact it comes to, if that is one
  // stretch.
  lemma {:induction false} AmpleRows(w: Pass, n: nat)
    requires Ample(w) && n <= |w.captured|
    ensures CourseTo(w, n).rows <= LeftTo(w, n) && (CourseTo(w, n).rows == LeftTo(w, n) <==> OneGapTo(w, n))
    decreases n
  {
    if n > 0 {
      var i: nat := n - 1;
      AmpleRows(w, i);
      CourseStep(w, i, n);
      AmpleTurn(w, i, CourseTo(w, i));
      LeftAtPlace(w, i);
      GapStep(w, i, n);
    }
  }

  ghost predicate GapAt(w: Pass, i: nat)
    requires i < |w.captured| && AllIn(w.captured, w.progress)
  {
    Due(w, i) ==> OneGap(Scan(w.progress[w.captured[i].pub.key], w.scan))
  }

  lemma GapStep(w: Pass, i: nat, j: nat)
    requires j == i + 1 <= |w.captured| && AllIn(w.captured, w.progress)
    ensures OneGapTo(w, j) <==> OneGapTo(w, i) && GapAt(w, i)
  {
  }

  lemma AmpleTurn(w: Pass, i: nat, c: Course)
    requires Ample(w) && i < |w.captured| && c.rows <= LeftTo(w, i) && c.rows <= w.budget.maxRows
    ensures Due(w, i) ==> c.rows < w.budget.maxRows
    ensures Next(w, i, c).rows <= c.rows + LeftIn(w, i) && (Next(w, i, c).rows == c.rows + LeftIn(w, i) <==> GapAt(w, i))
  {
    LeftAtPlace(w, i);
    if Due(w, i) {
      LeftGrows(w, i + 1, |w.captured|);
      var rows: nat := w.budget.maxRows - c.rows;
      TakesAll(w.progress[w.captured[i].pub.key], w.scan, w.order, rows);
      NextIs(w, i, c, rows);
    }
  }

  // It loads every artifact that has something left.
  lemma {:induction false} AmpleLoads(w: Pass, n: nat)
    requires Ample(w) && n <= |w.captured|
    ensures |CourseTo(w, n).stages| == DueTo(w, n) && CourseTo(w, n).bytes <= w.charged + DueSize(w, n)
    decreases n
  {
    if n > 0 {
      var i: nat := n - 1;
      AmpleLoads(w, i);
      AmpleNext(w, i, n, CourseTo(w, i));
    }
  }

  lemma AmpleNext(w: Pass, i: nat, j: nat, c: Course)
    requires Ample(w) && j == i + 1 <= |w.captured| && c == CourseTo(w, i)
    ensures if Due(w, i) then |CourseTo(w, j).stages| == |c.stages| + 1 && CourseTo(w, j).bytes == c.bytes + w.captured[i].loaded.bytes
            else CourseTo(w, j) == c
    ensures c.stages <= CourseTo(w, j).stages && (Due(w, i) ==> HasStage(CourseTo(w, j).stages, w.captured[i].pub.key))
  {
    AmpleRows(w, i);
    CourseStep(w, i, j);
    AmpleTurn(w, i, c);
    NextIs(w, i, c, w.budget.maxRows - c.rows);
    if Due(w, i) {
      assert CourseTo(w, j).stages[|c.stages|].key == w.captured[i].pub.key;
    }
  }

  lemma {:induction false} AmpleStages(w: Pass, n: nat, i: nat)
    requires Ample(w) && i < n <= |w.captured| && Due(w, i)
    ensures HasStage(CourseTo(w, n).stages, w.captured[i].pub.key)
    decreases n
  {
    AmpleNext(w, n - 1, n, CourseTo(w, n - 1));
    if i < n - 1 {
      AmpleStages(w, n - 1, i);
      StageStays(CourseTo(w, n - 1), CourseTo(w, n), w.captured[i].pub.key);
    }
  }

  lemma StageStays(c: Course, d: Course, k: Key)
    requires HasStage(c.stages, k) && c.stages <= d.stages
    ensures HasStage(d.stages, k)
  {
    var j :| 0 <= j < |c.stages| && c.stages[j].key == k;
    assert d.stages[j].key == k;
  }

  // An ample pass does not fail, and ends with nothing due behind it.
  lemma AmpleDoesNotBreak(plan: Plan, source: Source, w: Pass, n: nat, error: UnitError)
    requires PassOk(source, w) && Ample(w)
    ensures !Breaks(plan, w, n, error)
  {
    if Breaks(plan, w, n, error) {
      AmpleLoads(w, n);
      DueGrows(w, n, |w.captured|);
      var k, x := w.captured[n].pub.key, Taken(w, n);
      assert CapturedOk(source, w.progress, w.captured[n]) && Loads64(w, n);
      ChosenIsChoice(w.progress[k], w.scan, w.order, w.budget.maxRows - CourseTo(w, n).rows);
      SmallOffsets(plan, w.scan, w.causal, k, w.captured[n].pub.artifact, w.progress[k], x);
    }
  }

  lemma SmallOffsets(plan: Plan, scan: Scope, causal: bool, k: Key, a: Artifact, p: Progress, x: Span)
    requires x.hi <= a.len && (causal ==> EndOf(a) <= U64_MAX)
    ensures InRange(plan, scan, causal, k, a.start, p, x)
  {
  }

  lemma AmpleEnds(plan: Plan, w: Pass, n: nat)
    requires Ample(w) && Ends(plan, w, n)
    ensures NotDue(w, n, |w.captured|)
  {
    AmpleLoads(w, n);
    DueGrows(w, n, |w.captured|);
  }

  // What then lacks a watermark can be loaded with the bytes left.
  lemma {:induction false} BareIsAffordable(w: Pass, current: Progresses, i: nat, left: int)
    requires Ample(w) && i <= |w.captured| && BareSize(w, i) <= left
    requires forall j :: 0 <= j < |w.captured| && Unstamped(current, w.captured[j].pub.key) ==> Bare(w, j)
    ensures Affordable(w.captured, current, i, left)
    decreases |w.captured| - i
  {
    if i < |w.captured| {
      assert Loads64(w, i);
      BareIsAffordable(w, current, i + 1, if Unstamped(current, w.captured[i].pub.key) then left - w.captured[i].loaded.bytes else left);
    }
  }

  lemma AmpleSeals(plan: Plan, source: Source, w: Pass, n: nat, out: Inspection, left: nat)
    requires Ample(w) && Ends(plan, w, n) && Ran(plan, source, w, CourseTo(w, n), out) && left == w.budget.maxBytes - out.bytes
    ensures Affordable(w.captured, out.progress, 0, left)
  {
    AmpleEnds(plan, w, n);
    AmpleLoads(w, n);
    DueGrows(w, n, |w.captured|);
    forall j | 0 <= j < |w.captured| && Unstamped(out.progress, w.captured[j].pub.key) ensures Bare(w, j) {
      if Due(w, j) {
        AmpleStages(w, n, j);
      }
    }
    BareIsAffordable(w, out.progress, 0, left);
  }

  // An ample pass leaves nothing exactly when each artifact had one stretch left.
  lemma AmpleLeaves(plan: Plan, source: Source, w: Pass, n: nat, out: Inspection)
    requires Ample(w) && Ends(plan, w, n) && Ran(plan, source, w, CourseTo(w, n), out)
    ensures 0 <= RowsLeft(w.captured, w.scan, out.progress) <= U64_MAX
    ensures RowsLeft(w.captured, w.scan, out.progress) == 0 <==> OneGapTo(w, |w.captured|)
  {
    RanLeft(plan, source, w, CourseTo(w, n), out);
    AmpleEnds(plan, w, n);
    AmpleRows(w, n);
    LeftGrows(w, n, |w.captured|);
    assert OneGapTo(w, |w.captured|) <==> OneGapTo(w, n);
  }

  lemma AmpleSettles(view: View, source: Source, cut: Cut, call: Call, w: Pass, head: Option<Header>, next: Option<Header>, n: nat,
                     out: Inspection, r: Result<Outcome, SourceError>)
    requires Ample(w) && w.captured == cut.captured && w.scan == ScanScope(view.plan, call.scope) && w.budget == call.budget
    requires Ends(view.plan, w, n) && Ran(view.plan, source, w, CourseTo(w, n), out)
    requires Settled(view, source, cut, call, head, out, next, r) && call.env.commit == NoFault && call.env.finish == NoFault
    ensures r.Ok? && (r.value.complete <==> OneGapTo(w, |w.captured|))
  {
    AmpleLeaves(view.plan, source, w, n, out);
    var left: nat := call.budget.maxBytes - out.bytes;
    AmpleSeals(view.plan, source, w, n, out, left);
    CalmSettles(view, source, cut, call, head, out, left, next, r);
  }

  lemma CalmSettles(view: View, source: Source, cut: Cut, call: Call, head: Option<Header>, out: Inspection, left: nat,
                    next: Option<Header>, r: Result<Outcome, SourceError>)
    requires AllIn(cut.captured, out.progress) && Settled(view, source, cut, call, head, out, next, r)
    requires call.env.commit == NoFault && call.env.finish == NoFault
    requires 0 <= RowsLeft(cut.captured, ScanScope(view.plan, call.scope), out.progress) <= U64_MAX
    requires left == call.budget.maxBytes - out.bytes && Affordable(cut.captured, out.progress, 0, left)
    ensures r.Ok? && (r.value.complete <==> RowsLeft(cut.captured, ScanScope(view.plan, call.scope), out.progress) == 0)
  {
  }

  // Without faults, without being told to stop and with budgets that cover what is left, a call
  // succeeds. It completes exactly when no artifact has two separate stretches of rows left: a call
  // takes one interval of each.
  lemma AmpleCallSucceeds(view: View, source: Source, cut: Cut, call: Call, head: Option<Header>, next: Option<Header>,
                          r: Result<Outcome, SourceError>, progress: Progresses)
    requires CutOk(source, cut) && HeadOk(view.plan, source, cut.ends, head) && Answered(view, source, cut, call, head, next, r)
    requires Authentic(SnapshotOf(head, cut), RequestOf(view, call.scope), call.budget.maxBytes)
    requires Reread(source, cut, ScanScope(view.plan, call.scope), head, progress)
    requires Ample(PassOf(view, cut, call, head, progress)) && call.env.commit == NoFault && call.env.finish == NoFault
    ensures r.Ok?
    ensures r.value.complete <==>
      CompleteDemand(SnapshotOf(head, cut), RequestOf(view, call.scope)) || OneGapTo(PassOf(view, cut, call, head, progress), |cut.captured|)
  {
    var scan, w := ScanScope(view.plan, call.scope), PassOf(view, cut, call, head, progress);
    if !CompleteDemand(SnapshotOf(head, cut), RequestOf(view, call.scope)) {
      var p :| Reread(source, cut, scan, head, p) && Passed(view, source, cut, call, PassOf(view, cut, call, head, p), head, next, r);
      RereadIsUnique(source, cut, scan, head, p, progress);
      ReconciledOk(source, FrontierAt(head), ProgressOf(head), scan, progress);
      PassIsOk(view, source, cut, call, head, progress);
      AmplePasses(view, source, cut, call, w, head, next, r);
    }
  }

  lemma AmplePasses(view: View, source: Source, cut: Cut, call: Call, w: Pass, head: Option<Header>, next: Option<Header>,
                    r: Result<Outcome, SourceError>)
    requires PassOk(source, w) && Ample(w) && w.scan == ScanScope(view.plan, call.scope) && w.budget == call.budget
    requires Passed(view, source, cut, call, w, head, next, r) && call.env.commit == NoFault && call.env.finish == NoFault
    ensures r.Ok? && (r.value.complete <==> OneGapTo(w, |w.captured|))
  {
    if Failing(r) {
      var n := Failure(view, source, cut, call, w, head, next, r);
      AmpleDoesNotBreak(view.plan, source, w, n, r.error.unit);
    } else {
      var n, out := Ending(view, source, cut, call, w, head, next, r);
      AmpleSettles(view, source, cut, call, w, head, next, n, out, r);
    }
  }
}
