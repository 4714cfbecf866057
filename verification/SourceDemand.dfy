/**
 One physical-source request from end to end (`materialize_source_demand` in
 crates/velorix-api/src/demand_materialization.rs): reading and reconciling the head, the
 certificate, the inspection loop, its commit, the count of what is left, reauthenticating
 watermarks, and the commit that certifies the scope and moves the frontiers.
 */
module SourceDemand {
  import opened Wrappers
  import opened Spans
  import opened Batches
  import opened Staging
  import opened Coverage
  import opened Requests
  import opened SourceUnit
  import opened SourcePass
  import opened Preflight
  import D = DemandRuns

  datatype View = View(plan: Plan, identity: string, causal: bool)

  // The captured artifacts in the order of the loop, and the committed offsets of the cut.
  datatype Cut = Cut(captured: seq<Captured>, ends: map<Partition, nat>)

  // What the environment does to a request: where the loop must stop, what becomes of its two
  // commits, and the sizes of the headers they write.
  datatype Turnout = Turnout(stops: seq<bool>, commit: Fault, finish: Fault, commitBytes: nat, finishBytes: nat)

  // One call: what is asked for, within what, and in which environment.
  datatype Call = Call(scope: Scope, order: Order, budget: Budget, env: Turnout)

  datatype SourceError =
    | InvalidBudget
    | Unread(lease: LeaseError)
    | Unloaded(unit: UnitError)
    | CommitFailed
    | Overflow
    | Unsealed(unit: UnitError)
    | FinishFailed

  function Pubs(captured: seq<Captured>): (pubs: seq<Publication>)
    ensures |pubs| == |captured| && forall i :: 0 <= i < |pubs| ==> pubs[i] == captured[i].pub
  {
    seq(|captured|, i requires 0 <= i < |captured| => captured[i].pub)
  }

  function SnapshotOf(head: Option<Header>, cut: Cut): Snapshot {
    Snapshot(head, Pubs(cut.captured))
  }

  function RequestOf(view: View, scope: Scope): Request {
    Request(view.identity, scope, scope.Some? && view.plan.narrow(scope))
  }

  // The cut is the whole source, with what the loader finds for each artifact.
  ghost predicate CutOk(source: Source, cut: Cut) {
    && SourceOk(source, cut.ends) && PublicationsOk(source, Pubs(cut.captured)) && Keys(Pubs(cut.captured)) == source.Keys
    && forall i :: 0 <= i < |cut.captured| ==> RowsOk(cut.captured[i])
  }

  ghost predicate RowsOk(c: Captured) {
    |Flatten(c.loaded.batches)| == c.pub.artifact.len && IsArtifact(c.pub.key, Flatten(c.loaded.batches))
  }

  // ---------------------------------------------------------------- what a header stands for

  ghost function Meaning(saved: Saved): Demand {
    Demand(Abs(saved.progress), saved.full, saved.certs)
  }

  ghost function RecordOf(head: Option<Header>): Option<Record> {
    if head.None? then None
    else
      var h := head.value;
      Some(Record(h.epoch, if h.demand.None? then None else Some(Meaning(h.demand.value)), h.frontier, h.state))
  }

  function StateOf(head: Option<Header>): multiset<RowId> {
    if head.None? then multiset{} else head.value.state
  }

  function FrontierAt(head: Option<Header>): map<Partition, nat> {
    if head.None? then map[] else head.value.frontier
  }

  function ProgressOf(head: Option<Header>): Progresses {
    if head.Some? && head.value.demand.Some? then head.value.demand.value.progress else map[]
  }

  ghost function MetaOf(source: Source, ends: map<Partition, nat>, head: Option<Header>): D.Meta {
    D.Meta(source, ends, RecordOf(head), 0, map[])
  }

  ghost predicate HeadOk(plan: Plan, source: Source, ends: map<Partition, nat>, head: Option<Header>) {
    RecordOk(plan, source, ends, D.Base(RecordOf(head))) && ProgressOk(source, ProgressOf(head))
  }

  // The next header: this progress, these rows folded in, these frontiers installed.
  function NextHeader(head: Option<Header>, identity: string, bytes: nat, saved: Saved, install: map<Partition, nat>,
                      fed: seq<RowId>): Header
  {
    var epoch := if head.Some? then head.value.epoch else 0;
    Header(identity, bytes, epoch + 1, FrontierAt(head) + install, Some(saved), StateOf(head) + multiset(fed))
  }

  // A header is a candidate that a run of `DemandRuns` may publish: one unit over the head.
  lemma NextIsCandidate(head: Option<Header>, identity: string, bytes: nat, saved: Saved, install: map<Partition, nat>, fed: seq<RowId>)
    ensures var unit := D.Unit(Meaning(saved), multiset(fed), install);
            RecordOf(Some(NextHeader(head, identity, bytes, saved, install, fed)))
            == Some(D.CandidateOf(RecordOf(head), unit, D.ResidentOf(D.Base(RecordOf(head)))))
  {
  }

  lemma NextIsOk(plan: Plan, source: Source, ends: map<Partition, nat>, head: Option<Header>, identity: string, bytes: nat,
                 saved: Saved, install: map<Partition, nat>, fed: seq<RowId>)
    requires D.Fits(plan, MetaOf(source, ends, head), Meaning(saved), multiset(fed), install) && ProgressOk(source, saved.progress)
    ensures HeadOk(plan, source, ends, Some(NextHeader(head, identity, bytes, saved, install, fed)))
  {
    NextIsCandidate(head, identity, bytes, saved, install, fed);
    D.ApplyKeeps(plan, MetaOf(source, ends, head), RecordOf(head), D.Unit(Meaning(saved), multiset(fed), install));
  }

  // ---------------------------------------------------------------- reading and staging

  // The progress of a request, with nothing of it committed yet, would be a sound head.
  ghost predicate Ready(plan: Plan, source: Source, ends: map<Partition, nat>, head: Option<Header>, progress: Progresses,
                        certs: map<Scope, set<Key>>) {
    && ProgressOk(source, progress) && D.MetaOk(plan, MetaOf(source, ends, head))
    && D.Fits(plan, MetaOf(source, ends, head), Demand(Abs(progress), false, certs), multiset{}, map[])
  }

  lemma ReadIsReady(view: View, source: Source, cut: Cut, head: Option<Header>, scope: Scope, progress: Progresses)
    requires CutOk(source, cut) && HeadOk(view.plan, source, cut.ends, head)
    requires Reconciled(source, FrontierOf(SnapshotOf(head, cut)), SavedOf(SnapshotOf(head, cut)).progress, source.Keys,
                        ScanScope(view.plan, scope), progress)
    ensures Ready(view.plan, source, cut.ends, head, progress, SavedOf(SnapshotOf(head, cut)).certs)
    ensures source.Keys <= progress.Keys
  {
    var s := SnapshotOf(head, cut);
    ReconciledOk(source, FrontierOf(s), ProgressOf(head), ScanScope(view.plan, scope), progress);
    ReconciledIsReconcile(source, FrontierOf(s), ProgressOf(head), source.Keys, ScanScope(view.plan, scope), progress);
    HeadTable(head);
    D.ReadKeeps(view.plan, MetaOf(source, cut.ends, head), scope);
  }

  lemma HeadTable(head: Option<Header>)
    ensures TableOf(D.Base(RecordOf(head))) == Abs(ProgressOf(head))
  {
    assert Abs(map[]) == map[];
  }

  lemma ReconciledOk(source: Source, frontier: map<Partition, nat>, saved: Progresses, scan: Scope, progress: Progresses)
    requires ProgressOk(source, saved) && Reconciled(source, frontier, saved, source.Keys, scan, progress)
    ensures ProgressOk(source, progress) && source.Keys <= progress.Keys
  {
    forall k
      ensures k in progress ==> k in source && Valid(progress[k]) && progress[k].applied.total == source[k].len
      ensures k in source ==> k in progress
    {
      assert ReconciledAt(source, frontier, saved, source.Keys, scan, progress, k);
    }
  }

  lemma StagedFits(plan: Plan, source: Source, ends: map<Partition, nat>, head: Option<Header>, progress: Progresses,
                   certs: map<Scope, set<Key>>, scan: Scope, stages: seq<Stage>, out: Inspection, budget: Budget, charged: nat)
    requires Ready(plan, source, ends, head, progress, certs)
    requires LoopOk(plan, source, scan, Abs(progress), stages, out, budget, charged)
    ensures D.Fits(plan, MetaOf(source, ends, head), Demand(Abs(out.progress), false, certs), multiset(RunRows(out.inputs)), map[])
    ensures out.units == 0 ==> Ready(plan, source, ends, head, out.progress, certs)
  {
    D.WorkKeeps(plan, MetaOf(source, ends, head), Demand(Abs(progress), false, certs), scan, stages);
  }

  lemma CommittedIsReady(plan: Plan, source: Source, ends: map<Partition, nat>, head: Option<Header>)
    requires SourceOk(source, ends) && HeadOk(plan, source, ends, head) && head.Some? && head.value.demand.Some?
    ensures Ready(plan, source, ends, head, head.value.demand.value.progress, head.value.demand.value.certs)
  {
    D.ReReadKeeps(plan, MetaOf(source, ends, head), Meaning(head.value.demand.value));
  }

  // ---------------------------------------------------------------- finishing

  // Every row of the cut is applied.
  method AllComplete(ghost source: Source, captured: seq<Captured>, progress: Progresses) returns (full: bool)
    requires ProgressOk(source, progress) && Keys(Pubs(captured)) == source.Keys
    requires forall i :: 0 <= i < |captured| ==> captured[i].pub.key in progress
    ensures full <==> AppliedAll(source, Abs(progress), source.Keys)
  {
    var i := 0;
    while i < |captured|
      invariant 0 <= i <= |captured|
      invariant forall j :: 0 <= j < i ==> Complete(source, Abs(progress), captured[j].pub.key)
    {
      var k := captured[i].pub.key;
      KeysToContains(Pubs(captured), |captured|, k);
      CompleteIsApplied(source, progress, k);
      if !IsComplete(progress[k].applied) {
        return false;
      }
      i := i + 1;
    }
    forall k | k in source ensures Complete(source, Abs(progress), k) {
      KeysToContains(Pubs(captured), |captured|, k);
    }
    return true;
  }

  lemma CompleteIsApplied(source: Source, progress: Progresses, k: Key)
    requires ProgressOk(source, progress) && k in progress
    ensures IsComplete(progress[k].applied) <==> Complete(source, Abs(progress), k)
  {
    CompleteMeansAll(progress[k].applied);
    assert forall o: nat :: o < source[k].len <==> o in Interval(0, source[k].len);
  }

  // The artifacts from the `i`th on that still lack a watermark can be loaded one after the
  // other with the bytes left.
  ghost predicate Affordable(captured: seq<Captured>, progress: Progresses, i: nat, left: int)
    requires i <= |captured|
    decreases |captured| - i
  {
    || i == |captured|
    || (if Unstamped(progress, captured[i].pub.key) then
          && Loadable(captured[i].loaded, left)
          && Affordable(captured, progress, i + 1, left - captured[i].loaded.bytes)
        else Affordable(captured, progress, i + 1, left))
  }

  // The first of them that cannot be loaded says why.
  ghost predicate Unaffordable(captured: seq<Captured>, progress: Progresses, i: nat, left: int, error: UnitError)
    requires i <= |captured|
    decreases |captured| - i
  {
    && i < |captured|
    && (if !Unstamped(progress, captured[i].pub.key) then Unaffordable(captured, progress, i + 1, left, error)
        else if Loadable(captured[i].loaded, left) then Unaffordable(captured, progress, i + 1, left - captured[i].loaded.bytes, error)
        else LoadError(captured[i].loaded, left, error))
  }

  // The bytes that loading them takes.
  ghost function StampBytes(captured: seq<Captured>, progress: Progresses, i: nat): nat
    requires i <= |captured|
    decreases |captured| - i
  {
    if i == |captured| then 0
    else (if Unstamped(progress, captured[i].pub.key) then captured[i].loaded.bytes else 0) + StampBytes(captured, progress, i + 1)
  }

  // The watermarks of the first `n` artifacts are there, and nothing but watermarks changed.
  ghost predicate Stamped(captured: seq<Captured>, n: nat, progress: Progresses, current: Progresses) {
    && current.Keys == progress.Keys
    && (forall k :: k in progress ==> current[k] == progress[k].(watermark := current[k].watermark))
    && (forall i :: 0 <= i < n <= |captured| ==> !Unstamped(current, captured[i].pub.key))
    && (forall i :: n <= i < |captured| && captured[i].pub.key in progress ==>
          current[captured[i].pub.key] == progress[captured[i].pub.key])
  }

  // Loads every artifact that lacks a watermark, within the bytes left. It succeeds exactly when
  // they are affordable, all in this one request, and is charged for exactly those.
  method Reauthenticate(captured: seq<Captured>, progress: Progresses, left: nat) returns (r: Result<(Progresses, nat), UnitError>)
    requires Distinct(captured) && AllIn(captured, progress)
    ensures r.Ok? <==> Affordable(captured, progress, 0, left)
    ensures r.Ok? ==> r.value.1 == StampBytes(captured, progress, 0) <= left && Stamped(captured, |captured|, progress, r.value.0)
    ensures r.Err? ==> Unaffordable(captured, progress, 0, left, r.error)
  {
    var current, used, i := progress, 0, 0;
    while i < |captured|
      invariant 0 <= i <= |captured| && 0 <= used <= left
      invariant Stamped(captured, i, progress, current)
      invariant used + StampBytes(captured, progress, i) == StampBytes(captured, progress, 0)
      invariant Affordable(captured, progress, 0, left) <==> Affordable(captured, progress, i, left - used)
      invariant forall e :: Unaffordable(captured, progress, i, left - used, e) ==> Unaffordable(captured, progress, 0, left, e)
    {
      var c := captured[i];
      if Unstamped(current, c.pub.key) {
        var failed := Load(c.loaded, left - used);
        if failed.Some? {
          return Err(failed.value);
        }
        used := used + c.loaded.bytes;
        current := current[c.pub.key := current[c.pub.key].(watermark := Some(c.loaded.watermark))];
      }
      i := i + 1;
    }
    r := Ok((current, used));
  }

  lemma StampedMeansSame(source: Source, captured: seq<Captured>, n: nat, progress: Progresses, current: Progresses)
    requires Stamped(captured, n, progress, current) && ProgressOk(source, progress)
    ensures Abs(current) == Abs(progress) && ProgressOk(source, current) && SameIdentity(progress, current)
  {
    forall k | k in progress ensures Abs(current)[k] == Abs(progress)[k] && Valid(current[k]) {
      assert current[k].applied == progress[k].applied && current[k].inspected == progress[k].inspected;
    }
  }

  lemma MatchKept(pubs: seq<Publication>, progress: Progresses, current: Progresses)
    requires AllMatch(pubs, |pubs|, progress) && progress.Keys == current.Keys && SameIdentity(progress, current)
    ensures AllMatch(pubs, |pubs|, current)
  {
    forall i | 0 <= i < |pubs| ensures Matches(pubs[i], current) {
      MatchesAt(pubs, i, |pubs|, progress);
    }
    MatchAll(pubs, |pubs|, current);
  }

  // Progress ready for the last commit of a scope, whether no row of the cut is missing in it, and
  // the bytes its watermarks took.
  datatype Sealed = Sealed(current: Progresses, full: bool, used: nat)

  ghost predicate SealedOk(source: Source, cut: Cut, progress: Progresses, x: Sealed) {
    && x.current.Keys == progress.Keys && Abs(x.current) == Abs(progress) && ProgressOk(source, x.current)
    && AllMatch(Pubs(cut.captured), |cut.captured|, x.current)
    && (x.full <==> AppliedAll(source, Abs(progress), source.Keys))
    && (x.full ==> forall i :: 0 <= i < |cut.captured| ==> !Unstamped(x.current, cut.captured[i].pub.key))
  }

  // The watermarks are needed when the frontiers are about to move, or always for an operator
  // sensitive to them.
  ghost predicate NeedsStamps(causal: bool, source: Source, progress: Progresses) {
    causal || AppliedAll(source, Abs(progress), source.Keys)
  }

  ghost function SealBytes(causal: bool, source: Source, cut: Cut, progress: Progresses): nat {
    if NeedsStamps(causal, source, progress) then StampBytes(cut.captured, progress, 0) else 0
  }

  // The watermarks that are needed can be read with the bytes left.
  ghost predicate Sealable(causal: bool, source: Source, cut: Cut, progress: Progresses, left: int) {
    NeedsStamps(causal, source, progress) ==> Affordable(cut.captured, progress, 0, left)
  }

  // Reads the missing watermarks that are needed.
  method Seal(view: View, ghost source: Source, cut: Cut, progress: Progresses, left: nat) returns (r: Result<Sealed, UnitError>)
    requires CutOk(source, cut) && ProgressOk(source, progress) && source.Keys <= progress.Keys
    requires AllMatch(Pubs(cut.captured), |cut.captured|, progress)
    ensures r.Ok? <==> Sealable(view.causal, source, cut, progress, left)
    ensures r.Ok? ==> SealedOk(source, cut, progress, r.value) && r.value.used == SealBytes(view.causal, source, cut, progress) <= left
    ensures r.Err? ==> Unaffordable(cut.captured, progress, 0, left, r.error)
  {
    CutKeys(source, cut);
    AllCaptured(source, cut, progress);
    var full := AllComplete(source, cut.captured, progress);
    if !full && !view.causal {
      return Ok(Sealed(progress, full, 0));
    }
    var stamped := Reauthenticate(cut.captured, progress, left);
    if stamped.Err? {
      return Err(stamped.error);
    }
    StampedMeansSame(source, cut.captured, |cut.captured|, progress, stamped.value.0);
    MatchKept(Pubs(cut.captured), progress, stamped.value.0);
    r := Ok(Sealed(stamped.value.0, full, stamped.value.1));
  }

  // A finished scope is what the preflight looks for.
  lemma FinishedIsComplete(view: View, source: Source, cut: Cut, scope: Scope, head: Header, saved: Saved)
    requires CutOk(source, cut) && head.identity == view.identity && head.demand == Some(saved)
    requires scope in saved.certs && saved.certs[scope] == Keys(Pubs(cut.captured))
    requires ProgressOk(source, saved.progress) && TableOk(view.plan, source, Abs(saved.progress))
    requires AllMatch(Pubs(cut.captured), |cut.captured|, saved.progress) && source.Keys <= saved.progress.Keys
    requires InspectedAll(source, Abs(saved.progress), source.Keys, ScanScope(view.plan, scope))
    requires AppliedAll(source, Abs(saved.progress), source.Keys) ==>
      forall i :: 0 <= i < |cut.captured| ==> !Unstamped(saved.progress, cut.captured[i].pub.key)
    ensures CompleteDemand(SnapshotOf(Some(head), cut), RequestOf(view, scope))
  {
    var pubs, q := Pubs(cut.captured), RequestOf(view, scope);
    InspectedMeansMatched(view.plan, source, Abs(saved.progress), source.Keys, scope);
    forall i | 0 <= i < |pubs| ensures Proved(saved, head.frontier, q, pubs[i]) {
      var k := pubs[i].key;
      MatchesAt(pubs, i, |pubs|, saved.progress);
      SeenIsScan(saved.progress[k], ScanOf(q));
      if !q.narrow {
        assert Complete(source, Abs(saved.progress), k);
        CompleteIsApplied(source, saved.progress, k);
        CompleteMeansAll(saved.progress[k].applied);
      }
    }
  }

  // ---------------------------------------------------------------- the request

  // The progress of the head, reconciled with the cut.
  ghost predicate Reread(source: Source, cut: Cut, scan: Scope, head: Option<Header>, progress: Progresses) {
    && Reconciled(source, FrontierAt(head), ProgressOf(head), source.Keys, scan, progress)
    && AllMatch(Pubs(cut.captured), |cut.captured|, progress)
  }

  // The pass that a call makes from it.
  function PassOf(view: View, cut: Cut, call: Call, head: Option<Header>, progress: Progresses): Pass {
    Pass(progress, cut.captured, ScanScope(view.plan, call.scope), call.order, view.causal, call.budget,
         HeadBytes(SnapshotOf(head, cut)), call.env.stops)
  }

  // What the loop staged is in the head: its rows are folded in and its progress is recorded.
  ghost predicate Held(head: Option<Header>, out: Inspection, next: Option<Header>) {
    if out.units == 0 then next == head
    else
      && StateOf(next) == StateOf(head) + multiset(RunRows(out.inputs)) && Abs(ProgressOf(next)) == Abs(out.progress)
      && FrontierAt(next) == FrontierAt(head)
  }

  // The scope is certified over what the loop staged.
  ghost predicate CertifiedOver(view: View, source: Source, cut: Cut, scope: Scope, head: Option<Header>, out: Inspection,
                                next: Option<Header>)
  {
    && StateOf(next) == StateOf(head) + multiset(RunRows(out.inputs)) && Abs(ProgressOf(next)) == Abs(out.progress)
    && FrontierMoved(source, head, next) && CompleteDemand(SnapshotOf(next, cut), RequestOf(view, scope))
  }

  // A frontier moves only to where no row of the cut is missing.
  ghost predicate FrontierMoved(source: Source, head: Option<Header>, next: Option<Header>) {
    FrontierAt(next) == FrontierAt(head) || AppliedAll(source, Abs(ProgressOf(next)), source.Keys)
  }

  // How a call is answered after its loop: by a failed commit, by the rows left, or by what becomes
  // of the last commit.
  ghost predicate Settled(view: View, source: Source, cut: Cut, call: Call, head: Option<Header>, out: Inspection, next: Option<Header>,
                          r: Result<Outcome, SourceError>)
    requires AllIn(cut.captured, out.progress)
  {
    var rows := RowsLeft(cut.captured, ScanScope(view.plan, call.scope), out.progress);
    if out.units > 0 && call.env.commit != NoFault then
      r == Err(CommitFailed) && Unanswered(call.env.commit, next == head, Held(head, out, next))
    else if rows > U64_MAX then r == Err(Overflow) && Held(head, out, next)
    else if rows > 0 then r == Ok(Outcome(false, out.units, out.rows, out.bytes, rows)) && Held(head, out, next)
    else Closed(view, source, cut, call, head, out, next, r)
  }

  // Everything is inspected.
  ghost predicate Closed(view: View, source: Source, cut: Cut, call: Call, head: Option<Header>, out: Inspection, next: Option<Header>,
                         r: Result<Outcome, SourceError>) {
    var used := SealBytes(view.causal, source, cut, out.progress);
    && (r.Ok? ==> r.value == Outcome(true, out.units, out.rows, out.bytes + used, 0))
    && LastCommit(view.causal, source, cut, call.env.finish, out.progress, call.budget.maxBytes - out.bytes,
                  Held(head, out, next), CertifiedOver(view, source, cut, call.scope, head, out, next),
                  if r.Ok? then Ok(used) else Err(r.error))
  }

  // What becomes of the last commit of a scope: the watermarks it needs cannot be read, it fails, or
  // the scope is certified.
  ghost predicate LastCommit(causal: bool, source: Source, cut: Cut, fault: Fault, progress: Progresses, left: int, kept: bool,
                             certified: bool, r: Result<nat, SourceError>) {
    if !Sealable(causal, source, cut, progress, left) then
      kept && r.Err? && r.error.Unsealed? && Unaffordable(cut.captured, progress, 0, left, r.error.unit)
    else if fault != NoFault then r == Err(FinishFailed) && Unanswered(fault, kept, certified)
    else r == Ok(SealBytes(causal, source, cut, progress)) && certified
  }

  // How a call is answered from reconciled progress: its pass fails in one place, or ends in one
  // place and what it did is settled.
  ghost predicate Passed(view: View, source: Source, cut: Cut, call: Call, w: Pass, head: Option<Header>, next: Option<Header>,
                         r: Result<Outcome, SourceError>) {
    if Failing(r) then next == head && exists n :: Breaks(view.plan, w, n, r.error.unit)
    else
      exists n, out ::
        && Ends(view.plan, w, n) && Ran(view.plan, source, w, CourseTo(w, n), out)
        && w.captured == cut.captured && Settled(view, source, cut, call, head, out, next, r)
  }

  predicate Failing(r: Result<Outcome, SourceError>) {
    r.Err? && r.error.Unloaded?
  }

  // How a call is answered, and the head it leaves.
  ghost predicate Answered(view: View, source: Source, cut: Cut, call: Call, head: Option<Header>, next: Option<Header>,
                           r: Result<Outcome, SourceError>) {
    var s, q := SnapshotOf(head, cut), RequestOf(view, call.scope);
    if !Positive(call.budget) then r == Err(InvalidBudget) && next == head
    else if !Authentic(s, q, call.budget.maxBytes) then r.Err? && r.error.Unread? && next == head
    else if CompleteDemand(s, q) then r == Ok(Outcome(true, 0, 0, HeadBytes(s), 0)) && next == head
    else
      exists progress ::
        && Reread(source, cut, ScanScope(view.plan, call.scope), head, progress)
        && Passed(view, source, cut, call, PassOf(view, cut, call, head, progress), head, next, r)
  }

  lemma CutKeys(source: Source, cut: Cut)
    requires CutOk(source, cut)
    ensures (set k | k in KeysOf(cut.captured)) == source.Keys && Distinct(cut.captured)
    ensures SnapshotOk(source, SnapshotOf(None, cut))
  {
    var pubs := Pubs(cut.captured);
    forall k ensures k in KeysOf(cut.captured) <==> k in source.Keys {
      KeysToContains(pubs, |pubs|, k);
    }
    forall i, j | 0 <= i < j < |cut.captured| ensures cut.captured[i].pub.key != cut.captured[j].pub.key {
      assert pubs[i].key != pubs[j].key;
    }
  }

  lemma AllCaptured(source: Source, cut: Cut, progress: Progresses)
    requires CutOk(source, cut) && source.Keys <= progress.Keys
    ensures AllIn(cut.captured, progress) && forall i :: 0 <= i < |cut.captured| ==> CapturedOk(source, progress, cut.captured[i])
  {
    forall i | 0 <= i < |cut.captured| ensures CapturedOk(source, progress, cut.captured[i]) {
      assert Pubs(cut.captured)[i] == cut.captured[i].pub;
      assert RowsOk(cut.captured[i]);
    }
  }

  // The rows the scope has not inspected; none are left exactly when it has inspected the cut.
  method CountLeft(ghost source: Source, cut: Cut, progress: Progresses, scan: Scope) returns (r: Result<nat, SourceError>)
    requires CutOk(source, cut) && ProgressOk(source, progress) && AllIn(cut.captured, progress)
    ensures if RowsLeft(cut.captured, scan, progress) > U64_MAX then r == Err(Overflow) else r == Ok(RowsLeft(cut.captured, scan, progress))
    ensures RowsLeft(cut.captured, scan, progress) == 0 <==> InspectedAll(source, Abs(progress), source.Keys, scan)
  {
    CutKeys(source, cut);
    RemainingMeans(source, progress, KeysOf(cut.captured), scan);
    var remaining := RemainingRows(source, progress, KeysOf(cut.captured), scan);
    r := if remaining.Err? then Err(Overflow) else Ok(remaining.value);
  }

  class SourceView {
    var head: Option<Header>

    constructor ()
      ensures head == None
    {
      head := None;
    }

    // A view restored from its checkpoint.
    constructor At(h: Option<Header>)
      ensures head == h
    {
      head := h;
    }

    // Commits a header, all of it or nothing. The caller may not learn which.
    method Commit(next: Header, fault: Fault) returns (ok: bool)
      modifies this
      ensures head == if fault == Refused then old(head) else Some(next)
      ensures ok <==> fault == NoFault
    {
      if fault != Refused {
        head := Some(next);
      }
      ok := fault == NoFault;
    }

    // The inspection loop and the commit of what it staged. The head then holds the staged rows;
    // a failure is already the answer.
    method Work(view: View, ghost source: Source, cut: Cut, call: Call, w: Pass, certs: map<Scope, set<Key>>)
      returns (r: Result<Inspection, SourceError>, ghost n: nat)
      requires CutOk(source, cut) && HeadOk(view.plan, source, cut.ends, head)
      requires PassOk(source, w) && w.captured == cut.captured && w.causal == view.causal
      requires Ready(view.plan, source, cut.ends, head, w.progress, certs)
      modifies this
      ensures HeadOk(view.plan, source, cut.ends, head)
      ensures r.Ok? ==> Ends(view.plan, w, n) && Ran(view.plan, source, w, CourseTo(w, n), r.value)
      ensures r.Ok? ==> Held(old(head), r.value, head) && (r.value.units > 0 ==> call.env.commit == NoFault)
      ensures r.Ok? ==> Ready(view.plan, source, cut.ends, head, r.value.progress, certs)
      ensures r.Err? ==> Passed(view, source, cut, call, w, old(head), head, Err(r.error))
    {
      var inspected;
      inspected, n := InspectArtifacts(view.plan, source, FrontierAt(head), w);
      if inspected.Err? {
        return Err(Unloaded(inspected.error)), n;
      }
      var out := inspected.value;
      StagedFits(view.plan, source, cut.ends, head, w.progress, certs, w.scan, CourseTo(w, n).stages, out, w.budget, w.charged);
      if out.units > 0 {
        var ok := CommitStaged(view, source, cut.ends, out, certs, call.env);
        if !ok {
          PassedHere(view, source, cut, call, w, old(head), head, n, out, Err(CommitFailed));
          return Err(CommitFailed), n;
        }
      }
      r := Ok(out);
    }

    // Commits the staged progress and folds in its rows.
    method CommitStaged(view: View, ghost source: Source, ghost ends: map<Partition, nat>, out: Inspection,
                        certs: map<Scope, set<Key>>, env: Turnout) returns (ok: bool)
      requires SourceOk(source, ends) && HeadOk(view.plan, source, ends, head) && ProgressOk(source, out.progress) && out.units > 0
      requires D.Fits(view.plan, MetaOf(source, ends, head), Demand(Abs(out.progress), false, certs), multiset(RunRows(out.inputs)), map[])
      modifies this
      ensures HeadOk(view.plan, source, ends, head)
      ensures ok <==> env.commit == NoFault
      ensures ok ==> Held(old(head), out, head) && Ready(view.plan, source, ends, head, out.progress, certs)
      ensures !ok ==> Unanswered(env.commit, head == old(head), Held(old(head), out, head))
    {
      var saved := Saved(out.progress, false, certs);
      NextIsOk(view.plan, source, ends, head, view.identity, env.commitBytes, saved, map[], RunRows(out.inputs));
      InstallNothing(FrontierAt(head));
      ok := Commit(NextHeader(head, view.identity, env.commitBytes, saved, map[], RunRows(out.inputs)), env.commit);
      if ok {
        CommittedIsReady(view.plan, source, ends, head);
      }
    }

    // Certifies an inspected scope, and moves the frontiers when no row of the cut is missing.
    // Before a frontier moves every watermark is there.
    method Finish(view: View, ghost source: Source, cut: Cut, scope: Scope, env: Turnout,
                  progress: Progresses, certs: map<Scope, set<Key>>, left: nat)
      returns (r: Result<nat, SourceError>)
      requires CutOk(source, cut) && HeadOk(view.plan, source, cut.ends, head)
      requires Ready(view.plan, source, cut.ends, head, progress, certs) && source.Keys <= progress.Keys
      requires AllMatch(Pubs(cut.captured), |cut.captured|, progress)
      requires InspectedAll(source, Abs(progress), source.Keys, ScanScope(view.plan, scope))
      modifies this
      ensures HeadOk(view.plan, source, cut.ends, head)
      ensures Ended(view, source, cut, scope, env, progress, left, old(head), head, r)
    {
      var sealed := Seal(view, source, cut, progress, left);
      if sealed.Err? {
        return Err(Unsealed(sealed.error));
      }
      FinalIsSound(view, source, cut, head, scope, progress, certs, sealed.value, env.finishBytes);
      FinalCertifies(view, source, cut, head, scope, progress, certs, sealed.value, env.finishBytes);
      var next := FinalHeader(view, cut, head, scope, certs, sealed.value, env.finishBytes);
      EndedBy(view, source, cut, scope, env, progress, left, head, next, sealed.value.used);
      var ok := Commit(next, env.finish);
      r := if ok then Ok(sealed.value.used) else Err(FinishFailed);
    }

    // One request. Whatever happens the head stays sound; how the request is answered, and what is
    // then in the head, is determined by the head before, the cut and the call.
    method Materialize(view: View, ghost source: Source, cut: Cut, call: Call) returns (r: Result<Outcome, SourceError>)
      requires CutOk(source, cut) && HeadOk(view.plan, source, cut.ends, head) && |call.env.stops| == |cut.captured|
      modifies this
      ensures HeadOk(view.plan, source, cut.ends, head)
      ensures Answered(view, source, cut, call, old(head), head, r)
    {
      if !Positive(call.budget) {
        return Err(InvalidBudget);
      }
      var s, q := SnapshotOf(head, cut), RequestOf(view, call.scope);
      HeadSnapshot(view.plan, source, cut, head);
      var leased := LeasedCertificate(source, s, q, call.budget.maxBytes);
      if leased.Err? {
        return Err(Unread(leased.error));
      }
      if leased.value.0 {
        return Ok(Outcome(true, 0, 0, HeadBytes(s), 0));
      }
      ReadIsReady(view, source, cut, head, call.scope, leased.value.1);
      r := Leased(view, source, cut, call, leased.value.1);
    }

    // The request once its head is read and reconciled.
    method Leased(view: View, ghost source: Source, cut: Cut, call: Call, progress: Progresses) returns (r: Result<Outcome, SourceError>)
      requires CutOk(source, cut) && HeadOk(view.plan, source, cut.ends, head) && |call.env.stops| == |cut.captured|
      requires HeadBytes(SnapshotOf(head, cut)) <= call.budget.maxBytes && AllMatch(Pubs(cut.captured), |cut.captured|, progress)
      requires Ready(view.plan, source, cut.ends, head, progress, SavedOf(SnapshotOf(head, cut)).certs) && source.Keys <= progress.Keys
      modifies this
      ensures HeadOk(view.plan, source, cut.ends, head)
      ensures Passed(view, source, cut, call, PassOf(view, cut, call, old(head), progress), old(head), head, r)
    {
      var w, certs := PassOf(view, cut, call, head, progress), SavedOf(SnapshotOf(head, cut)).certs;
      PassIsOk(view, source, cut, call, head, progress);
      var worked;
      ghost var n;
      worked, n := Work(view, source, cut, call, w, certs);
      if worked.Err? {
        return Err(worked.error);
      }
      var out := worked.value;
      MatchKept(Pubs(cut.captured), progress, out.progress);
      var left: nat := call.budget.maxBytes - out.bytes;
      ghost var held := head;
      var end := Conclude(view, source, cut, call.scope, call.env, out.progress, certs, left);
      PassedBy(view, source, cut, call, w, old(head), held, head, n, out, left, end);
      r := Report(out, end);
    }

    // Counts what is left and finishes the scope when nothing is.
    method Conclude(view: View, ghost source: Source, cut: Cut, scope: Scope, env: Turnout,
                    progress: Progresses, certs: map<Scope, set<Key>>, left: nat)
      returns (r: Result<(nat, nat), SourceError>)
      requires CutOk(source, cut) && HeadOk(view.plan, source, cut.ends, head)
      requires Ready(view.plan, source, cut.ends, head, progress, certs) && source.Keys <= progress.Keys
      requires AllMatch(Pubs(cut.captured), |cut.captured|, progress) && AllIn(cut.captured, progress)
      modifies this
      ensures HeadOk(view.plan, source, cut.ends, head)
      ensures Concluded(view, source, cut, scope, env, progress, left, old(head), head, r)
    {
      var remaining := CountLeft(source, cut, progress, ScanScope(view.plan, scope));
      if remaining.Err? {
        return Err(Overflow);
      }
      if remaining.value > 0 {
        return Ok((remaining.value, 0));
      }
      var finished := Finish(view, source, cut, scope, env, progress, certs, left);
      r := if finished.Err? then Err(finished.error) else Ok((0, finished.value));
    }
  }

  ghost predicate Ended(view: View, source: Source, cut: Cut, scope: Scope, env: Turnout, progress: Progresses, left: nat,
                        head: Option<Header>, next: Option<Header>, r: Result<nat, SourceError>) {
    LastCommit(view.causal, source, cut, env.finish, progress, left, next == head,
               Certifies(view, source, cut, scope, progress, head, next), r)
  }

  lemma EndedBy(view: View, source: Source, cut: Cut, scope: Scope, env: Turnout, progress: Progresses, left: nat,
                head: Option<Header>, next: Header, used: nat)
    requires Sealable(view.causal, source, cut, progress, left) && used == SealBytes(view.causal, source, cut, progress)
    requires Certifies(view, source, cut, scope, progress, head, Some(next))
    ensures Ended(view, source, cut, scope, env, progress, left, head, if env.finish == Refused then head else Some(next),
                  if env.finish == NoFault then Ok(used) else Err(FinishFailed))
  {
  }

  // The scope is certified and nothing is folded in for it.
  ghost predicate Certifies(view: View, source: Source, cut: Cut, scope: Scope, progress: Progresses, head: Option<Header>,
                            next: Option<Header>) {
    && StateOf(next) == StateOf(head) && Abs(ProgressOf(next)) == Abs(progress) && FrontierMoved(source, head, next)
    && CompleteDemand(SnapshotOf(next, cut), RequestOf(view, scope))
  }

  ghost predicate Concluded(view: View, source: Source, cut: Cut, scope: Scope, env: Turnout, progress: Progresses, left: nat,
                            head: Option<Header>, next: Option<Header>, r: Result<(nat, nat), SourceError>)
    requires AllIn(cut.captured, progress)
  {
    var rows := RowsLeft(cut.captured, ScanScope(view.plan, scope), progress);
    if rows > U64_MAX then r == Err(Overflow) && next == head
    else if rows > 0 then r == Ok((rows, 0)) && next == head
    else
      && rows == 0 && (r.Ok? ==> r.value.0 == 0)
      && Ended(view, source, cut, scope, env, progress, left, head, next, if r.Ok? then Ok(r.value.1) else Err(r.error))
  }

  lemma PassIsOk(view: View, source: Source, cut: Cut, call: Call, head: Option<Header>, progress: Progresses)
    requires CutOk(source, cut) && |call.env.stops| == |cut.captured| && ProgressOk(source, progress) && source.Keys <= progress.Keys
    requires HeadBytes(SnapshotOf(head, cut)) <= call.budget.maxBytes
    ensures PassOk(source, PassOf(view, cut, call, head, progress))
  {
    CutKeys(source, cut);
    AllCaptured(source, cut, progress);
  }

  lemma HeldFolds(plan: Plan, source: Source, w: Pass, c: Course, head: Option<Header>, out: Inspection, held: Option<Header>)
    requires Ran(plan, source, w, c, out) && Held(head, out, held)
    ensures StateOf(held) == StateOf(head) + multiset(RunRows(out.inputs))
  {
  }

  // What a call reports when its loop is over.
  function Report(out: Inspection, end: Result<(nat, nat), SourceError>): Result<Outcome, SourceError> {
    if end.Err? then Err(end.error)
    else Ok(Outcome(end.value.0 == 0, out.units, out.rows, out.bytes + end.value.1, end.value.0))
  }

  lemma SettledBy(view: View, source: Source, cut: Cut, call: Call, head: Option<Header>, held: Option<Header>, next: Option<Header>,
                  out: Inspection, left: nat, end: Result<(nat, nat), SourceError>)
    requires AllIn(cut.captured, out.progress) && left == call.budget.maxBytes - out.bytes
    requires Held(head, out, held) && (out.units > 0 ==> call.env.commit == NoFault)
    requires StateOf(held) == StateOf(head) + multiset(RunRows(out.inputs))
    requires Concluded(view, source, cut, call.scope, call.env, out.progress, left, held, next, end)
    ensures Settled(view, source, cut, call, head, out, next, Report(out, end)) && !Failing(Report(out, end))
  {
    if RowsLeft(cut.captured, ScanScope(view.plan, call.scope), out.progress) == 0 {
      ClosedBy(view, source, cut, call, head, held, next, out, left, if end.Ok? then Ok(end.value.1) else Err(end.error));
    }
  }

  lemma ClosedBy(view: View, source: Source, cut: Cut, call: Call, head: Option<Header>, held: Option<Header>, next: Option<Header>,
                 out: Inspection, left: nat, end: Result<nat, SourceError>)
    requires Held(head, out, held) && left == call.budget.maxBytes - out.bytes
    requires StateOf(held) == StateOf(head) + multiset(RunRows(out.inputs))
    requires Ended(view, source, cut, call.scope, call.env, out.progress, left, held, next, end)
    ensures Closed(view, source, cut, call, head, out, next, Report(out, if end.Ok? then Ok((0, end.value)) else Err(end.error)))
  {
    var certified := Certifies(view, source, cut, call.scope, out.progress, held, next);
    if certified {
      CertifiesOver(view, source, cut, call.scope, head, held, next, out);
    }
    LastCommitToo(view.causal, source, cut, call.env.finish, out.progress, left, next == held, certified,
                  Held(head, out, next), CertifiedOver(view, source, cut, call.scope, head, out, next), end);
  }

  lemma LastCommitToo(causal: bool, source: Source, cut: Cut, fault: Fault, progress: Progresses, left: nat, kept: bool, certified: bool,
                      kept': bool, certified': bool, r: Result<nat, SourceError>)
    requires LastCommit(causal, source, cut, fault, progress, left, kept, certified, r)
    requires (kept ==> kept') && (certified ==> certified')
    ensures LastCommit(causal, source, cut, fault, progress, left, kept', certified', r)
    ensures r.Ok? ==> r.value == SealBytes(causal, source, cut, progress)
  {
  }

  lemma CertifiesOver(view: View, source: Source, cut: Cut, scope: Scope, head: Option<Header>, held: Option<Header>, next: Option<Header>,
                     out: Inspection)
    requires Held(head, out, held) && StateOf(held) == StateOf(head) + multiset(RunRows(out.inputs))
    requires Certifies(view, source, cut, scope, out.progress, held, next)
    ensures CertifiedOver(view, source, cut, scope, head, out, next)
  {
  }

  lemma PassedBy(view: View, source: Source, cut: Cut, call: Call, w: Pass, head: Option<Header>, held: Option<Header>,
                 next: Option<Header>, n: nat, out: Inspection, left: nat, end: Result<(nat, nat), SourceError>)
    requires w.captured == cut.captured && AllIn(cut.captured, out.progress) && left == call.budget.maxBytes - out.bytes
    requires Ends(view.plan, w, n) && Ran(view.plan, source, w, CourseTo(w, n), out)
    requires Held(head, out, held) && (out.units > 0 ==> call.env.commit == NoFault)
    requires Concluded(view, source, cut, call.scope, call.env, out.progress, left, held, next, end)
    ensures Passed(view, source, cut, call, w, head, next, Report(out, end))
  {
    HeldFolds(view.plan, source, w, CourseTo(w, n), head, out, held);
    SettledBy(view, source, cut, call, head, held, next, out, left, end);
    PassedHere(view, source, cut, call, w, head, next, n, out, Report(out, end));
  }

  lemma PassedHere(view: View, source: Source, cut: Cut, call: Call, w: Pass, head: Option<Header>, next: Option<Header>, n: nat,
                   out: Inspection, r: Result<Outcome, SourceError>)
    requires w.captured == cut.captured && AllIn(cut.captured, out.progress)
    requires Ends(view.plan, w, n) && Ran(view.plan, source, w, CourseTo(w, n), out)
    requires Settled(view, source, cut, call, head, out, next, r) && !Failing(r)
    ensures Passed(view, source, cut, call, w, head, next, r)
  {
  }

  // Whatever the answer, nothing folded in is lost, a frontier moves only to where no row is
  // missing, the budgets are kept, and completion is what the preflight then finds.
  lemma AnsweredKeeps(view: View, source: Source, cut: Cut, call: Call, head: Option<Header>, next: Option<Header>,
                      r: Result<Outcome, SourceError>)
    requires Answered(view, source, cut, call, head, next, r)
    ensures StateOf(head) <= StateOf(next) && FrontierMoved(source, head, next)
    ensures r.Ok? ==> KeepsTo(r.value, call.budget)
    ensures r.Ok? && r.value.complete ==> CompleteDemand(SnapshotOf(next, cut), RequestOf(view, call.scope))
  {
    var s, q := SnapshotOf(head, cut), RequestOf(view, call.scope);
    if Positive(call.budget) && Authentic(s, q, call.budget.maxBytes) && !CompleteDemand(s, q) {
      var progress :|
        && Reread(source, cut, ScanScope(view.plan, call.scope), head, progress)
        && Passed(view, source, cut, call, PassOf(view, cut, call, head, progress), head, next, r);
      PassedKeeps(view, source, cut, call, PassOf(view, cut, call, head, progress), head, next, r);
    }
  }

  lemma PassedKeeps(view: View, source: Source, cut: Cut, call: Call, w: Pass, head: Option<Header>, next: Option<Header>,
                    r: Result<Outcome, SourceError>)
    requires w.budget == call.budget && Passed(view, source, cut, call, w, head, next, r)
    ensures StateOf(head) <= StateOf(next) && FrontierMoved(source, head, next)
    ensures r.Ok? ==> KeepsTo(r.value, call.budget)
    ensures r.Ok? && r.value.complete ==> CompleteDemand(SnapshotOf(next, cut), RequestOf(view, call.scope))
  {
    if !Failing(r) {
      var n, out :|
        && Ends(view.plan, w, n) && Ran(view.plan, source, w, CourseTo(w, n), out)
        && w.captured == cut.captured && Settled(view, source, cut, call, head, out, next, r);
      var left: nat := call.budget.maxBytes - out.bytes;
      SettledKeeps(view, source, cut, call, head, out, left, next, r);
    }
  }

  lemma SettledKeeps(view: View, source: Source, cut: Cut, call: Call, head: Option<Header>, out: Inspection, left: nat,
                     next: Option<Header>, r: Result<Outcome, SourceError>)
    requires AllIn(cut.captured, out.progress) && Settled(view, source, cut, call, head, out, next, r)
    requires out.units <= call.budget.batchLimit && out.rows <= call.budget.maxRows && left == call.budget.maxBytes - out.bytes
    ensures StateOf(head) <= StateOf(next) && FrontierMoved(source, head, next)
    ensures r.Ok? ==> KeepsTo(r.value, call.budget)
    ensures r.Ok? && r.value.complete ==> CompleteDemand(SnapshotOf(next, cut), RequestOf(view, call.scope))
  {
    if Held(head, out, next) {
      HeldKeeps(source, head, out, next);
    } else if next != head {
      FinishedKeeps(view, source, cut, call.scope, head, out, next);
    }
    SettledFits(view, source, cut, call, head, out, left, next, r);
  }

  lemma SettledFits(view: View, source: Source, cut: Cut, call: Call, head: Option<Header>, out: Inspection, left: nat,
                    next: Option<Header>, r: Result<Outcome, SourceError>)
    requires AllIn(cut.captured, out.progress) && Settled(view, source, cut, call, head, out, next, r)
    requires out.units <= call.budget.batchLimit && out.rows <= call.budget.maxRows && left == call.budget.maxBytes - out.bytes
    ensures r.Ok? ==> KeepsTo(r.value, call.budget)
  {
    if r.Ok? && r.value.complete {
      SealFits(view.causal, source, cut, out.progress, left);
    }
  }

  lemma HeldKeeps(source: Source, head: Option<Header>, out: Inspection, next: Option<Header>)
    requires Held(head, out, next)
    ensures StateOf(head) <= StateOf(next) && FrontierMoved(source, head, next)
  {
  }

  lemma FinishedKeeps(view: View, source: Source, cut: Cut, scope: Scope, head: Option<Header>, out: Inspection, next: Option<Header>)
    requires CertifiedOver(view, source, cut, scope, head, out, next)
    ensures StateOf(head) <= StateOf(next)
  {
  }

  lemma SealFits(causal: bool, source: Source, cut: Cut, progress: Progresses, left: nat)
    requires Sealable(causal, source, cut, progress, left)
    ensures SealBytes(causal, source, cut, progress) <= left
  {
    if NeedsStamps(causal, source, progress) {
      AffordableFits(cut.captured, progress, 0, left);
    }
  }

  lemma {:induction false} AffordableFits(captured: seq<Captured>, progress: Progresses, i: nat, left: int)
    requires i <= |captured| && Affordable(captured, progress, i, left) && left >= 0
    ensures StampBytes(captured, progress, i) <= left
    decreases |captured| - i
  {
    if i < |captured| {
      AffordableFits(captured, progress, i + 1, if Unstamped(progress, captured[i].pub.key) then left - captured[i].loaded.bytes else left);
    }
  }

  lemma HeadSnapshot(plan: Plan, source: Source, cut: Cut, head: Option<Header>)
    requires CutOk(source, cut) && HeadOk(plan, source, cut.ends, head)
    ensures SnapshotOk(source, SnapshotOf(head, cut)) && Keys(SnapshotOf(head, cut).pubs) == source.Keys
  {
    CutKeys(source, cut);
  }

  // The last header of a scope.
  function FinalHeader(view: View, cut: Cut, head: Option<Header>, scope: Scope, certs: map<Scope, set<Key>>, x: Sealed,
                       bytes: nat): Header
  {
    var saved := Saved(x.current, x.full, certs[scope := Keys(Pubs(cut.captured))]);
    NextHeader(head, view.identity, bytes, saved, if x.full then cut.ends else map[], [])
  }

  lemma FinalIsSound(view: View, source: Source, cut: Cut, head: Option<Header>, scope: Scope, progress: Progresses,
                     certs: map<Scope, set<Key>>, x: Sealed, bytes: nat)
    requires CutOk(source, cut) && Ready(view.plan, source, cut.ends, head, progress, certs)
    requires InspectedAll(source, Abs(progress), source.Keys, ScanScope(view.plan, scope)) && SealedOk(source, cut, progress, x)
    ensures var next := Some(FinalHeader(view, cut, head, scope, certs, x, bytes));
            HeadOk(view.plan, source, cut.ends, next)
  {
    var saved := Saved(x.current, x.full, certs[scope := Keys(Pubs(cut.captured))]);
    FinishedFits(view, source, cut.ends, head, scope, progress, certs, saved);
    NextIsOk(view.plan, source, cut.ends, head, view.identity, bytes, saved, if x.full then cut.ends else map[], []);
  }

  lemma FinalCertifies(view: View, source: Source, cut: Cut, head: Option<Header>, scope: Scope, progress: Progresses,
                       certs: map<Scope, set<Key>>, x: Sealed, bytes: nat)
    requires CutOk(source, cut) && Ready(view.plan, source, cut.ends, head, progress, certs) && source.Keys <= progress.Keys
    requires InspectedAll(source, Abs(progress), source.Keys, ScanScope(view.plan, scope)) && SealedOk(source, cut, progress, x)
    ensures Certifies(view, source, cut, scope, progress, head, Some(FinalHeader(view, cut, head, scope, certs, x, bytes)))
  {
    var saved := Saved(x.current, x.full, certs[scope := Keys(Pubs(cut.captured))]);
    FinalMoves(view, source, cut, head, scope, progress, certs, x, bytes);
    FinishedIsComplete(view, source, cut, scope, FinalHeader(view, cut, head, scope, certs, x, bytes), saved);
  }

  lemma FinalMoves(view: View, source: Source, cut: Cut, head: Option<Header>, scope: Scope, progress: Progresses,
                   certs: map<Scope, set<Key>>, x: Sealed, bytes: nat)
    requires SealedOk(source, cut, progress, x)
    ensures var next := Some(FinalHeader(view, cut, head, scope, certs, x, bytes));
            StateOf(next) == StateOf(head) && FrontierMoved(source, head, next)
  {
    InstallNothing(FrontierAt(head));
  }

  lemma InstallNothing(frontier: map<Partition, nat>)
    ensures frontier + map[] == frontier
  {
  }

  // A complete demand holds its rows: each row of the cut that may match the scope is in the
  // state behind the head exactly once.
  lemma CompleteIsFolded(view: View, source: Source, cut: Cut, scope: Scope, head: Option<Header>, k: Key, o: nat)
    requires CutOk(source, cut) && HeadOk(view.plan, source, cut.ends, head)
    requires CompleteDemand(SnapshotOf(head, cut), RequestOf(view, scope))
    requires k in source && o < source[k].len && May(view.plan, ScanScope(view.plan, scope), RowId(k, o))
    ensures StateOf(head)[RowId(k, o)] == 1
  {
    var s, q := SnapshotOf(head, cut), RequestOf(view, scope);
    HeadSnapshot(view.plan, source, cut, head);
    HeadTable(head);
    CompleteDemandIsSound(view.plan, source, s, q);
    KeysToContains(s.pubs, |s.pubs|, k);
    var i :| 0 <= i < |s.pubs| && s.pubs[i].key == k;
    assert source[s.pubs[i].key] == s.pubs[i].artifact;
    InFolded(source, head.value.frontier, Abs(ProgressOf(head)), RowId(k, o));
  }

  lemma FinishedFits(view: View, source: Source, ends: map<Partition, nat>, head: Option<Header>, scope: Scope, progress: Progresses,
                     certs: map<Scope, set<Key>>, saved: Saved)
    requires Ready(view.plan, source, ends, head, progress, certs)
    requires InspectedAll(source, Abs(progress), source.Keys, ScanScope(view.plan, scope))
    requires Abs(saved.progress) == Abs(progress) && saved.certs == certs[scope := source.Keys]
    requires saved.full <==> AppliedAll(source, Abs(progress), source.Keys)
    ensures D.Fits(view.plan, MetaOf(source, ends, head), Meaning(saved), multiset([]), if saved.full then ends else map[])
    ensures TableOk(view.plan, source, Abs(saved.progress))
  {
    D.FinishFits(view.plan, MetaOf(source, ends, head), Demand(Abs(progress), false, certs), scope);
    var nothing: seq<RowId> := [];
    assert multiset(nothing) == multiset{};
  }
}
