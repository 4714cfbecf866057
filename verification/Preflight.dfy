/**
 Two ways to learn that a demand is already complete: the metadata-only preflight and the
 certificate check of the leased path (crates/velorix-api/src/demand_materialization.rs).
 Both are proved to decide the same predicate, and that predicate to mean what a certificate
 promises.
 */
module Preflight {
  import opened Wrappers
  import opened Spans
  import opened Staging
  import opened Coverage
  import opened SourceUnit

  // The saved progress and, for each certified scope, the cut it was certified for. Cut hashes
  // are collision-free, so a cut is its own hash.
  datatype Saved = Saved(progress: Progresses, full: bool, certs: map<Scope, set<Key>>)

  // The checkpoint header behind the head pointer, the bytes its authentication charges, and the
  // bag of rows in the state it names; `demand` is missing on an eager checkpoint.
  datatype Header = Header(identity: string, bytes: nat, epoch: nat, frontier: map<Partition, nat>, demand: Option<Saved>,
                           state: multiset<RowId>)

  // One metadata batch: the head and the authenticated publications of the captured cut.
  datatype Snapshot = Snapshot(head: Option<Header>, pubs: seq<Publication>)

  datatype Request = Request(identity: string, scope: Scope, narrow: bool)

  datatype LeaseError = Conflict | TooLarge(required: nat) | Unproved(error: UnitError)

  function ScanOf(q: Request): Scope {
    if q.narrow then q.scope else None
  }

  ghost predicate SnapshotOk(source: Source, s: Snapshot) {
    && PublicationsOk(source, s.pubs)
    && (forall i :: 0 <= i < |s.pubs| ==> s.pubs[i].artifact.len > 0)
    && (s.head.Some? && s.head.value.demand.Some? ==> AllValid(s.head.value.demand.value.progress))
  }

  // ---------------------------------------------------------------- the common predicate

  ghost predicate AllApplied(p: Progress) {
    Interval(0, p.applied.total) <= Ordinals(p.applied)
  }

  // What the saved progress proves about one artifact. An artifact without an entry is known
  // only through an old frontier, which proves its rows but not its watermark.
  ghost predicate Proved(saved: Saved, frontier: map<Partition, nat>, q: Request, pub: Publication) {
    if pub.key in saved.progress then
      var p := saved.progress[pub.key];
      && Matches(pub, saved.progress)
      && (|| (AllApplied(p) && (q.narrow || p.watermark.Some?))
          || (q.narrow && Interval(0, p.applied.total) <= Inspected(p, ScanOf(q))))
    else
      q.narrow && Covered(frontier, pub.artifact)
  }

  predicate Certified(saved: Saved, q: Request, pubs: seq<Publication>) {
    q.scope in saved.certs && saved.certs[q.scope] == Keys(pubs)
  }

  // A fresh certificate of this identity whose whole cut is proved.
  ghost predicate CompleteDemand(s: Snapshot, q: Request) {
    && s.head.Some? && s.head.value.identity == q.identity && s.head.value.demand.Some?
    && Certified(s.head.value.demand.value, q, s.pubs)
    && forall i :: 0 <= i < |s.pubs| ==> Proved(s.head.value.demand.value, s.head.value.frontier, q, s.pubs[i])
  }

  // The completeness test shared by both paths.
  predicate EntryComplete(p: Progress, narrow: bool, scan: Scope) {
    || (IsComplete(p.applied) && (narrow || p.watermark.Some?))
    || (narrow && scan in p.inspected && IsComplete(p.inspected[scan]))
  }

  lemma EntryCompleteMeans(p: Progress, q: Request)
    requires Valid(p) && p.applied.total > 0
    ensures EntryComplete(p, q.narrow, ScanOf(q)) <==>
              || (AllApplied(p) && (q.narrow || p.watermark.Some?))
              || (q.narrow && Interval(0, p.applied.total) <= Inspected(p, ScanOf(q)))
  {
    CompleteMeansAll(p.applied);
    CompleteMeansAll(Scan(p, ScanOf(q)));
    if ScanOf(q) !in p.inspected {
      assert 0 in Interval(0, p.applied.total);
      assert Ordinals(Spans(p.applied.total, [])) == {};
    }
  }

  // ---------------------------------------------------------------- fast path

  method FreshCompletePreflight(ghost source: Source, s: Snapshot, q: Request) returns (hit: bool)
    requires SnapshotOk(source, s)
    ensures hit <==> CompleteDemand(s, q)
  {
    if s.head.None? || s.head.value.identity != q.identity || s.head.value.demand.None? {
      return false;
    }
    var header, saved := s.head.value, s.head.value.demand.value;
    if !Certified(saved, q, s.pubs) {
      return false;
    }
    var i := 0;
    while i < |s.pubs|
      invariant 0 <= i <= |s.pubs|
      invariant forall j :: 0 <= j < i ==> Proved(saved, header.frontier, q, s.pubs[j])
    {
      var pub := s.pubs[i];
      if pub.key in saved.progress {
        var p := saved.progress[pub.key];
        if p.hash != pub.digest || p.applied.total != pub.artifact.len {
          return false;
        }
        EntryCompleteMeans(p, q);
        if !EntryComplete(p, q.narrow, ScanOf(q)) {
          return false;
        }
      } else if !q.narrow || !Covered(header.frontier, pub.artifact) {
        return false;
      }
      i := i + 1;
    }
    return true;
  }

  // ---------------------------------------------------------------- leased path

  function SavedOf(s: Snapshot): Saved {
    if s.head.Some? && s.head.value.demand.Some? then s.head.value.demand.value else Saved(map[], false, map[])
  }

  function FrontierOf(s: Snapshot): map<Partition, nat> {
    if s.head.Some? then s.head.value.frontier else map[]
  }

  // The bytes that authenticating the head charges.
  function HeadBytes(s: Snapshot): nat {
    if s.head.Some? then s.head.value.bytes else 0
  }

  // The head can be read, belongs to the view, and no artifact changed its identity.
  ghost predicate Authentic(s: Snapshot, q: Request, maxBytes: nat) {
    && HeadBytes(s) <= maxBytes && (s.head.Some? ==> s.head.value.identity == q.identity)
    && AllMatch(s.pubs, |s.pubs|, SavedOf(s).progress)
  }

  // Reads the header within the byte budget, reconciles every artifact of the cut, and only
  // then trusts a certificate. It answers complete for exactly the demands of the preflight
  // whose header fits the budget.
  method LeasedCertificate(ghost source: Source, s: Snapshot, q: Request, maxBytes: nat) returns (r: Result<(bool, Progresses), LeaseError>)
    requires SnapshotOk(source, s)
    ensures r.Ok? && r.value.0 <==> CompleteDemand(s, q) && HeadBytes(s) <= maxBytes
    ensures r.Ok? <==> Authentic(s, q, maxBytes)
    ensures r.Ok? ==>
      && Reconciled(source, FrontierOf(s), SavedOf(s).progress, Keys(s.pubs), ScanOf(q), r.value.1)
      && AllMatch(s.pubs, |s.pubs|, r.value.1)
  {
    if HeadBytes(s) > maxBytes {
      return Err(TooLarge(HeadBytes(s)));
    }
    if s.head.Some? && s.head.value.identity != q.identity {
      return Err(Conflict);
    }
    var saved, frontier := SavedOf(s), FrontierOf(s);
    var reconciled := ReconcileArtifacts(source, frontier, saved.progress, s.pubs, ScanOf(q));
    if reconciled.Err? {
      MismatchExists(s.pubs, |s.pubs|, saved.progress);
      return Err(Unproved(reconciled.error));
    }
    var proved := Certified(saved, q, s.pubs);
    if proved {
      proved := AllProved(source, s, q, reconciled.value);
    }
    r := Ok((proved, reconciled.value));
  }

  method AllProved(ghost source: Source, s: Snapshot, q: Request, progress: Progresses) returns (proved: bool)
    requires SnapshotOk(source, s) && AllMatch(s.pubs, |s.pubs|, SavedOf(s).progress)
    requires Reconciled(source, FrontierOf(s), SavedOf(s).progress, Keys(s.pubs), ScanOf(q), progress)
    ensures proved <==> forall i :: 0 <= i < |s.pubs| ==> Proved(SavedOf(s), FrontierOf(s), q, s.pubs[i])
  {
    ghost var saved, frontier := SavedOf(s), FrontierOf(s);
    var i := 0;
    while i < |s.pubs|
      invariant 0 <= i <= |s.pubs|
      invariant forall j :: 0 <= j < i ==> Proved(saved, frontier, q, s.pubs[j])
    {
      KeysToContains(s.pubs, |s.pubs|, s.pubs[i].key);
      assert ReconciledAt(source, frontier, saved.progress, Keys(s.pubs), ScanOf(q), progress, s.pubs[i].key);
      MatchesAt(s.pubs, i, |s.pubs|, saved.progress);
      ReconciledProves(source, saved, frontier, q, s.pubs, i, progress);
      if !EntryComplete(progress[s.pubs[i].key], q.narrow, ScanOf(q)) {
        return false;
      }
      i := i + 1;
    }
    return true;
  }

  lemma MismatchExists(pubs: seq<Publication>, n: nat, progress: Progresses)
    requires n <= |pubs| && !AllMatch(pubs, n, progress)
    ensures exists i :: 0 <= i < n && !Matches(pubs[i], progress)
  {
    if Matches(pubs[n - 1], progress) {
      MismatchExists(pubs, n - 1, progress);
    }
  }

  lemma MatchesAt(pubs: seq<Publication>, i: nat, n: nat, progress: Progresses)
    requires i < n <= |pubs| && AllMatch(pubs, n, progress)
    ensures Matches(pubs[i], progress)
  {
  }

  // Reconciling an artifact neither creates nor loses a proof about it.
  lemma ReconciledProves(source: Source, saved: Saved, frontier: map<Partition, nat>, q: Request, pubs: seq<Publication>, i: nat,
                         current: Progresses)
    requires i < |pubs| && pubs[i].key in source && source[pubs[i].key] == pubs[i].artifact && pubs[i].artifact.len > 0
    requires AllValid(saved.progress) && Matches(pubs[i], saved.progress) && pubs[i].key in Keys(pubs)
    requires ReconciledAt(source, frontier, saved.progress, Keys(pubs), ScanOf(q), current, pubs[i].key)
    ensures EntryComplete(current[pubs[i].key], q.narrow, ScanOf(q)) <==> Proved(saved, frontier, q, pubs[i])
  {
    var pub, p := pubs[i], current[pubs[i].key];
    EntryCompleteMeans(p, q);
    SeenIsScan(p, ScanOf(q));
    assert 0 in Interval(0, pub.artifact.len);
    if pub.key in saved.progress {
      SeenIsScan(saved.progress[pub.key], ScanOf(q));
    }
  }

  // ---------------------------------------------------------------- meaning

  // A hit means that every row of the cut that may match the requested scope is already
  // folded into the state behind the head.
  lemma CompleteDemandIsSound(plan: Plan, source: Source, s: Snapshot, q: Request)
    requires SnapshotOk(source, s) && CompleteDemand(s, q) && q.narrow == (q.scope.Some? && plan.narrow(q.scope))
    requires TableOk(plan, source, Abs(s.head.value.demand.value.progress))
    ensures forall i, o: nat :: 0 <= i < |s.pubs| && o < s.pubs[i].artifact.len && May(plan, ScanOf(q), RowId(s.pubs[i].key, o)) ==>
              s.pubs[i].key in source
              && IsFolded(source, s.head.value.frontier, Abs(s.head.value.demand.value.progress), s.pubs[i].key, o)
  {
    var saved, frontier := s.head.value.demand.value, s.head.value.frontier;
    forall i, o: nat | 0 <= i < |s.pubs| && o < s.pubs[i].artifact.len && May(plan, ScanOf(q), RowId(s.pubs[i].key, o))
      ensures s.pubs[i].key in source && IsFolded(source, frontier, Abs(saved.progress), s.pubs[i].key, o)
    {
      var pub := s.pubs[i];
      assert Proved(saved, frontier, q, pub);
      assert o in Interval(0, pub.artifact.len);
      if pub.key in saved.progress {
        ProvedRow(plan, source, saved.progress, q, pub, o);
      }
    }
  }

  lemma ProvedRow(plan: Plan, source: Source, progress: Progresses, q: Request, pub: Publication, o: nat)
    requires AllValid(progress) && TableOk(plan, source, Abs(progress)) && pub.key in progress
    requires pub.key in source && source[pub.key] == pub.artifact && o < pub.artifact.len
    requires Matches(pub, progress) && May(plan, ScanOf(q), RowId(pub.key, o))
    requires var p := progress[pub.key];
             AllApplied(p) || Interval(0, p.applied.total) <= Inspected(p, ScanOf(q))
    ensures o in Abs(progress)[pub.key].applied
  {
    var p, e := progress[pub.key], Abs(progress)[pub.key];
    assert e == AbsEntry(p);
    assert o in Interval(0, p.applied.total);
    SeenIsScan(p, ScanOf(q));
    if !AllApplied(p) {
      assert o in Seen(e, ScanOf(q));
      assert EntryOk(plan, source[pub.key].len, pub.key, e);
      assert ScopeOk(plan, source[pub.key].len, pub.key, ScanOf(q), e.inspected[ScanOf(q)], e.applied);
    }
  }
}
