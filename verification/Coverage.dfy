/**
 What one durable demand checkpoint promises: which source rows its operator state has
 folded in, which rows each scope has inspected, what its certificates mean, and how far its
 input frontiers may reach.

 Progress is kept here as sets of ordinals; `Spans` and `Staging` show that the span lists of
 the program compute these sets.
 */
module Coverage {
  import opened Wrappers
  import opened Spans
  import opened Staging

  type Key = string

  type Partition = nat

  // One immutable source publication: `len` rows at consecutive offsets of a partition.
  datatype Artifact = Artifact(part: Partition, start: nat, len: nat)

  // The identity of a source row.
  datatype RowId = RowId(key: Key, ordinal: nat)

  type Source = map<Key, Artifact>

  datatype Entry = Entry(applied: set<nat>, inspected: map<Scope, set<nat>>)

  type Table = map<Key, Entry>

  datatype Demand = Demand(table: Table, full: bool, certs: map<Scope, set<Key>>)

  // `state` is the bag of source rows folded into the operator state.
  datatype Record = Record(epoch: nat, demand: Option<Demand>, frontier: map<Partition, nat>, state: multiset<RowId>)

  // The view's plan fixes which scopes have a narrow dependency proof and which rows may match.
  datatype Plan = Plan(narrow: Scope -> bool, mayMatch: (Scope, RowId) -> bool)

  function ScanScope(plan: Plan, scope: Scope): Scope {
    if scope.Some? && plan.narrow(scope) then scope else None
  }

  predicate May(plan: Plan, scan: Scope, row: RowId) {
    scan.None? || plan.mayMatch(scan, row)
  }

  function At(offsets: map<Partition, nat>, p: Partition): nat {
    if p in offsets then offsets[p] else 0
  }

  function EndOf(a: Artifact): nat { a.start + a.len }

  predicate Covered(frontier: map<Partition, nat>, a: Artifact) {
    At(frontier, a.part) >= EndOf(a)
  }

  function TableOf(r: Record): Table {
    if r.demand.Some? then r.demand.value.table else map[]
  }

  // ---------------------------------------------------------------- meaning of a record

  // A tracked artifact is folded at its applied ordinals, an untracked one below the frontier.
  ghost predicate IsFolded(source: Source, frontier: map<Partition, nat>, table: Table, k: Key, o: nat)
    requires k in source
  {
    o < source[k].len && if k in table then o in table[k].applied else Covered(frontier, source[k])
  }

  ghost function Folded(source: Source, frontier: map<Partition, nat>, table: Table): set<RowId> {
    set k, o | k in source && o in Interval(0, source[k].len) && IsFolded(source, frontier, table, k, o) :: RowId(k, o)
  }

  lemma InFolded(source: Source, frontier: map<Partition, nat>, table: Table, row: RowId)
    ensures row in Folded(source, frontier, table)
       <==> row.key in source && IsFolded(source, frontier, table, row.key, row.ordinal)
  {
    if row.key in source && IsFolded(source, frontier, table, row.key, row.ordinal) {
      assert row == RowId(row.key, row.ordinal);
    }
  }

  // Every inspected ordinal whose row may match the scope has been applied.
  ghost predicate ScopeOk(plan: Plan, len: nat, k: Key, scan: Scope, inspected: set<nat>, applied: set<nat>) {
    forall o :: o in inspected ==> o < len && (May(plan, scan, RowId(k, o)) ==> o in applied)
  }

  ghost predicate EntryOk(plan: Plan, len: nat, k: Key, e: Entry) {
    && (forall o :: o in e.applied ==> o < len)
    && (forall s :: s in e.inspected ==> ScopeOk(plan, len, k, s, e.inspected[s], e.applied))
  }

  ghost predicate TableOk(plan: Plan, source: Source, table: Table) {
    forall k :: k in table ==> k in source && EntryOk(plan, source[k].len, k, table[k])
  }

  ghost predicate FrontierOk(source: Source, ends: map<Partition, nat>, frontier: map<Partition, nat>, table: Table) {
    && (forall k, o: nat :: k in source && o < source[k].len && source[k].start + o < At(frontier, source[k].part) ==>
          IsFolded(source, frontier, table, k, o))
    && (forall k :: k in source ==> Covered(frontier, source[k]) || At(frontier, source[k].part) <= source[k].start)
    && (forall p :: p in frontier ==> frontier[p] <= At(ends, p))
  }

  ghost predicate Matched(plan: Plan, source: Source, scope: Scope, table: Table, k: Key) {
    && k in source && k in table
    && forall o: nat :: o < source[k].len && May(plan, ScanScope(plan, scope), RowId(k, o)) ==> o in table[k].applied
  }

  ghost predicate Complete(source: Source, table: Table, k: Key) {
    k in source && k in table && forall o: nat :: o < source[k].len ==> o in table[k].applied
  }

  ghost predicate DemandOk(plan: Plan, source: Source, d: Demand) {
    && (forall s, k :: s in d.certs && k in d.certs[s] ==> Matched(plan, source, s, d.table, k))
    && (d.full ==> forall k :: k in d.table ==> Complete(source, d.table, k))
  }

  ghost predicate RecordOk(plan: Plan, source: Source, ends: map<Partition, nat>, r: Record) {
    && r.state == multiset(Folded(source, r.frontier, TableOf(r)))
    && TableOk(plan, source, TableOf(r))
    && FrontierOk(source, ends, r.frontier, TableOf(r))
    && (r.demand.Some? ==> DemandOk(plan, source, r.demand.value))
  }

  // The publications of a partition lie below its committed offset.
  ghost predicate SourceOk(source: Source, ends: map<Partition, nat>) {
    forall k :: k in source ==> source[k].len > 0 && source[k].part in ends && EndOf(source[k]) <= ends[source[k].part]
  }

  // ---------------------------------------------------------------- source growth

  ghost predicate CanIngest(source: Source, ends: map<Partition, nat>, k: Key, a: Artifact) {
    && k !in source && a.len > 0
    && (a.part in ends ==> a.start == ends[a.part])
  }

  lemma IngestKeeps(plan: Plan, source: Source, ends: map<Partition, nat>, r: Record, k: Key, a: Artifact)
    requires RecordOk(plan, source, ends, r) && SourceOk(source, ends) && CanIngest(source, ends, k, a)
    ensures RecordOk(plan, source[k := a], ends[a.part := EndOf(a)], r)
    ensures SourceOk(source[k := a], ends[a.part := EndOf(a)])
  {
    var source', ends', table := source[k := a], ends[a.part := EndOf(a)], TableOf(r);
    assert At(r.frontier, a.part) <= a.start;
    forall j, o: nat | j in source'
      ensures IsFolded(source', r.frontier, table, j, o) <==> j in source && IsFolded(source, r.frontier, table, j, o)
    {
    }
    forall row: RowId ensures row in Folded(source', r.frontier, table) <==> row in Folded(source, r.frontier, table) {
      InFolded(source', r.frontier, table, row);
      InFolded(source, r.frontier, table, row);
    }
    assert Folded(source', r.frontier, table) == Folded(source, r.frontier, table);
    if r.demand.Some? {
      IngestKeepsDemand(plan, source, r.demand.value, k, a);
    }
  }

  lemma IngestKeepsDemand(plan: Plan, source: Source, d: Demand, k: Key, a: Artifact)
    requires DemandOk(plan, source, d) && k !in source
    ensures DemandOk(plan, source[k := a], d)
  {
    forall s, j | s in d.certs && j in d.certs[s] ensures Matched(plan, source[k := a], s, d.table, j) {
      assert Matched(plan, source, s, d.table, j);
    }
    forall j | j in d.table && d.full ensures Complete(source[k := a], d.table, j) {
      assert Complete(source, d.table, j);
    }
  }

  // ---------------------------------------------------------------- reconciliation

  ghost function FreshEntry(frontier: map<Partition, nat>, a: Artifact): Entry {
    Entry(if Covered(frontier, a) then Interval(0, a.len) else {}, map[])
  }

  // A complete entry counts as fully inspected for the scope at hand.
  ghost function Refresh(a: Artifact, scan: Scope, e: Entry): Entry {
    if Interval(0, a.len) <= e.applied then e.(inspected := e.inspected[scan := e.applied]) else e
  }

  ghost function Reconcile(source: Source, frontier: map<Partition, nat>, table: Table, cut: set<Key>, scan: Scope): Table
    requires cut <= source.Keys
  {
    map k | k in table.Keys + cut ::
      if k in cut then Refresh(source[k], scan, if k in table then table[k] else FreshEntry(frontier, source[k]))
      else table[k]
  }

  lemma ReconcileKeeps(plan: Plan, source: Source, ends: map<Partition, nat>, r: Record, cut: set<Key>, scan: Scope)
    requires RecordOk(plan, source, ends, r) && cut <= source.Keys
    ensures var table := Reconcile(source, r.frontier, TableOf(r), cut, scan);
      && Folded(source, r.frontier, table) == Folded(source, r.frontier, TableOf(r))
      && TableOk(plan, source, table)
      && FrontierOk(source, ends, r.frontier, table)
      && cut <= table.Keys
      && (forall k :: k in TableOf(r) ==> k in table && table[k].applied == TableOf(r)[k].applied)
  {
    var prior, table := TableOf(r), Reconcile(source, r.frontier, TableOf(r), cut, scan);
    forall k | k in table ensures k in source && EntryOk(plan, source[k].len, k, table[k]) {
      ReconcileEntry(plan, source, r.frontier, prior, cut, scan, k);
    }
    forall k, o: nat | k in source
      ensures IsFolded(source, r.frontier, table, k, o) == IsFolded(source, r.frontier, prior, k, o)
    {
      ReconcileFold(source, r.frontier, prior, cut, scan, k, o);
    }
    SameFold(source, r.frontier, prior, r.frontier, table);
    assert FrontierOk(source, ends, r.frontier, table);
  }

  lemma ReconcileEntry(plan: Plan, source: Source, frontier: map<Partition, nat>, table: Table, cut: set<Key>, scan: Scope, k: Key)
    requires TableOk(plan, source, table) && cut <= source.Keys && k in table.Keys + cut
    ensures k in source && EntryOk(plan, source[k].len, k, Reconcile(source, frontier, table, cut, scan)[k])
  {
    var e := if k in table then table[k] else FreshEntry(frontier, source[k]);
    assert EntryOk(plan, source[k].len, k, e);
  }

  lemma ReconcileFold(source: Source, frontier: map<Partition, nat>, table: Table, cut: set<Key>, scan: Scope, k: Key, o: nat)
    requires cut <= source.Keys && k in source
    ensures IsFolded(source, frontier, Reconcile(source, frontier, table, cut, scan), k, o) == IsFolded(source, frontier, table, k, o)
  {
    assert o in Interval(0, source[k].len) <==> o < source[k].len;
  }

  lemma SameFold(source: Source, f: map<Partition, nat>, t: Table, f': map<Partition, nat>, t': Table)
    requires forall k, o: nat :: k in source ==> IsFolded(source, f, t, k, o) == IsFolded(source, f', t', k, o)
    ensures Folded(source, f, t) == Folded(source, f', t')
  {
    forall row: RowId ensures row in Folded(source, f, t) <==> row in Folded(source, f', t') {
      InFolded(source, f, t, row);
      InFolded(source, f', t', row);
    }
  }

  // ---------------------------------------------------------------- work

  datatype Stage = Stage(key: Key, lo: nat, hi: nat)

  ghost predicate StageOk(source: Source, table: Table, s: Stage) {
    s.key in table && s.key in source && s.lo < s.hi <= source[s.key].len
  }

  // The inspected ordinals of an artifact that may match and are not applied yet.
  ghost function Fresh(plan: Plan, scan: Scope, k: Key, applied: set<nat>, lo: nat, hi: nat): set<nat> {
    set o | o in Interval(lo, hi) && May(plan, scan, RowId(k, o)) && o !in applied
  }

  ghost function Seen(e: Entry, scan: Scope): set<nat> {
    if scan in e.inspected then e.inspected[scan] else {}
  }

  // Staging one interval: see `Staging.StagedFrom`.
  ghost function StageEntry(plan: Plan, scan: Scope, k: Key, e: Entry, lo: nat, hi: nat): Entry {
    Entry(e.applied + Fresh(plan, scan, k, e.applied, lo, hi), e.inspected[scan := Seen(e, scan) + Interval(lo, hi)])
  }

  ghost function ApplyStage(plan: Plan, scan: Scope, table: Table, s: Stage): Table
    requires s.key in table
  {
    table[s.key := StageEntry(plan, scan, s.key, table[s.key], s.lo, s.hi)]
  }

  ghost function RowIds(k: Key, ordinals: set<nat>): set<RowId> {
    set o | o in ordinals :: RowId(k, o)
  }

  ghost function NewRows(plan: Plan, scan: Scope, table: Table, s: Stage): set<RowId>
    requires s.key in table
  {
    RowIds(s.key, Fresh(plan, scan, s.key, table[s.key].applied, s.lo, s.hi))
  }

  ghost predicate StagesOk(plan: Plan, source: Source, scan: Scope, table: Table, stages: seq<Stage>)
    decreases |stages|
  {
    stages == [] ||
    (StageOk(source, table, stages[0]) && StagesOk(plan, source, scan, ApplyStage(plan, scan, table, stages[0]), stages[1..]))
  }

  ghost function ApplyStages(plan: Plan, source: Source, scan: Scope, table: Table, stages: seq<Stage>): Table
    requires StagesOk(plan, source, scan, table, stages)
    decreases |stages|
  {
    if stages == [] then table
    else ApplyStages(plan, source, scan, ApplyStage(plan, scan, table, stages[0]), stages[1..])
  }

  // The rows handed to the operator runtime, over all staged intervals.
  ghost function StagedBag(plan: Plan, source: Source, scan: Scope, table: Table, stages: seq<Stage>): multiset<RowId>
    requires StagesOk(plan, source, scan, table, stages)
    decreases |stages|
  {
    if stages == [] then multiset{}
    else multiset(NewRows(plan, scan, table, stages[0]))
         + StagedBag(plan, source, scan, ApplyStage(plan, scan, table, stages[0]), stages[1..])
  }

  ghost predicate Grows(table: Table, table': Table) {
    && table.Keys == table'.Keys
    && forall k :: k in table ==> table[k].applied <= table'[k].applied
  }

  lemma StageKeeps(plan: Plan, source: Source, ends: map<Partition, nat>, frontier: map<Partition, nat>,
                   scan: Scope, table: Table, s: Stage)
    requires StageOk(source, table, s) && TableOk(plan, source, table) && FrontierOk(source, ends, frontier, table)
    ensures var table' := ApplyStage(plan, scan, table, s);
      && TableOk(plan, source, table') && FrontierOk(source, ends, frontier, table') && Grows(table, table')
      && Folded(source, frontier, table') == Folded(source, frontier, table) + NewRows(plan, scan, table, s)
      && Folded(source, frontier, table) !! NewRows(plan, scan, table, s)
  {
    var table' := ApplyStage(plan, scan, table, s);
    forall k | k in table' ensures k in source && EntryOk(plan, source[k].len, k, table'[k]) {
      assert EntryOk(plan, source[k].len, k, table[k]);
      if k == s.key {
        StageEntryOk(plan, source, scan, table, s);
      }
    }
    FrontierGrows(source, ends, frontier, table, table');
    forall row: RowId
      ensures row in Folded(source, frontier, table') <==> row in Folded(source, frontier, table) || row in NewRows(plan, scan, table, s)
      ensures row in Folded(source, frontier, table) ==> row !in NewRows(plan, scan, table, s)
    {
      StageFold(plan, source, frontier, scan, table, s, row);
    }
  }

  lemma StageEntryOk(plan: Plan, source: Source, scan: Scope, table: Table, s: Stage)
    requires StageOk(source, table, s) && EntryOk(plan, source[s.key].len, s.key, table[s.key])
    ensures EntryOk(plan, source[s.key].len, s.key, ApplyStage(plan, scan, table, s)[s.key])
  {
    var e, e' := table[s.key], ApplyStage(plan, scan, table, s)[s.key];
    forall t | t in e'.inspected
      ensures ScopeOk(plan, source[s.key].len, s.key, t, e'.inspected[t], e'.applied)
    {
      if t in e.inspected {
        assert ScopeOk(plan, source[s.key].len, s.key, t, e.inspected[t], e.applied);
      }
    }
  }

  lemma StageFold(plan: Plan, source: Source, frontier: map<Partition, nat>, scan: Scope, table: Table, s: Stage, row: RowId)
    requires StageOk(source, table, s)
    ensures row in Folded(source, frontier, ApplyStage(plan, scan, table, s))
       <==> row in Folded(source, frontier, table) || row in NewRows(plan, scan, table, s)
    ensures row in Folded(source, frontier, table) ==> row !in NewRows(plan, scan, table, s)
  {
    InFolded(source, frontier, ApplyStage(plan, scan, table, s), row);
    InFolded(source, frontier, table, row);
    if row.key == s.key && row.ordinal in Fresh(plan, scan, s.key, table[s.key].applied, s.lo, s.hi) {
      assert row == RowId(row.key, row.ordinal);
      assert row in NewRows(plan, scan, table, s);
    }
  }

  lemma FrontierGrows(source: Source, ends: map<Partition, nat>, frontier: map<Partition, nat>, table: Table, table': Table)
    requires FrontierOk(source, ends, frontier, table) && Grows(table, table')
    ensures FrontierOk(source, ends, frontier, table')
  {
    forall k, o: nat | k in source && o < source[k].len && source[k].start + o < At(frontier, source[k].part)
      ensures IsFolded(source, frontier, table', k, o)
    {
      assert IsFolded(source, frontier, table, k, o);
    }
  }

  lemma BagUnion(a: set<RowId>, b: set<RowId>)
    requires a !! b
    ensures multiset(a + b) == multiset(a) + multiset(b)
  {
  }

  // Each staged interval folds in exactly the rows it marks as applied, once.
  lemma {:induction false} StagesKeep(plan: Plan, source: Source, ends: map<Partition, nat>, frontier: map<Partition, nat>,
                                      scan: Scope, table: Table, stages: seq<Stage>)
    requires StagesOk(plan, source, scan, table, stages)
    requires TableOk(plan, source, table) && FrontierOk(source, ends, frontier, table)
    ensures var table' := ApplyStages(plan, source, scan, table, stages);
      && TableOk(plan, source, table') && FrontierOk(source, ends, frontier, table') && Grows(table, table')
      && multiset(Folded(source, frontier, table'))
         == multiset(Folded(source, frontier, table)) + StagedBag(plan, source, scan, table, stages)
    decreases |stages|
  {
    if stages != [] {
      StageKeeps(plan, source, ends, frontier, scan, table, stages[0]);
      BagUnion(Folded(source, frontier, table), NewRows(plan, scan, table, stages[0]));
      StagesKeep(plan, source, ends, frontier, scan, ApplyStage(plan, scan, table, stages[0]), stages[1..]);
    }
  }

  lemma CertsSurvive(plan: Plan, source: Source, d: Demand, table': Table)
    requires DemandOk(plan, source, d)
    requires forall k :: k in d.table ==> k in table' && d.table[k].applied <= table'[k].applied
    ensures DemandOk(plan, source, Demand(table', false, d.certs))
  {
    forall s, k | s in d.certs && k in d.certs[s] ensures Matched(plan, source, s, table', k) {
      assert Matched(plan, source, s, d.table, k);
    }
  }

  // ---------------------------------------------------------------- completion

  // Every artifact of the cut has been inspected completely for the scanned scope.
  ghost predicate InspectedAll(source: Source, table: Table, cut: set<Key>, scan: Scope) {
    forall k :: k in cut ==> k in source && k in table && Interval(0, source[k].len) <= Seen(table[k], scan)
  }

  ghost predicate AppliedAll(source: Source, table: Table, cut: set<Key>) {
    forall k :: k in cut ==> Complete(source, table, k)
  }

  // Inspecting a scope completely applies every row of the cut that may match it; for the
  // unrestricted scan that is every row.
  lemma InspectedMeansMatched(plan: Plan, source: Source, table: Table, cut: set<Key>, scope: Scope)
    requires TableOk(plan, source, table) && InspectedAll(source, table, cut, ScanScope(plan, scope))
    ensures forall k :: k in cut ==> Matched(plan, source, scope, table, k)
    ensures ScanScope(plan, scope).None? ==> AppliedAll(source, table, cut)
  {
    var scan := ScanScope(plan, scope);
    forall k | k in cut
      ensures Matched(plan, source, scope, table, k)
      ensures scan.None? ==> Complete(source, table, k)
    {
      assert EntryOk(plan, source[k].len, k, table[k]);
      forall o: nat | o < source[k].len && May(plan, scan, RowId(k, o)) ensures o in table[k].applied {
        assert o in Interval(0, source[k].len);
        assert o in Seen(table[k], scan);
      }
    }
  }

  ghost function Finished(d: Demand, source: Source, cut: set<Key>, scope: Scope): Demand {
    Demand(d.table, AppliedAll(source, d.table, cut), d.certs[scope := cut])
  }

  ghost function Installed(frontier: map<Partition, nat>, ends: map<Partition, nat>, d: Demand): map<Partition, nat> {
    if d.full then frontier + ends else frontier
  }

  // Completing a scope over the whole current cut keeps every promise, and moves the
  // frontier only when no row of the cut is missing.
  lemma FinishKeeps(plan: Plan, source: Source, ends: map<Partition, nat>, r: Record, scope: Scope)
    requires RecordOk(plan, source, ends, r) && SourceOk(source, ends) && r.demand.Some?
    requires InspectedAll(source, r.demand.value.table, source.Keys, ScanScope(plan, scope))
    ensures var d := Finished(r.demand.value, source, source.Keys, scope);
            RecordOk(plan, source, ends, r.(demand := Some(d), frontier := Installed(r.frontier, ends, d)))
  {
    var prior := r.demand.value;
    var d := Finished(prior, source, source.Keys, scope);
    var frontier := Installed(r.frontier, ends, d);
    InspectedMeansMatched(plan, source, prior.table, source.Keys, scope);
    forall k, o: nat | k in source
      ensures IsFolded(source, frontier, d.table, k, o) == IsFolded(source, r.frontier, prior.table, k, o)
    {
      assert k in prior.table;
    }
    SameFold(source, r.frontier, prior.table, frontier, d.table);
    if d.full {
      forall k | k in source
        ensures Covered(frontier, source[k])
        ensures forall o: nat :: o < source[k].len ==> IsFolded(source, frontier, d.table, k, o)
      {
        assert Complete(source, d.table, k);
      }
    }
    forall k | k in d.table && d.full ensures Complete(source, d.table, k) {
      assert k in source;
    }
  }
}
