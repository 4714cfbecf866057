/**
 Every run of the demand engine: any number of workers, each with a lease token, a cached
 operator runtime and at most one unit under its view lock, share one metadata store that
 fences owners by epoch and moves the checkpoint head by compare-and-set.

 Sources: the unit of work in crates/velorix-api/src/demand_materialization.rs, the owner
 fence of a process in crates/velorix-api/src/lib.rs, and the metadata store in
 crates/velorix-meta/src/lib.rs.
 */
module DemandRuns {
  import opened Wrappers
  import opened Staging
  import opened Coverage

  type WorkerId = nat

  datatype Token = Token(owner: WorkerId, epoch: nat)

  // The cached operator runtime of a process.
  datatype Resident = Resident(epoch: nat, frontier: map<Partition, nat>, state: multiset<RowId>)

  // A bounded unit that is ready to be applied: new progress, rows to fold in, frontiers to set.
  datatype Unit = Unit(demand: Demand, bag: multiset<RowId>, install: map<Partition, nat>)

  datatype Task =
    | Idle
    | Leased(token: Token)
    | Ready(token: Token, previous: Option<Record>, cut: set<Key>, ends: map<Partition, nat>, scope: Scope, demand: Demand)
    | Staged(token: Token, previous: Option<Record>, cut: set<Key>, ends: map<Partition, nat>, scope: Scope,
             unit: Unit, fetched: Option<Resident>)
    | Applied(token: Token, previous: Option<Record>, cut: set<Key>, ends: map<Partition, nat>, scope: Scope, candidate: Record)
    | Committed(token: Token, cut: set<Key>, ends: map<Partition, nat>, scope: Scope, demand: Demand)

  // `marker` is the process's local owner fence.
  datatype Worker = Worker(marker: Option<Token>, resident: Option<Resident>, task: Task)

  // What the metadata store holds: the source cut, the checkpoint head, and the owner grants.
  datatype Meta = Meta(
    source: Source,
    ends: map<Partition, nat>,
    head: Option<Record>,
    ownerEpoch: nat,
    issued: map<nat, WorkerId>)

  datatype World = World(meta: Meta, workers: map<WorkerId, Worker>)

  // One step of a process.
  datatype Step =
    | SetOwner(epoch: nat)
    | Start(epoch: nat)
    | Read(scope: Scope)
    | Control
    | Work(stages: seq<Stage>)
    | Finish
    | Fetch
    | Restore
    | Apply
    | Publish(acked: bool)
    | ReRead
    | Done
    | Fail
    | Evict
    | Crash

  // Source ingestion, an owner grant by the metadata store, or a step of a process.
  datatype Action =
    | Ingest(key: Key, artifact: Artifact)
    | Grant(id: WorkerId)
    | Act(id: WorkerId, step: Step)

  function Base(head: Option<Record>): Record {
    if head.Some? then head.value else Record(0, None, map[], multiset{})
  }

  function DemandOf(r: Record): Demand {
    if r.demand.Some? then r.demand.value else Demand(map[], false, map[])
  }

  function ResidentOf(r: Record): Resident {
    Resident(r.epoch, r.frontier, r.state)
  }

  // The progress of a complete checkpoint names no artifact with an unapplied row.
  ghost predicate FullValid(source: Source, d: Demand) {
    d.full ==> forall k :: k in d.table ==> Coverage.Complete(source, d.table, k)
  }

  ghost predicate CanStep(plan: Plan, m: Meta, id: WorkerId, w: Worker, step: Step) {
    match step
    case SetOwner(e) => e in m.issued && (w.marker.Some? ==> w.marker.value.epoch <= e)
    case Start(e) =>
      && e in m.issued && m.issued[e] == id
      && w.marker.Some? && e <= w.marker.value.epoch && w.task.Idle?
    case Read(_) => w.task.Leased?
    case Control => w.task.Leased?
    case Work(stages) =>
      && w.task.Ready? && stages != []
      && StagesOk(plan, m.source, ScanScope(plan, w.task.scope), w.task.demand.table, stages)
    case Finish =>
      w.task.Ready? && InspectedAll(m.source, w.task.demand.table, w.task.cut, ScanScope(plan, w.task.scope))
    case Fetch => w.task.Staged? && w.resident.None?
    case Restore => w.task.Staged? && w.resident.None? && w.task.fetched.Some?
    case Apply => w.task.Staged? && w.resident.Some?
    case Publish(_) =>
      && w.task.Applied?
      && w.task.token.epoch == m.ownerEpoch
      && w.task.cut == m.source.Keys
      && m.head == w.task.previous
      && FullValid(m.source, DemandOf(w.task.candidate))
    case ReRead => w.task.Committed?
    case Done => w.task.Leased? || w.task.Ready? || w.task.Committed?
    case Fail => w.task.Staged? || w.task.Applied?
    case Evict => w.task.Idle?
    case Crash => true
  }

  ghost function Stepped(plan: Plan, m: Meta, id: WorkerId, w: Worker, step: Step): Worker
    requires CanStep(plan, m, id, w, step)
  {
    var t := w.task;
    match step
    case SetOwner(e) =>
      // A new owner fence cannot reuse the process's cached runtime.
      var claim := Some(Token(m.issued[e], e));
      w.(marker := claim, resident := if w.marker == claim then w.resident else None)
    case Start(e) => w.(task := Leased(Token(id, e)))
    case Read(scope) => w.(task := Reading(plan, m, t.token, scope))
    case Control =>
      w.(task := Staged(t.token, m.head, m.source.Keys, m.ends, None,
                        Unit(DemandOf(Base(m.head)), multiset{}, map[]), None))
    case Work(stages) =>
      var scan := ScanScope(plan, t.scope);
      var unit := Unit(Demand(ApplyStages(plan, m.source, scan, t.demand.table, stages), false, t.demand.certs),
                       StagedBag(plan, m.source, scan, t.demand.table, stages), map[]);
      w.(task := Staged(t.token, t.previous, t.cut, t.ends, t.scope, unit, None))
    case Finish =>
      var d := Finished(t.demand, m.source, t.cut, t.scope);
      w.(task := Staged(t.token, t.previous, t.cut, t.ends, t.scope,
                        Unit(d, multiset{}, if d.full then t.ends else map[]), None))
    case Fetch => w.(task := t.(fetched := Some(ResidentOf(Base(m.head)))))
    case Restore => w.(resident := t.fetched)
    case Apply =>
      var candidate := CandidateOf(t.previous, t.unit, w.resident.value);
      w.(resident := Some(ResidentOf(candidate)),
         task := Applied(t.token, t.previous, t.cut, t.ends, t.scope, candidate))
    case Publish(acked) =>
      if acked then w.(task := Committed(t.token, t.cut, t.ends, t.scope, DemandOf(t.candidate)))
      else w.(task := Idle, resident := None)
    case ReRead => w.(task := Ready(t.token, m.head, t.cut, t.ends, t.scope, t.demand.(full := false)))
    case Done => w.(task := Idle)
    case Fail => w.(task := Idle, resident := None)
    case Evict => w.(resident := None)
    case Crash => Worker(None, None, Idle)
  }

  // One metadata batch returns the head and the source cut; the unit then reconciles its
  // progress with every artifact of the cut.
  ghost function Reading(plan: Plan, m: Meta, token: Token, scope: Scope): Task {
    var r := Base(m.head);
    var table := Reconcile(m.source, r.frontier, TableOf(r), m.source.Keys, ScanScope(plan, scope));
    Ready(token, m.head, m.source.Keys, m.ends, scope, Demand(table, false, DemandOf(r).certs))
  }

  function CandidateOf(previous: Option<Record>, unit: Unit, r: Resident): Record {
    var before := Base(previous).epoch;
    Record(if r.epoch >= before then r.epoch + 1 else before + 1, Some(unit.demand),
           r.frontier + unit.install, r.state + unit.bag)
  }

  ghost predicate Enabled(plan: Plan, world: World, a: Action) {
    match a
    case Ingest(k, artifact) => CanIngest(world.meta.source, world.meta.ends, k, artifact)
    case Grant(_) => true
    case Act(id, step) => id in world.workers && CanStep(plan, world.meta, id, world.workers[id], step)
  }

  ghost function Next(plan: Plan, world: World, a: Action): World
    requires Enabled(plan, world, a)
  {
    var m := world.meta;
    match a
    case Ingest(k, artifact) =>
      world.(meta := m.(source := m.source[k := artifact], ends := m.ends[artifact.part := EndOf(artifact)]))
    case Grant(id) =>
      world.(meta := m.(ownerEpoch := m.ownerEpoch + 1, issued := m.issued[m.ownerEpoch + 1 := id]))
    case Act(id, step) =>
      var w := world.workers[id];
      World(if step.Publish? then m.(head := Some(w.task.candidate)) else m,
            world.workers[id := Stepped(plan, m, id, w, step)])
  }

  // ---------------------------------------------------------------- invariant

  ghost predicate Current(m: Meta, t: Task) {
    !t.Idle? && t.token.epoch == m.ownerEpoch
  }

  ghost predicate Live(m: Meta, t: Task) {
    Current(m, t) && !t.Leased? && t.cut == m.source.Keys
  }

  ghost predicate TokenOk(m: Meta, id: WorkerId, w: Worker) {
    && (w.marker.Some? ==> w.marker.value.epoch in m.issued
                           && w.marker.value == Token(m.issued[w.marker.value.epoch], w.marker.value.epoch))
    && (!w.task.Idle? ==>
          && w.task.token.epoch in m.issued && m.issued[w.task.token.epoch] == id == w.task.token.owner
          && w.marker.Some? && w.task.token.epoch <= w.marker.value.epoch)
    && (!w.task.Idle? && !w.task.Leased? ==> w.task.cut <= m.source.Keys)
  }

  // The head, moved by this progress, these rows and these frontiers, keeps every promise.
  ghost predicate Fits(plan: Plan, m: Meta, d: Demand, bag: multiset<RowId>, install: map<Partition, nat>) {
    var r := Base(m.head);
    RecordOk(plan, m.source, m.ends, Record(0, Some(d), r.frontier + install, r.state + bag))
  }

  ghost predicate TaskOk(plan: Plan, m: Meta, t: Task) {
    Live(m, t) ==>
      && t.ends == m.ends
      && match t
         case Ready(_, _, _, _, _, d) => Fits(plan, m, d, multiset{}, map[])
         case Staged(_, _, _, _, _, unit, _) =>
           && Fits(plan, m, unit.demand, unit.bag, unit.install)
           && (unit.install != map[] ==> CutComplete(m, unit.demand))
         case Applied(_, _, _, _, _, candidate) =>
           && candidate.demand.Some? && RecordOk(plan, m.source, m.ends, candidate)
           && Base(m.head).state <= candidate.state
           && (candidate.frontier != Base(m.head).frontier ==> CutComplete(m, candidate.demand.value))
         case Committed(_, _, _, _, d) => m.head.Some? && m.head.value.demand == Some(d)
         case _ => true
  }

  // Complete progress in which no row of the whole current cut is missing.
  ghost predicate CutComplete(m: Meta, d: Demand) {
    d.full && AppliedAll(m.source, d.table, m.source.Keys)
  }

  // A runtime cached under the current owner fence is the head's state, or the state of the
  // candidate that the current owner is about to publish.
  ghost predicate ResidentOk(m: Meta, id: WorkerId, w: Worker) {
    && (Current(m, w.task) && w.task.Staged? && w.task.fetched.Some? ==>
          w.task.fetched.value == ResidentOf(Base(m.head)))
    && (w.resident.Some? && w.marker == Some(Token(id, m.ownerEpoch)) ==>
          match w.task
          case Staged(_, _, _, _, _, _, _) => Current(m, w.task) ==> w.resident.value == ResidentOf(Base(m.head))
          case Applied(_, _, _, _, _, candidate) => Current(m, w.task) ==> w.resident.value == ResidentOf(candidate)
          case _ => w.resident.value == ResidentOf(Base(m.head)))
  }

  ghost predicate WorkerOk(plan: Plan, m: Meta, id: WorkerId, w: Worker) {
    TokenOk(m, id, w) && TaskOk(plan, m, w.task) && ResidentOk(m, id, w)
  }

  ghost predicate MetaOk(plan: Plan, m: Meta) {
    && SourceOk(m.source, m.ends)
    && RecordOk(plan, m.source, m.ends, Base(m.head))
    && forall e :: e in m.issued ==> e <= m.ownerEpoch
  }

  ghost predicate Inv(plan: Plan, world: World) {
    && MetaOk(plan, world.meta)
    && forall id :: id in world.workers ==> WorkerOk(plan, world.meta, id, world.workers[id])
  }

  ghost predicate Init(plan: Plan, world: World) {
    && SourceOk(world.meta.source, world.meta.ends)
    && RecordOk(plan, world.meta.source, world.meta.ends, Base(world.meta.head))
    && world.meta.ownerEpoch == 0 && world.meta.issued == map[]
    && forall id :: id in world.workers ==> world.workers[id] == Worker(None, None, Idle)
  }

  // ---------------------------------------------------------------- preservation

  lemma ReadKeeps(plan: Plan, m: Meta, scope: Scope)
    requires MetaOk(plan, m)
    ensures var r := Base(m.head);
            var table := Reconcile(m.source, r.frontier, TableOf(r), m.source.Keys, ScanScope(plan, scope));
            Fits(plan, m, Demand(table, false, DemandOf(r).certs), multiset{}, map[])
  {
    var r := Base(m.head);
    ReconcileKeeps(plan, m.source, m.ends, r, m.source.Keys, ScanScope(plan, scope));
    SameFoldFits(plan, m, Reconcile(m.source, r.frontier, TableOf(r), m.source.Keys, ScanScope(plan, scope)));
  }

  lemma SameFoldFits(plan: Plan, m: Meta, table: Table)
    requires MetaOk(plan, m)
    requires var r := Base(m.head);
      && Folded(m.source, r.frontier, table) == Folded(m.source, r.frontier, TableOf(r))
      && TableOk(plan, m.source, table) && FrontierOk(m.source, m.ends, r.frontier, table)
      && (forall k :: k in TableOf(r) ==> k in table && table[k].applied == TableOf(r)[k].applied)
    ensures Fits(plan, m, Demand(table, false, DemandOf(Base(m.head)).certs), multiset{}, map[])
  {
    CertsHeld(plan, m, table);
    Retabled(plan, m.source, m.ends, Base(m.head), Demand(table, false, DemandOf(Base(m.head)).certs));
  }

  lemma Retabled(plan: Plan, source: Source, ends: map<Partition, nat>, r: Record, d: Demand)
    requires r.state == multiset(Folded(source, r.frontier, d.table))
    requires TableOk(plan, source, d.table) && FrontierOk(source, ends, r.frontier, d.table) && DemandOk(plan, source, d)
    ensures RecordOk(plan, source, ends, Record(0, Some(d), r.frontier + map[], r.state + multiset{}))
  {
    assert r.frontier + map[] == r.frontier;
    assert r.state + multiset{} == r.state;
  }

  lemma CertsHeld(plan: Plan, m: Meta, table: Table)
    requires MetaOk(plan, m)
    requires var r := Base(m.head); forall k :: k in TableOf(r) ==> k in table && TableOf(r)[k].applied <= table[k].applied
    ensures DemandOk(plan, m.source, Demand(table, false, DemandOf(Base(m.head)).certs))
  {
    var r := Base(m.head);
    if r.demand.Some? {
      CertsSurvive(plan, m.source, r.demand.value, table);
    }
  }

  lemma ControlKeeps(plan: Plan, m: Meta)
    requires MetaOk(plan, m)
    ensures Fits(plan, m, DemandOf(Base(m.head)), multiset{}, map[])
  {
    var r := Base(m.head);
    assert r.frontier + map[] == r.frontier;
    assert r.state + multiset{} == r.state;
  }

  lemma WorkKeeps(plan: Plan, m: Meta, d: Demand, scan: Scope, stages: seq<Stage>)
    requires MetaOk(plan, m) && Fits(plan, m, d, multiset{}, map[])
    requires StagesOk(plan, m.source, scan, d.table, stages)
    ensures Fits(plan, m, Demand(ApplyStages(plan, m.source, scan, d.table, stages), false, d.certs),
                 StagedBag(plan, m.source, scan, d.table, stages), map[])
  {
    var r := Base(m.head);
    assert r.frontier + map[] == r.frontier;
    assert r.state + multiset{} == r.state;
    StagesKeep(plan, m.source, m.ends, r.frontier, scan, d.table, stages);
    CertsSurvive(plan, m.source, d, ApplyStages(plan, m.source, scan, d.table, stages));
  }

  lemma FinishFits(plan: Plan, m: Meta, d: Demand, scope: Scope)
    requires MetaOk(plan, m) && Fits(plan, m, d, multiset{}, map[])
    requires InspectedAll(m.source, d.table, m.source.Keys, ScanScope(plan, scope))
    ensures var d' := Finished(d, m.source, m.source.Keys, scope);
            Fits(plan, m, d', multiset{}, if d'.full then m.ends else map[])
  {
    var r := Base(m.head);
    assert r.frontier + map[] == r.frontier;
    assert r.state + multiset{} == r.state;
    FinishKeeps(plan, m.source, m.ends, Record(0, Some(d), r.frontier, r.state), scope);
  }

  lemma ApplyKeeps(plan: Plan, m: Meta, previous: Option<Record>, unit: Unit)
    requires Fits(plan, m, unit.demand, unit.bag, unit.install)
    ensures var c := CandidateOf(previous, unit, ResidentOf(Base(m.head)));
      && c.demand == Some(unit.demand) && RecordOk(plan, m.source, m.ends, c)
      && Base(m.head).state <= c.state
      && (unit.install == map[] ==> c.frontier == Base(m.head).frontier)
  {
    var r, c := Base(m.head), CandidateOf(previous, unit, ResidentOf(Base(m.head)));
    SameButEpoch(plan, m.source, m.ends, Record(0, Some(unit.demand), r.frontier + unit.install, r.state + unit.bag), c);
    assert unit.install == map[] ==> r.frontier + unit.install == r.frontier;
  }

  lemma SameButEpoch(plan: Plan, source: Source, ends: map<Partition, nat>, r: Record, c: Record)
    requires RecordOk(plan, source, ends, r) && c == r.(epoch := c.epoch)
    ensures RecordOk(plan, source, ends, c)
  {
  }

  lemma ReReadKeeps(plan: Plan, m: Meta, d: Demand)
    requires MetaOk(plan, m) && m.head.Some? && m.head.value.demand == Some(d)
    ensures Fits(plan, m, d.(full := false), multiset{}, map[])
  {
    var r := Base(m.head);
    assert r.frontier + map[] == r.frontier;
    assert r.state + multiset{} == r.state;
    CertsSurvive(plan, m.source, d, d.table);
  }

  // A token of the current epoch belongs to the worker whose local fence it is.
  lemma CurrentOwnsFence(m: Meta, id: WorkerId, w: Worker)
    requires TokenOk(m, id, w) && Current(m, w.task)
    requires forall e :: e in m.issued ==> e <= m.ownerEpoch
    ensures w.marker == Some(Token(id, m.ownerEpoch)) && m.ownerEpoch in m.issued && m.issued[m.ownerEpoch] == id
  {
  }

  lemma WorkTask(plan: Plan, m: Meta, id: WorkerId, w: Worker, stages: seq<Stage>)
    requires MetaOk(plan, m) && WorkerOk(plan, m, id, w) && CanStep(plan, m, id, w, Work(stages))
    ensures TaskOk(plan, m, Stepped(plan, m, id, w, Work(stages)).task)
  {
    var t := w.task;
    if Live(m, t) {
      WorkKeeps(plan, m, t.demand, ScanScope(plan, t.scope), stages);
    }
  }

  lemma FinishTask(plan: Plan, m: Meta, id: WorkerId, w: Worker)
    requires MetaOk(plan, m) && WorkerOk(plan, m, id, w) && CanStep(plan, m, id, w, Finish)
    ensures TaskOk(plan, m, Stepped(plan, m, id, w, Finish).task)
  {
    var t := w.task;
    if Live(m, t) {
      FinishFits(plan, m, t.demand, t.scope);
    }
  }

  lemma ApplyTask(plan: Plan, m: Meta, id: WorkerId, w: Worker)
    requires MetaOk(plan, m) && WorkerOk(plan, m, id, w) && CanStep(plan, m, id, w, Apply)
    ensures TaskOk(plan, m, Stepped(plan, m, id, w, Apply).task)
  {
    var t := w.task;
    if Live(m, t) {
      CurrentOwnsFence(m, id, w);
      ApplyKeeps(plan, m, t.previous, t.unit);
    }
  }

  lemma ReReadTask(plan: Plan, m: Meta, id: WorkerId, w: Worker)
    requires MetaOk(plan, m) && WorkerOk(plan, m, id, w) && CanStep(plan, m, id, w, ReRead)
    ensures TaskOk(plan, m, Stepped(plan, m, id, w, ReRead).task)
  {
    var t := w.task;
    if Live(m, t) {
      ReReadKeeps(plan, m, t.demand);
    }
  }

  lemma TaskKeeps(plan: Plan, m: Meta, id: WorkerId, w: Worker, step: Step)
    requires MetaOk(plan, m) && WorkerOk(plan, m, id, w) && CanStep(plan, m, id, w, step) && !step.Publish?
    ensures TaskOk(plan, m, Stepped(plan, m, id, w, step).task)
  {
    match step
    case Read(scope) => ReadKeeps(plan, m, scope);
    case Control => ControlKeeps(plan, m);
    case Work(stages) => WorkTask(plan, m, id, w, stages);
    case Finish => FinishTask(plan, m, id, w);
    case Apply => ApplyTask(plan, m, id, w);
    case ReRead => ReReadTask(plan, m, id, w);
    case _ =>
  }

  lemma WorkerKeeps(plan: Plan, m: Meta, id: WorkerId, w: Worker, step: Step)
    requires MetaOk(plan, m) && WorkerOk(plan, m, id, w) && CanStep(plan, m, id, w, step) && !step.Publish?
    ensures WorkerOk(plan, m, id, Stepped(plan, m, id, w, step))
  {
    TaskKeeps(plan, m, id, w, step);
    var w' := Stepped(plan, m, id, w, step);
    assert TokenOk(m, id, w');
    assert ResidentOk(m, id, w');
  }

  // Only one process can publish at a time, the latest one granted a lease. Its head holds all
  // the rows of the one before, and no other process holds anything that it would contradict.
  lemma PublishKeeps(plan: Plan, world: World, id: WorkerId, acked: bool)
    requires Inv(plan, world) && Enabled(plan, world, Act(id, Publish(acked)))
    ensures Inv(plan, Next(plan, world, Act(id, Publish(acked))))
    ensures world.meta.ownerEpoch in world.meta.issued && world.meta.issued[world.meta.ownerEpoch] == id
    ensures forall other, a :: Enabled(plan, world, Act(other, Publish(a))) ==> other == id
    ensures Base(world.meta.head).state <= Base(Next(plan, world, Act(id, Publish(acked))).meta.head).state
  {
    var m, w := world.meta, world.workers[id];
    var world' := Next(plan, world, Act(id, Publish(acked)));
    CurrentOwnsFence(m, id, w);
    OnePublisher(plan, world, id, acked);
    assert RecordOk(plan, m.source, m.ends, Base(world'.meta.head));
    forall other | other in world'.workers ensures WorkerOk(plan, world'.meta, other, world'.workers[other]) {
      if other == id {
        assert WorkerOk(plan, world'.meta, id, world'.workers[id]);
      } else {
        var v := world.workers[other];
        assert WorkerOk(plan, m, other, v);
        if Current(m, v.task) {
          CurrentOwnsFence(m, other, v);
          assert false;
        }
      }
    }
  }

  lemma OnePublisher(plan: Plan, world: World, id: WorkerId, acked: bool)
    requires Inv(plan, world) && Enabled(plan, world, Act(id, Publish(acked)))
    ensures forall other, a :: Enabled(plan, world, Act(other, Publish(a))) ==> other == id
  {
    assert WorkerOk(plan, world.meta, id, world.workers[id]);
    forall other, a | Enabled(plan, world, Act(other, Publish(a))) ensures other == id {
      assert WorkerOk(plan, world.meta, other, world.workers[other]);
    }
  }

  lemma IngestStep(plan: Plan, world: World, k: Key, a: Artifact)
    requires Inv(plan, world) && Enabled(plan, world, Ingest(k, a))
    ensures Inv(plan, Next(plan, world, Ingest(k, a)))
  {
    var m, m' := world.meta, Next(plan, world, Ingest(k, a)).meta;
    IngestKeeps(plan, m.source, m.ends, Base(m.head), k, a);
    forall id | id in world.workers ensures WorkerOk(plan, m', id, world.workers[id]) {
      var w := world.workers[id];
      assert WorkerOk(plan, m, id, w);
      assert m.source.Keys <= m'.source.Keys && k in m'.source.Keys && k !in m.source.Keys;
      assert !Live(m', w.task);
    }
  }

  // A grant fences out every unit that is under way: none of them can publish any more.
  lemma GrantStep(plan: Plan, world: World, id: WorkerId)
    requires Inv(plan, world)
    ensures Inv(plan, Next(plan, world, Grant(id)))
    ensures forall other, acked :: !Enabled(plan, Next(plan, world, Grant(id)), Act(other, Publish(acked)))
  {
    var m, m' := world.meta, Next(plan, world, Grant(id)).meta;
    forall other | other in world.workers ensures WorkerOk(plan, m', other, world.workers[other]) {
      var w := world.workers[other];
      assert WorkerOk(plan, m, other, w);
      assert m'.ownerEpoch !in m.issued;
      assert !Current(m', w.task);
    }
  }

  // A process that takes over another owner marker keeps no cached runtime.
  lemma ActStep(plan: Plan, world: World, id: WorkerId, step: Step)
    requires Inv(plan, world) && Enabled(plan, world, Act(id, step))
    ensures Inv(plan, Next(plan, world, Act(id, step)))
    ensures var w, w' := world.workers[id], Next(plan, world, Act(id, step)).workers[id];
            w'.marker != w.marker ==> w'.resident.None?
  {
    if step.Publish? {
      PublishKeeps(plan, world, id, step.acked);
    } else {
      WorkerKeeps(plan, world.meta, id, world.workers[id], step);
    }
  }

  lemma StepKeepsInv(plan: Plan, world: World, a: Action)
    requires Inv(plan, world) && Enabled(plan, world, a)
    ensures Inv(plan, Next(plan, world, a))
  {
    match a
    case Ingest(k, artifact) => IngestStep(plan, world, k, artifact);
    case Grant(id) => GrantStep(plan, world, id);
    case Act(id, step) => ActStep(plan, world, id, step);
  }

  // ---------------------------------------------------------------- runs

  ghost predicate IsRun(plan: Plan, world: World, run: seq<Action>)
    decreases |run|
  {
    run == [] || (Enabled(plan, world, run[0]) && IsRun(plan, Next(plan, world, run[0]), run[1..]))
  }

  ghost function Execute(plan: Plan, world: World, run: seq<Action>): World
    requires IsRun(plan, world, run)
    decreases |run|
  {
    if run == [] then world else Execute(plan, Next(plan, world, run[0]), run[1..])
  }

  // Exactly once: in every reachable state the rows folded into the head's operator state are
  // the rows at its applied ordinals, each once. The same invariant carries the meaning of the
  // scope records, of the certificates and of the input frontiers (`Coverage.RecordOk`).
  lemma {:induction false} ExactlyOnce(plan: Plan, world: World, run: seq<Action>)
    requires Init(plan, world) && IsRun(plan, world, run)
    ensures var m := Execute(plan, world, run).meta; RecordOk(plan, m.source, m.ends, Base(m.head))
    ensures var m, r := Execute(plan, world, run).meta, Base(Execute(plan, world, run).meta.head);
            forall row :: r.state[row] == if row in Folded(m.source, r.frontier, TableOf(r)) then 1 else 0
  {
    RunKeepsInv(plan, world, run);
  }

  // In every reachable state a certificate of a scope for an artifact means that every row of it
  // that may match the scope is in the head's state.
  lemma CertificatesHold(plan: Plan, world: World, run: seq<Action>, scope: Scope, k: Key, o: nat)
    requires Init(plan, world) && IsRun(plan, world, run)
    requires var m := Execute(plan, world, run).meta;
      && m.head.Some? && m.head.value.demand.Some?
      && scope in m.head.value.demand.value.certs && k in m.head.value.demand.value.certs[scope]
      && k in m.source && o < m.source[k].len && May(plan, ScanScope(plan, scope), RowId(k, o))
    ensures RowId(k, o) in Execute(plan, world, run).meta.head.value.state
  {
    RunKeepsInv(plan, world, run);
    var m := Execute(plan, world, run).meta;
    var r := m.head.value;
    assert Matched(plan, m.source, scope, r.demand.value.table, k);
    InFolded(m.source, r.frontier, TableOf(r), RowId(k, o));
  }

  // In every reachable state every source offset below an input frontier is in the head's state.
  lemma FrontiersHold(plan: Plan, world: World, run: seq<Action>, k: Key, o: nat)
    requires Init(plan, world) && IsRun(plan, world, run)
    requires var m := Execute(plan, world, run).meta;
      && m.head.Some? && k in m.source && o < m.source[k].len
      && m.source[k].start + o < At(m.head.value.frontier, m.source[k].part)
    ensures RowId(k, o) in Execute(plan, world, run).meta.head.value.state
  {
    RunKeepsInv(plan, world, run);
    var m := Execute(plan, world, run).meta;
    InFolded(m.source, m.head.value.frontier, TableOf(m.head.value), RowId(k, o));
  }

  lemma {:induction false} RunKeepsInv(plan: Plan, world: World, run: seq<Action>)
    requires Inv(plan, world) && IsRun(plan, world, run)
    ensures Inv(plan, Execute(plan, world, run))
    decreases |run|
  {
    if run != [] {
      StepKeepsInv(plan, world, run[0]);
      RunKeepsInv(plan, Next(plan, world, run[0]), run[1..]);
    }
  }

  // Durable work is never lost: along every run the rows folded into the head only grow.
  lemma {:induction false} HeadOnlyGrows(plan: Plan, world: World, run: seq<Action>)
    requires Inv(plan, world) && IsRun(plan, world, run)
    ensures Base(world.meta.head).state <= Base(Execute(plan, world, run).meta.head).state
    decreases |run|
  {
    if run != [] {
      StepKeepsInv(plan, world, run[0]);
      HeadOnlyGrows(plan, Next(plan, world, run[0]), run[1..]);
    }
  }

  // A frontier moves only in the step that publishes full completion of the whole cut.
  lemma FrontierMovesOnlyWhenComplete(plan: Plan, world: World, a: Action)
    requires Inv(plan, world) && Enabled(plan, world, a)
    requires Base(Next(plan, world, a).meta.head).frontier != Base(world.meta.head).frontier
    ensures a.Act? && a.step.Publish?
    ensures var r := Base(Next(plan, world, a).meta.head);
            r.demand.Some? && r.demand.value.full && AppliedAll(world.meta.source, r.demand.value.table, world.meta.source.Keys)
  {
    var w := world.workers[a.id];
    assert WorkerOk(plan, world.meta, a.id, w);
    assert Live(world.meta, w.task);
  }
}
