/**
 Producer commits: walking a checkpoint lineage back to the last published commit and summing
 the unpublished signed deltas (crates/velorix-api/src/demand_publication.rs), and building the
 next checkpoint of the lineage (`persist_standing_runtime_checkpoint_inner` in
 crates/velorix-api/src/checkpoint_publication.rs).

 Hashes are ideal: a reference to a checkpoint is the checkpoint, and the key of a delta holds
 its rows.
 */
module Consolidation {
  import opened Wrappers
  import opened Deltas

  datatype Key = Key(epoch: nat, root: string)

  datatype DeltaKey = DeltaKey(epoch: nat, rows: seq<Row>)

  // `commit` is set on an authoritative producer commit.
  datatype Delta = Delta(epoch: nat, rows: seq<Row>, commit: bool)

  // The demand progress a checkpoint carries; `id` stands for all of it but the flag.
  datatype Progress = Progress(complete: bool, id: nat)

  datatype Checkpoint = Checkpoint(key: Key, progress: Progress, commits: seq<DeltaKey>, deltas: seq<DeltaKey>,
                                   previous: Option<Checkpoint>)

  datatype Sized<T> = Sized(bytes: nat, body: T)

  datatype Objects = Objects(headers: map<Key, Sized<Checkpoint>>, deltas: map<DeltaKey, Sized<Delta>>)

  datatype Limits = Limits(maxBytes: nat, maxRecords: nat)

  datatype Error = BudgetRequired | Corrupt | Overflow | StateConflict

  const HEADER_LIMIT := 16 * 1024 * 1024

  datatype Publication = Publication(rows: seq<Row>, lastPublished: Option<Checkpoint>, fetched: nat, visited: nat)

  predicate Published(c: Checkpoint) {
    c.commits != []
  }

  // The one delta a well-formed checkpoint refers to.
  function DeltaOf(c: Checkpoint): Option<DeltaKey> {
    if Published(c) then if c.progress.complete && |c.commits| == 1 then Some(c.commits[0]) else None
    else if !c.progress.complete && |c.deltas| == 1 then Some(c.deltas[0]) else None
  }

  // ---------------------------------------------------------------- what a lineage holds

  predicate DeltaOk(objects: Objects, c: Checkpoint) {
    var k := DeltaOf(c);
    && k.Some? && k.value in objects.deltas
    && objects.deltas[k.value].body == Delta(c.key.epoch, k.value.rows, Published(c))
  }

  function Rows(c: Checkpoint): seq<Row> {
    if DeltaOf(c).Some? then DeltaOf(c).value.rows else []
  }

  predicate HeaderStored(objects: Objects, c: Checkpoint) {
    c.key in objects.headers && objects.headers[c.key].body == c
  }

  // The checkpoint is stored as referred to, is older than the one after it, and has its delta.
  predicate Sound(objects: Objects, c: Checkpoint, next: nat) {
    && c.key.epoch < next
    && HeaderStored(objects, c) && objects.headers[c.key].bytes <= HEADER_LIMIT
    && DeltaOk(objects, c)
  }

  // Every checkpoint down to the last published one is sound.
  ghost predicate Walkable(objects: Objects, at: Option<Checkpoint>, next: nat)
    decreases at
  {
    at.Some? ==>
      && Sound(objects, at.value, next)
      && (Published(at.value) || Walkable(objects, at.value.previous, at.value.key.epoch))
  }

  function Bytes(objects: Objects, c: Checkpoint): nat {
    (if c.key in objects.headers then objects.headers[c.key].bytes else 0)
    + (if DeltaOf(c).Some? && DeltaOf(c).value in objects.deltas then objects.deltas[DeltaOf(c).value].bytes else 0)
  }

  // The bytes a walk reads.
  ghost function Cost(objects: Objects, at: Option<Checkpoint>): nat
    decreases at
  {
    if at.None? then 0
    else Bytes(objects, at.value) + if Published(at.value) then 0 else Cost(objects, at.value.previous)
  }

  ghost function Length(at: Option<Checkpoint>): nat
    decreases at
  {
    if at.None? then 0 else 1 + if Published(at.value) then 0 else Length(at.value.previous)
  }

  // The signed rows no commit holds yet.
  ghost function Pending(at: Option<Checkpoint>): seq<Row>
    decreases at
  {
    if at.None? || Published(at.value) then [] else Rows(at.value) + Pending(at.value.previous)
  }

  ghost function LastPublished(at: Option<Checkpoint>): Option<Checkpoint>
    decreases at
  {
    if at.None? || Published(at.value) then at else LastPublished(at.value.previous)
  }

  // A walk from here stays within the given bytes and records.
  ghost predicate Affordable(objects: Objects, at: Option<Checkpoint>, next: nat, bytes: int, records: int) {
    Walkable(objects, at, next) && Cost(objects, at) <= bytes && |Pending(at)| <= records
  }

  // ---------------------------------------------------------------- the walk

  // Reads one checkpoint and its delta; the bytes left when all is in order.
  method ReadStep(objects: Objects, c: Checkpoint, next: nat, seen: set<Key>, remaining: nat)
    returns (r: Result<nat, Error>)
    requires forall k :: k in seen ==> k in objects.headers && next <= objects.headers[k].body.key.epoch
    ensures r.Ok? <==> Sound(objects, c, next) && Bytes(objects, c) <= remaining
    ensures r.Ok? ==> r.value == remaining - Bytes(objects, c)
  {
    if c.key in seen || c.key.epoch >= next {
      return Err(Corrupt);
    }
    if c.key !in objects.headers {
      return Err(Corrupt);
    }
    var header := objects.headers[c.key];
    if header.bytes > HEADER_LIMIT || header.bytes > remaining {
      return Err(BudgetRequired);
    }
    var left: nat := remaining - header.bytes;
    if header.body != c {
      return Err(Corrupt);
    }
    var key := DeltaOf(c);
    if key.None? || key.value !in objects.deltas {
      return Err(Corrupt);
    }
    var delta := objects.deltas[key.value];
    if delta.bytes > left {
      return Err(BudgetRequired);
    }
    if delta.body != Delta(c.key.epoch, key.value.rows, Published(c)) {
      return Err(Corrupt);
    }
    r := Ok(left - delta.bytes);
  }

  // What the walk has established when it stands at `at`.
  ghost predicate Walked(objects: Objects, previous: Option<Checkpoint>, epoch: nat, current: seq<Row>, bytes: int, limits: Limits,
                         at: Option<Checkpoint>, next: nat, records: seq<Row>, remaining: nat, fetched: nat, visited: nat)
  {
    && (Affordable(objects, previous, epoch, bytes, limits.maxRecords - |current|)
        <==> Affordable(objects, at, next, remaining, limits.maxRecords - |records|))
    && records + Pending(at) == current + Pending(previous)
    && remaining + fetched == bytes && fetched + Cost(objects, at) == Cost(objects, previous)
    && visited + Length(at) == Length(previous)
    && LastPublished(at) == LastPublished(previous)
  }

  lemma WalkStep(objects: Objects, previous: Option<Checkpoint>, epoch: nat, current: seq<Row>, bytes: int, limits: Limits,
                 c: Checkpoint, next: nat, records: seq<Row>, remaining: nat, fetched: nat, visited: nat)
    requires Walked(objects, previous, epoch, current, bytes, limits, Some(c), next, records, remaining, fetched, visited)
    requires Sound(objects, c, next) && Bytes(objects, c) <= remaining && !Published(c)
    ensures Walked(objects, previous, epoch, current, bytes, limits, c.previous, c.key.epoch, records + Rows(c),
                   remaining - Bytes(objects, c), fetched + Bytes(objects, c), visited + 1)
  {
    assert records + Rows(c) + Pending(c.previous) == records + Pending(Some(c));
  }

  // Sums the current delta and every unpublished one before it. It succeeds exactly when the
  // lineage is sound, the budgets cover it and every sum fits; then the rows are the bag of
  // the current delta and all pending ones, in consolidated form.
  method Consolidate(objects: Objects, previous: Option<Checkpoint>, epoch: nat, current: seq<Row>, currentBytes: nat,
                     limits: Limits) returns (r: Result<Publication, Error>)
    ensures r.Ok? <==>
      && Affordable(objects, previous, epoch, limits.maxBytes - currentBytes, limits.maxRecords - |current|)
      && currentBytes <= limits.maxBytes && |current| <= limits.maxRecords
      && forall pair :: FitsI64(Weight(current + Pending(previous), pair))
    ensures r.Ok? ==>
      && Normal(r.value.rows) && SameBag(r.value.rows, current + Pending(previous))
      && r.value.lastPublished == LastPublished(previous)
      && r.value.fetched == Cost(objects, previous) && r.value.visited == Length(previous)
  {
    if currentBytes > limits.maxBytes || |current| > limits.maxRecords {
      return Err(BudgetRequired);
    }
    var records := current;
    var remaining: nat := limits.maxBytes - currentBytes;
    var fetched: nat, visited: nat := 0, 0;
    var lastPublished: Option<Checkpoint> := None;
    var pointer := previous;
    var seen: set<Key> := {};
    var next: nat := epoch;
    while pointer.Some?
      invariant Walked(objects, previous, epoch, current, limits.maxBytes - currentBytes, limits,
                       pointer, next, records, remaining, fetched, visited)
      invariant lastPublished == None && |records| <= limits.maxRecords
      invariant forall k :: k in seen ==> k in objects.headers && next <= objects.headers[k].body.key.epoch
      decreases pointer
    {
      var c := pointer.value;
      var left := ReadStep(objects, c, next, seen, remaining);
      if left.Err? {
        return Err(left.error);
      }
      if Published(c) {
        fetched, remaining, visited := fetched + (remaining - left.value), left.value, visited + 1;
        lastPublished := pointer;
        break;
      }
      if |records| + |Rows(c)| > limits.maxRecords {
        return Err(BudgetRequired);
      }
      WalkStep(objects, previous, epoch, current, limits.maxBytes - currentBytes, limits, c, next, records, remaining, fetched, visited);
      fetched, remaining, visited := fetched + (remaining - left.value), left.value, visited + 1;
      seen := seen + {c.key};
      next := c.key.epoch;
      records := records + Rows(c);
      pointer := c.previous;
    }
    assert records == records + [];
    var net := NetRows(records);
    if net.None? {
      return Err(Overflow);
    }
    r := Ok(Publication(net.value, lastPublished, fetched, visited));
  }

  // ---------------------------------------------------------------- the next checkpoint

  function PutDelta(objects: Objects, key: DeltaKey, delta: Sized<Delta>): Option<Objects> {
    if key !in objects.deltas then Some(objects.(deltas := objects.deltas[key := delta]))
    else if objects.deltas[key].body == delta.body then Some(objects)
    else None
  }

  function PutHeader(objects: Objects, header: Sized<Checkpoint>): Option<Objects> {
    var key := header.body.key;
    if key !in objects.headers then Some(objects.(headers := objects.headers[key := header]))
    else if objects.headers[key].body == header.body then Some(objects)
    else None
  }

  ghost predicate Grows(a: Objects, b: Objects) {
    && (forall k :: k in a.headers ==> k in b.headers && b.headers[k] == a.headers[k])
    && (forall k :: k in a.deltas ==> k in b.deltas && b.deltas[k] == a.deltas[k])
  }

  // What one unit of work hands over: its checkpoint's identity and the rows the runtime emitted.
  datatype Unit = Unit(key: Key, progress: Progress, rows: seq<Row>, rowBytes: nat)

  // The rows a unit's checkpoint publishes: its own, consolidated with the pending ones when it
  // completes, or those of the commit it repeats.
  method PublishedRows(objects: Objects, previous: Option<Checkpoint>, unit: Unit, limits: Limits)
    returns (r: Result<seq<Row>, Error>)
    ensures !unit.progress.complete ==> r == Ok(unit.rows)
    ensures (previous.Some? ==> previous.value.key.epoch < unit.key.epoch) && Summable(objects, previous, unit, limits) ==> r.Ok?
    ensures IsRetry(objects, previous, unit) ==> r.Ok?
    ensures r.Ok? && unit.progress.complete && (previous.Some? ==> previous.value.key.epoch < unit.key.epoch) ==>
      SameBag(r.value, unit.rows + Pending(previous)) && Normal(r.value)
    ensures r.Ok? && unit.progress.complete && previous.Some? && unit.key.epoch <= previous.value.key.epoch ==>
      unit.key == previous.value.key && Published(previous.value) && DeltaOk(objects, previous.value)
      && r.value == Rows(previous.value)
  {
    if !unit.progress.complete {
      return Ok(unit.rows);
    }
    if previous.None? || previous.value.key.epoch < unit.key.epoch {
      var publication := Consolidate(objects, previous, unit.key.epoch, unit.rows, unit.rowBytes, limits);
      return if publication.Ok? then Ok(publication.value.rows) else Err(publication.error);
    }
    var c := previous.value;
    if c.key != unit.key {
      return Err(StateConflict);
    }
    if !Published(c) || !DeltaOk(objects, c) {
      return Err(Corrupt);
    }
    r := Ok(Rows(c));
  }

  // Nothing was written under this epoch yet.
  ghost predicate FreshEpoch(objects: Objects, epoch: nat) {
    (forall k :: k in objects.headers ==> k.epoch != epoch) && (forall k :: k in objects.deltas ==> k.epoch != epoch)
  }

  // A completing unit needs a lineage it can sum within its limits.
  ghost predicate Summable(objects: Objects, previous: Option<Checkpoint>, unit: Unit, limits: Limits) {
    && Affordable(objects, previous, unit.key.epoch, limits.maxBytes - unit.rowBytes, limits.maxRecords - |unit.rows|)
    && unit.rowBytes <= limits.maxBytes && |unit.rows| <= limits.maxRecords
    && forall pair :: FitsI64(Weight(unit.rows + Pending(previous), pair))
  }

  // A new unit that nothing stands against.
  ghost predicate Acceptable(objects: Objects, previous: Option<Checkpoint>, unit: Unit, limits: Limits) {
    && FreshEpoch(objects, unit.key.epoch) && (previous.Some? ==> previous.value.key.epoch < unit.key.epoch)
    && (unit.progress.complete ==> Summable(objects, previous, unit, limits))
  }

  // The one reference of a checkpoint, as this program writes it.
  predicate WellShaped(c: Checkpoint) {
    var key := DeltaKey(c.key.epoch, Rows(c));
    if c.progress.complete then c.commits == [key] && c.deltas == [] else c.commits == [] && c.deltas == [key]
  }

  // The unit is the one the head was made of, offered again.
  predicate IsRetry(objects: Objects, previous: Option<Checkpoint>, unit: Unit) {
    && previous.Some? && unit.key == previous.value.key && unit.progress == previous.value.progress
    && WellShaped(previous.value) && DeltaOk(objects, previous.value)
    && HeaderStored(objects, previous.value)
    && (!unit.progress.complete ==> unit.rows == Rows(previous.value))
  }

  // Builds, writes and offers the next checkpoint of a lineage. A repeated unit gives back the
  // checkpoint that is there; any other extends the lineage by this unit.
  method Persist(objects: Objects, previous: Option<Checkpoint>, unit: Unit, deltaBytes: nat, headerBytes: nat, limits: Limits)
    returns (r: Result<Checkpoint, Error>, after: Objects)
    ensures Grows(objects, after)
    ensures r.Ok? && previous.Some? && r.value == previous.value ==> unit.key == previous.value.key
    ensures r.Ok? ==> WellShaped(r.value)
    ensures IsRetry(objects, previous, unit) ==> r == Ok(previous.value) && after == objects
    ensures Acceptable(objects, previous, unit, limits) ==> r.Ok?
    ensures r.Ok? && !(previous.Some? && r.value == previous.value) ==>
      && r.value.key == unit.key && r.value.previous == previous && r.value.progress == unit.progress
      && (previous.Some? ==> previous.value.key.epoch < unit.key.epoch)
      && HeaderStored(after, r.value) && DeltaOk(after, r.value) && (Published(r.value) <==> unit.progress.complete)
      && (unit.progress.complete ==> SameBag(Rows(r.value), unit.rows + Pending(previous)))
      && (!unit.progress.complete ==> Rows(r.value) == unit.rows)
  {
    after := objects;
    if previous.Some? && unit.key.epoch <= previous.value.key.epoch && unit.progress != previous.value.progress {
      return Err(StateConflict), after;
    }
    var rows := PublishedRows(objects, previous, unit, limits);
    if rows.Err? {
      return Err(rows.error), after;
    }
    r, after := WriteCheckpoint(objects, previous, unit, rows.value, deltaBytes, headerBytes);
  }

  // Writes the delta, then the record that refers to it, and offers the checkpoint.
  method WriteCheckpoint(objects: Objects, previous: Option<Checkpoint>, unit: Unit, rows: seq<Row>, deltaBytes: nat,
                         headerBytes: nat) returns (r: Result<Checkpoint, Error>, after: Objects)
    ensures Grows(objects, after)
    ensures r.Ok? ==>
      && r.value.key == unit.key && r.value.progress == unit.progress && Rows(r.value) == rows
      && WellShaped(r.value) && HeaderStored(after, r.value) && DeltaOk(after, r.value)
      && (Published(r.value) <==> unit.progress.complete)
    ensures r.Ok? && !(previous.Some? && r.value == previous.value) ==>
      r.value.previous == previous && (previous.Some? ==> previous.value.key.epoch < unit.key.epoch)
    ensures IsRetry(objects, previous, unit) && rows == Rows(previous.value) ==> r == Ok(previous.value) && after == objects
    ensures FreshEpoch(objects, unit.key.epoch) && (previous.Some? ==> previous.value.key.epoch < unit.key.epoch) ==> r.Ok?
  {
    after := objects;
    var complete := unit.progress.complete;
    var key := DeltaKey(unit.key.epoch, rows);
    var put := PutDelta(objects, key, Sized(deltaBytes, Delta(unit.key.epoch, rows, complete)));
    if put.None? {
      return Err(StateConflict), after;
    }
    after := put.value;
    var refs := if complete then ([key], []) else ([], [key]);
    var duplicate := previous.Some? && previous.value.key == unit.key && previous.value.progress == unit.progress
                     && previous.value.commits == refs.0 && previous.value.deltas == refs.1;
    var candidate := Checkpoint(unit.key, unit.progress, refs.0, refs.1, if duplicate then previous.value.previous else previous);
    var header := PutHeader(after, Sized(headerBytes, candidate));
    if header.None? {
      return Err(StateConflict), after;
    }
    after := header.value;
    // The metadata store refuses a new checkpoint whose epoch does not grow.
    if previous.Some? && candidate != previous.value && unit.key.epoch <= previous.value.key.epoch {
      return Err(StateConflict), after;
    }
    r := Ok(candidate);
  }

  // Every checkpoint of the lineage is stored with its delta, as this program writes it, and
  // epochs fall towards the past.
  ghost predicate Stored(objects: Objects, at: Option<Checkpoint>)
    decreases at
  {
    at.Some? ==>
      && WellShaped(at.value) && HeaderStored(objects, at.value) && DeltaOk(objects, at.value)
      && (at.value.previous.Some? ==> at.value.previous.value.key.epoch < at.value.key.epoch)
      && Stored(objects, at.value.previous)
  }

  lemma {:induction false} StoredStays(a: Objects, b: Objects, at: Option<Checkpoint>)
    requires Grows(a, b) && Stored(a, at)
    ensures Stored(b, at)
    decreases at
  {
    if at.Some? {
      StoredStays(a, b, at.value.previous);
    }
  }

  // ---------------------------------------------------------------- conservation

  // The lineage was built by these units, oldest first: a partial checkpoint holds its unit's
  // rows, a published one the bag of its unit's rows and all that were pending.
  ghost predicate BuiltBy(at: Option<Checkpoint>, units: seq<seq<Row>>)
    decreases at
  {
    if at.None? then units == []
    else
      && units != [] && BuiltBy(at.value.previous, units[..|units| - 1])
      && (if Published(at.value) then SameBag(Rows(at.value), units[|units| - 1] + Pending(at.value.previous))
          else Rows(at.value) == units[|units| - 1])
  }

  // The multiplicity of a pair over all commits of a lineage.
  ghost function Committed(at: Option<Checkpoint>, pair: int): int
    decreases at
  {
    if at.None? then 0
    else Committed(at.value.previous, pair) + if Published(at.value) then Weight(Rows(at.value), pair) else 0
  }

  // The multiplicity of a pair in everything the runtime emitted.
  ghost function Output(units: seq<seq<Row>>, pair: int): int {
    if units == [] then 0 else Output(units[..|units| - 1], pair) + Weight(units[|units| - 1], pair)
  }

  // Nothing emitted is lost or counted twice: the commits and the pending rows make up the
  // output, and right after a commit the commits alone do.
  lemma {:induction false} Conservation(at: Option<Checkpoint>, units: seq<seq<Row>>, pair: int)
    requires BuiltBy(at, units)
    ensures Committed(at, pair) + Weight(Pending(at), pair) == Output(units, pair)
    ensures at.Some? && Published(at.value) ==> Committed(at, pair) == Output(units, pair)
    decreases at
  {
    if at.Some? {
      var c, last := at.value, units[|units| - 1];
      Conservation(c.previous, units[..|units| - 1], pair);
      if Published(c) {
        WeightConcat(last, Pending(c.previous), pair);
        assert Weight(Rows(c), pair) == Weight(last + Pending(c.previous), pair);
      } else {
        WeightConcat(Rows(c), Pending(c.previous), pair);
      }
    }
  }

  // A consolidated commit is determined by the bag it stands for.
  lemma CommitIsDetermined(previous: Option<Checkpoint>, a: seq<Row>, b: seq<Row>, rows: seq<Row>)
    requires Normal(a) && Normal(b) && SameBag(a, rows + Pending(previous)) && SameBag(b, rows + Pending(previous))
    ensures a == b
  {
    forall pair ensures Weight(a, pair) == Weight(b, pair) {
      assert Weight(a, pair) == Weight(rows + Pending(previous), pair);
    }
    NormalIsUnique(a, b);
  }

  lemma ExtendLineage(c: Checkpoint, units: seq<seq<Row>>, rows: seq<Row>)
    requires BuiltBy(c.previous, units)
    requires if Published(c) then SameBag(Rows(c), rows + Pending(c.previous)) else Rows(c) == rows
    ensures BuiltBy(Some(c), units + [rows])
    ensures Published(c) ==> Pending(Some(c)) == [] && forall pair :: Committed(Some(c), pair) == Output(units + [rows], pair)
  {
    var more := units + [rows];
    assert more[..|more| - 1] == units;
    assert BuiltBy(Some(c), more);
    forall pair ensures Published(c) ==> Committed(Some(c), pair) == Output(more, pair) {
      Conservation(Some(c), more, pair);
    }
  }

  // A producer view: its objects, its head checkpoint and what its runtime has emitted.
  class Producer {
    var objects: Objects
    var head: Option<Checkpoint>
    ghost var emitted: seq<seq<Row>>

    ghost predicate Valid()
      reads this
    {
      BuiltBy(head, emitted) && Stored(objects, head)
    }

    constructor ()
      ensures Valid() && head == None && emitted == []
    {
      objects := Objects(map[], map[]);
      head := None;
      emitted := [];
    }

    // A producer restored from its store.
    constructor At(objects: Objects, head: Option<Checkpoint>)
      ensures this.objects == objects && this.head == head
    {
      this.objects := objects;
      this.head := head;
    }

    // Commits one unit. A repeated unit and a failed one leave the head as it was; any other
    // adds its rows to what is emitted, and a completing one leaves nothing pending.
    method Commit(unit: Unit, deltaBytes: nat, headerBytes: nat, limits: Limits) returns (ok: bool)
      requires Valid()
      modifies this
      ensures Valid() && Grows(old(objects), objects)
      ensures head == old(head) ==> emitted == old(emitted)
      ensures !ok ==> head == old(head)
      ensures ok && head != old(head) ==>
        emitted == old(emitted) + [unit.rows] && head.Some? && head.value.previous == old(head) && head.value.key == unit.key
      ensures ok && unit.progress.complete && head != old(head) ==>
        Pending(head) == [] && forall pair :: Committed(head, pair) == Output(emitted, pair)
      ensures ok && old(head).Some? && unit.key.epoch <= old(head).value.key.epoch ==> head == old(head)
      ensures Acceptable(old(objects), old(head), unit, limits) ==> ok && head != old(head)
      ensures IsRetry(old(objects), old(head), unit) ==> ok && head == old(head) && objects == old(objects)
    {
      var r;
      r, objects := Persist(objects, head, unit, deltaBytes, headerBytes, limits);
      ok := r.Ok?;
      StoredStays(old(objects), objects, head);
      if ok && !(head.Some? && r.value == head.value) {
        ExtendLineage(r.value, emitted, unit.rows);
        emitted := emitted + [unit.rows];
        head := Some(r.value);
      }
    }
  }
}
