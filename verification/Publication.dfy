/**
 The checkpoint publication protocol
 (`persist_standing_runtime_checkpoint_inner`, `publish_standing_runtime_checkpoint_pointer`
 and `rehydrate_empty_meta_checkpoint_pointer_and_retry_publish` in
 crates/velorix-api/src/checkpoint_publication.rs, and the metadata compare-and-set in
 crates/velorix-meta/src/lib.rs).

 A hash is ideal: the digest of a record is the record itself.
 */
module Publication {
  import opened Wrappers

  datatype Key = CheckpointKey(epoch: nat, root: string) | ObjectKey(name: string)

  // A referenced object: where it is and what it must hold.
  datatype Ref = Ref(name: string, content: string)

  datatype Record = Record(epoch: nat, root: string, refs: seq<Ref>, previous: Option<Pointer>)

  datatype Pointer = Pointer(key: Key, epoch: nat, root: string, digest: Record,
                             prevKey: Option<Key>, prevDigest: Option<Record>)

  datatype Object = Blob(content: string) | Descriptor(record: Record)

  type Store = map<Key, Object>

  function RecordKey(r: Record): Key {
    CheckpointKey(r.epoch, r.root)
  }

  function PointerOf(r: Record): Pointer {
    match r.previous
    case None => Pointer(RecordKey(r), r.epoch, r.root, r, None, None)
    case Some(p) => Pointer(RecordKey(r), r.epoch, r.root, r, Some(p.key), Some(p.digest))
  }

  predicate IsRoot(p: Pointer) {
    p.prevKey.None? && p.prevDigest.None?
  }

  // ---------------------------------------------------------------- objects

  // Creates an object, or accepts one that is there with the same bytes.
  function PutExact(store: Store, key: Key, body: Object): (r: Option<Store>)
    ensures r.Some? <==> (key in store ==> store[key] == body)
    ensures r.Some? ==> key in r.value && r.value[key] == body && Grows(store, r.value)
  {
    if key !in store then Some(store[key := body])
    else if store[key] == body then Some(store)
    else None
  }

  // No object is removed and none changes.
  ghost predicate Grows(a: Store, b: Store) {
    forall k :: k in a ==> k in b && b[k] == a[k]
  }

  // A checkpoint pointer names an object with the committed digest whose body agrees with it.
  predicate Stored(store: Store, p: Pointer) {
    p.key in store && store[p.key] == Descriptor(p.digest) && p == PointerOf(p.digest)
  }

  predicate HasRef(store: Store, r: Ref) {
    ObjectKey(r.name) in store && store[ObjectKey(r.name)] == Blob(r.content)
  }

  ghost predicate HasRefs(store: Store, refs: seq<Ref>) {
    forall i :: 0 <= i < |refs| ==> HasRef(store, refs[i])
  }

  // A pointer's record, everything it refers to and all its predecessors are in the store.
  ghost predicate Durable(store: Store, p: Pointer)
    decreases p
  {
    && Stored(store, p)
    && HasRefs(store, p.digest.refs)
    && (p.digest.previous.Some? ==> Durable(store, p.digest.previous.value))
  }

  lemma {:induction false} DurableStays(a: Store, b: Store, p: Pointer)
    requires Grows(a, b) && Durable(a, p)
    ensures Durable(b, p)
    decreases p
  {
    forall i | 0 <= i < |p.digest.refs| ensures HasRef(b, p.digest.refs[i]) {
      assert HasRef(a, p.digest.refs[i]);
    }
    if p.digest.previous.Some? {
      DurableStays(a, b, p.digest.previous.value);
    }
  }

  // A pointer and its predecessors, newest first.
  ghost function Chain(p: Pointer): seq<Pointer>
    decreases p
  {
    [p] + if p.digest.previous.Some? then Chain(p.digest.previous.value) else []
  }

  // ---------------------------------------------------------------- the metadata compare-and-set

  datatype Outcome = Published | Duplicate | SourceCutChanged | Conflict | Rejected

  // What the metadata store demands of a request before it looks at the head.
  predicate ValidRequest(expected: Option<Pointer>, candidate: Pointer) {
    match expected
    case None => IsRoot(candidate)
    case Some(e) =>
      candidate == e
      || (e.epoch < candidate.epoch && candidate.prevKey == Some(e.key) && candidate.prevDigest == Some(e.digest))
  }

  // `cutsHold` is None when the request carries no source cuts. `boots` says that the candidate's
  // bootstrap record, if it carries one, agrees with the view's control record and goes on from the
  // head's, and that it carries one if the head does.
  function Cas(head: Option<Pointer>, expected: Option<Pointer>, candidate: Pointer, owned: bool, cutsHold: Option<bool>, boots: bool):
    (r: Outcome)
  {
    if !ValidRequest(expected, candidate) || !owned then Rejected
    else if head == Some(candidate) then Duplicate
    else if cutsHold == Some(false) then SourceCutChanged
    else if head != expected || !boots then Conflict
    else Published
  }

  class Metadata {
    var head: Option<Pointer>
    var objects: Store

    constructor (objects: Store)
      ensures head == None && this.objects == objects
    {
      head := None;
      this.objects := objects;
    }

    // One request. It is published only by the owner and over the head it expects, which it
    // names as its predecessor at a lower epoch; any other answer leaves the head alone.
    method Publish(expected: Option<Pointer>, candidate: Pointer, owned: bool, cutsHold: Option<bool>, boots: bool) returns (r: Outcome)
      modifies this`head
      ensures r == Published ==>
        && owned && cutsHold != Some(false) && boots && old(head) == expected && head == Some(candidate) && old(head) != head
        && (expected.Some? ==> expected.value.epoch < candidate.epoch && candidate.prevDigest == Some(expected.value.digest))
        && (expected.None? ==> IsRoot(candidate))
      ensures r != Published ==> head == old(head)
      ensures r == Duplicate ==> head == Some(candidate) && owned
      ensures r == Rejected <==> !owned || !ValidRequest(expected, candidate)
      ensures r == Conflict ==> (old(head) != expected || !boots) && old(head) != Some(candidate)
      ensures r == SourceCutChanged ==> cutsHold == Some(false)
      ensures owned && ValidRequest(expected, candidate) && old(head) == Some(candidate) ==> r == Duplicate
      ensures owned && ValidRequest(expected, candidate) && cutsHold != Some(false) && boots && old(head) == expected ==>
        r == Published || expected == Some(candidate)
    {
      r := Cas(head, expected, candidate, owned, cutsHold, boots);
      if r == Published {
        head := Some(candidate);
      }
    }

    // Restores the predecessor of a candidate on an empty head, then publishes the candidate.
    // An interrupted restoration has left the head empty, at the predecessor or at the
    // candidate: in each case the rerun succeeds, except that an empty head can be restored
    // only to a predecessor that is the first of its lineage, and that each of the two requests
    // must pass the bootstrap checks. When only the second fails them the head stays restored.
    method RehydrateAndRetry(previous: Pointer, candidate: Pointer, owned: bool, restores: bool, boots: bool) returns (ok: bool)
      requires ValidRequest(Some(previous), candidate)
      modifies this`head
      ensures ok ==> head == Some(candidate)
      ensures !ok ==> head == if old(head) == None && Restorable(objects, previous, owned, restores) then Some(previous) else old(head)
      ensures old(head) == None ==> (ok <==> Restorable(objects, previous, owned, restores) && (boots || candidate == previous))
      ensures old(head) == Some(previous) ==> (ok <==> owned && (boots || candidate == previous))
      ensures old(head).Some? && old(head) != Some(previous) ==> !ok
    {
      var current := head;
      if current.Some? {
        if current.value != previous {
          return false;
        }
      } else {
        if !Stored(objects, previous) {
          return false;
        }
        var restored := Publish(None, previous, owned, None, restores);
        if restored != Published && restored != Duplicate {
          return false;
        }
      }
      var outcome := Publish(Some(previous), candidate, owned, None, boots);
      ok := outcome == Published || outcome == Duplicate;
    }

    // Publishes a candidate over the predecessor it was built on.
    method PublishPointer(previous: Option<Pointer>, candidate: Pointer, owned: bool, cutsHold: Option<bool>, restores: bool, boots: bool)
      returns (ok: bool)
      modifies this`head
      ensures ok ==> head == Some(candidate)
      ensures !ok && head != old(head) ==>
        && cutsHold == None && old(head) == None && previous.Some? && head == previous && !boots
        && Restorable(objects, previous.value, owned, restores)
      ensures ok <==>
        && owned && ValidRequest(previous, candidate)
        && (old(head) == Some(candidate)
            || (cutsHold != Some(false) && boots && old(head) == previous)
            || (cutsHold == None && old(head) == None && previous.Some? && Restorable(objects, previous.value, owned, restores)
                && (boots || candidate == previous.value)))
    {
      var outcome := Publish(previous, candidate, owned, cutsHold, boots);
      match outcome
      case Published => ok := true;
      case Duplicate => ok := true;
      case SourceCutChanged => ok := false;
      case Rejected => ok := false;
      case Conflict =>
        if cutsHold.Some? || previous.None? {
          return false;
        }
        ok := RehydrateAndRetry(previous.value, candidate, owned, restores, boots);
    }
  }

  // An empty head can be restored to a checkpoint: the owner asks, its record is there, it is the
  // first of its lineage, and its bootstrap record passes.
  predicate Restorable(store: Store, previous: Pointer, owned: bool, restores: bool) {
    owned && Stored(store, previous) && IsRoot(previous) && restores
  }
}
