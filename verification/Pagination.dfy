/**
 Pages over a pinned checkpoint (crates/velorix-api/src/demand_pagination.rs). A token is an ideal
 authenticator: it is the cursor it stands for.
 */
module Pagination {
  import opened Wrappers
  import opened Batches
  import opened Consolidation

  const MAX_LINEAGE_HOPS := 1024

  // The checkpoint a token pins, and how many rows of its result were served.
  datatype Cursor = Cursor(pinned: Checkpoint, offset: nat)

  datatype Page<T> = Page(batches: seq<seq<T>>, next: Option<Cursor>)

  // ---------------------------------------------------------------- finding the pinned checkpoint

  // The checkpoint so many predecessors back.
  ghost function Ancestor(at: Checkpoint, k: nat): Option<Checkpoint>
    decreases k
  {
    if k == 0 then Some(at) else if at.previous.None? then None else Ancestor(at.previous.value, k - 1)
  }

  // Down to the k-th predecessor epochs fall and every header is stored.
  ghost predicate SoundTo(objects: Objects, at: Checkpoint, k: nat)
    decreases k
  {
    k > 0 ==>
      && at.previous.Some? && at.previous.value.key.epoch < at.key.epoch && HeaderStored(objects, at.previous.value)
      && SoundTo(objects, at.previous.value, k - 1)
  }

  // The pinned checkpoint is a predecessor within the bound, and the way there is sound.
  ghost predicate Reachable(objects: Objects, at: Checkpoint, pinned: Checkpoint, hops: nat) {
    exists k: nat :: k <= hops && SoundTo(objects, at, k) && Ancestor(at, k) == Some(pinned)
  }

  // Epochs only fall on the way, so a checkpoint further back is older.
  lemma {:induction false} AncestorIsOlder(objects: Objects, at: Checkpoint, k: nat)
    requires SoundTo(objects, at, k)
    ensures Ancestor(at, k).Some? && (k > 0 ==> Ancestor(at, k).value.key.epoch < at.key.epoch)
    decreases k
  {
    if k > 0 {
      AncestorIsOlder(objects, at.previous.value, k - 1);
    }
  }

  lemma ReachStep(objects: Objects, at: Checkpoint, pinned: Checkpoint, hops: nat)
    requires at.key != pinned.key
    ensures Reachable(objects, at, pinned, hops) <==>
      && hops > 0 && pinned.key.epoch < at.key.epoch
      && at.previous.Some? && at.previous.value.key.epoch < at.key.epoch && HeaderStored(objects, at.previous.value)
      && Reachable(objects, at.previous.value, pinned, hops - 1)
  {
    if Reachable(objects, at, pinned, hops) {
      var k: nat :| k <= hops && SoundTo(objects, at, k) && Ancestor(at, k) == Some(pinned);
      AncestorIsOlder(objects, at, k);
      assert k > 0;
      assert SoundTo(objects, at.previous.value, k - 1) && Ancestor(at.previous.value, k - 1) == Some(pinned);
    }
    if hops > 0 && at.previous.Some? && Reachable(objects, at.previous.value, pinned, hops - 1) {
      var k: nat :| k <= hops - 1 && SoundTo(objects, at.previous.value, k) && Ancestor(at.previous.value, k) == Some(pinned);
      assert Ancestor(at, k + 1) == Some(pinned);
      if at.previous.value.key.epoch < at.key.epoch && HeaderStored(objects, at.previous.value) {
        assert SoundTo(objects, at, k + 1);
      }
    }
  }

  lemma ReachHere(objects: Objects, at: Checkpoint, pinned: Checkpoint, hops: nat)
    requires at.key == pinned.key
    ensures Reachable(objects, at, pinned, hops) <==> at == pinned
  {
    if Reachable(objects, at, pinned, hops) {
      var k: nat :| k <= hops && SoundTo(objects, at, k) && Ancestor(at, k) == Some(pinned);
      AncestorIsOlder(objects, at, k);
    }
    if at == pinned {
      assert SoundTo(objects, at, 0) && Ancestor(at, 0) == Some(pinned);
    }
  }

  // Walks back from the current head. The pinned checkpoint is found exactly when it is a
  // predecessor within the hop bound, wherever the head has moved meanwhile.
  method FindPinned(objects: Objects, head: Checkpoint, pinned: Checkpoint) returns (r: Option<Checkpoint>)
    ensures r.Some? <==> Reachable(objects, head, pinned, MAX_LINEAGE_HOPS)
    ensures r.Some? ==> r.value == pinned
  {
    var record, hops := head, 0;
    while record.key != pinned.key
      invariant 0 <= hops <= MAX_LINEAGE_HOPS
      invariant Reachable(objects, head, pinned, MAX_LINEAGE_HOPS)
                <==> Reachable(objects, record, pinned, MAX_LINEAGE_HOPS - hops)
      decreases MAX_LINEAGE_HOPS - hops
    {
      ReachStep(objects, record, pinned, MAX_LINEAGE_HOPS - hops);
      if hops >= MAX_LINEAGE_HOPS || record.key.epoch <= pinned.key.epoch {
        return None;
      }
      if record.previous.None? || record.previous.value.key.epoch >= record.key.epoch {
        return None;
      }
      if !HeaderStored(objects, record.previous.value) {
        return None;
      }
      record := record.previous.value;
      hops := hops + 1;
    }
    ReachHere(objects, record, pinned, MAX_LINEAGE_HOPS - hops);
    r := if record == pinned then Some(record) else None;
  }

  // ---------------------------------------------------------------- one page

  // Cuts one page out of the complete pinned result. There is a next page exactly when rows are
  // left, and it starts where this one ends.
  method FinishPage<T>(cursor: Cursor, limit: nat, result: seq<seq<T>>) returns (r: Option<Page<T>>)
    ensures r.Some? <==> cursor.offset <= |Flatten(result)|
    ensures r.Some? ==>
      var rows, end := Flatten(result), Min(cursor.offset + limit, |Flatten(result)|);
      && Flatten(r.value.batches) == rows[cursor.offset..end] && r.value.batches != []
      && r.value.next == if end < |rows| then Some(Cursor(cursor.pinned, end)) else None
  {
    var total := RowCount(result);
    if cursor.offset > total {
      return None;
    }
    var end := Min(cursor.offset + limit, total);
    var batches := Slice(result, cursor.offset, end);
    if batches == [] {
      batches := [[]];
      assert Flatten([[]]) == [] + Flatten<T>([]);
    }
    r := Some(Page(batches, if end < total then Some(Cursor(cursor.pinned, end)) else None));
  }

  // ---------------------------------------------------------------- following the tokens

  // What a client meets at its n-th request: the head of the moment, the objects of the moment
  // and the page limit it asks for.
  datatype Visit = Visit(objects: Objects, head: Checkpoint, limit: nat)

  ghost predicate StaysReachable(visits: nat -> Visit, pinned: Checkpoint) {
    forall n: nat :: Reachable(visits(n).objects, visits(n).head, pinned, MAX_LINEAGE_HOPS)
  }

  // Follows tokens from the first page to the last, each time over the result of the checkpoint
  // the walk from the current head finds. As long as the pinned checkpoint stays
  // within the hop bound, the pages are the complete pinned result, in order and with
  // duplicates, whatever the head and the page limits do.
  method FollowTokens<T>(visits: nat -> Visit, pinned: Checkpoint, resultOf: Checkpoint -> seq<seq<T>>)
    returns (r: Option<seq<Page<T>>>)
    requires forall n: nat :: visits(n).limit > 0
    ensures StaysReachable(visits, pinned) ==> r.Some?
    ensures r.Some? ==> Served(r.value) == Flatten(resultOf(pinned)) && 0 < |r.value| <= |Flatten(resultOf(pinned))| + 1
  {
    var pages: seq<Page<T>> := [];
    var cursor := Some(Cursor(pinned, 0));
    var n: nat := 0;
    ghost var served: seq<T> := [];
    while cursor.Some?
      invariant n == |pages| && served == Served(pages)
      invariant cursor.Some? ==>
        && cursor.value.pinned == pinned && n <= cursor.value.offset <= |Flatten(resultOf(pinned))|
        && served == Flatten(resultOf(pinned))[..cursor.value.offset]
      invariant cursor.None? ==> served == Flatten(resultOf(pinned)) && 0 < n <= |Flatten(resultOf(pinned))| + 1
      invariant cursor.Some? && n > 0 ==> cursor.value.offset < |Flatten(resultOf(pinned))|
      decreases if cursor.Some? then 1 + |Flatten(resultOf(pinned))| - cursor.value.offset else 0
    {
      var found := FindPinned(visits(n).objects, visits(n).head, cursor.value.pinned);
      if found.None? {
        return None;
      }
      var page := FinishPage(cursor.value, visits(n).limit, resultOf(found.value));
      ServeMore(pages, page.value);
      served := served + Flatten(page.value.batches);
      pages := pages + [page.value];
      cursor := page.value.next;
      n := n + 1;
    }
    r := Some(pages);
  }

  ghost function Served<T>(pages: seq<Page<T>>): seq<T> {
    if pages == [] then [] else Served(pages[..|pages| - 1]) + Flatten(pages[|pages| - 1].batches)
  }

  lemma ServeMore<T>(pages: seq<Page<T>>, page: Page<T>)
    ensures Served(pages + [page]) == Served(pages) + Flatten(page.batches)
  {
    assert (pages + [page])[..|pages|] == pages;
  }
}
