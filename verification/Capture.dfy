/**
 Capturing what a consumer has to replay of a producer: the lineage from the producer's head
 back to the consumer's bootstrap cursor, and the artifacts it stands for
 (`ReadBudget`, `capture_proof`, `published_header_digest` and `capture_demand_published_artifacts`
 in crates/velorix-api/src/demand_published.rs).
 */
module Capture {
  import opened Wrappers
  import opened Batches
  import opened Deltas
  import opened Consolidation
  import R = Replay

  const MAX_LINEAGE := 4096

  datatype CaptureError = OverBudget | BadLineage

  // The bytes a request may still read.
  class ReadBudget {
    const supplied: nat
    var used: nat

    ghost predicate Valid()
      reads this
    {
      used <= supplied
    }

    constructor (supplied: nat)
      ensures Valid() && this.supplied == supplied && used == 0
    {
      this.supplied := supplied;
      used := 0;
    }

    // Reads an object only when it fits as a whole.
    method Read(size: nat) returns (ok: bool)
      requires Valid()
      modifies this
      ensures Valid()
      ensures ok <==> old(used) + size <= supplied
      ensures used == if ok then old(used) + size else old(used)
    {
      ok := used + size <= supplied;
      if ok {
        used := used + size;
      }
    }
  }

  // A header says plainly whether it is a producer commit: a partial one has none.
  predicate HeaderOk(c: Checkpoint) {
    if c.progress.complete then |c.commits| == 1 else c.commits == []
  }

  // The header can be read with the bytes left and is where the walk may stand.
  predicate Readable(objects: Objects, at: Checkpoint, cursor: Checkpoint, n: nat, bytes: int) {
    && n < MAX_LINEAGE && cursor.key.epoch <= at.key.epoch
    && HeaderStored(objects, at) && objects.headers[at.key].bytes <= bytes && HeaderOk(at)
    && (at.key.epoch == cursor.key.epoch ==> at == cursor && Published(at))
  }

  // The walk from `at` reaches the cursor within the lineage bound and the bytes left.
  ghost predicate Reaches(objects: Objects, at: Checkpoint, cursor: Checkpoint, n: nat, bytes: int)
    decreases at
  {
    && Readable(objects, at, cursor, n, bytes)
    && (at.key.epoch != cursor.key.epoch ==>
          && at.previous.Some? && at.previous.value.key.epoch < at.key.epoch
          && Reaches(objects, at.previous.value, cursor, n + 1, bytes - objects.headers[at.key].bytes))
  }

  // The checkpoints from the cursor to `at`, oldest first.
  ghost function Lineage(at: Checkpoint, cursor: Checkpoint): (l: seq<Checkpoint>)
    ensures l != [] && l[|l| - 1] == at
    decreases at
  {
    if at.key.epoch <= cursor.key.epoch || at.previous.None? then [at] else Lineage(at.previous.value, cursor) + [at]
  }

  // The bytes the walk from `at` to the cursor reads.
  ghost function WalkBytes(objects: Objects, at: Checkpoint, cursor: Checkpoint): nat
    decreases at
  {
    (if at.key in objects.headers then objects.headers[at.key].bytes else 0)
    + (if at.key.epoch <= cursor.key.epoch || at.previous.None? then 0 else WalkBytes(objects, at.previous.value, cursor))
  }

  // Oldest first, each the predecessor of the next.
  ghost predicate IsLineage(l: seq<Checkpoint>) {
    && l != []
    && (forall i :: 0 <= i < |l| - 1 ==> l[i + 1].previous == Some(l[i]) && l[i].key.epoch < l[i + 1].key.epoch)
    && (forall i :: 0 <= i < |l| ==> HeaderOk(l[i]))
  }

  // Newest first, as the walk collects them.
  ghost predicate Descends(l: seq<Checkpoint>) {
    && (forall i :: 0 <= i < |l| - 1 ==> l[i].previous == Some(l[i + 1]) && l[i + 1].key.epoch < l[i].key.epoch)
    && (forall i :: 0 <= i < |l| ==> HeaderOk(l[i]))
  }

  function Reversed<T>(s: seq<T>): (r: seq<T>)
    ensures |r| == |s| && forall i :: 0 <= i < |s| ==> r[i] == s[|s| - 1 - i]
  {
    seq(|s|, i requires 0 <= i < |s| => s[|s| - 1 - i])
  }

  method ReadHeader(objects: Objects, at: Checkpoint, cursor: Checkpoint, n: nat, budget: ReadBudget)
    returns (r: Option<CaptureError>)
    requires budget.Valid()
    modifies budget
    ensures budget.Valid()
    ensures r.None? <==> Readable(objects, at, cursor, n, budget.supplied - old(budget.used))
    ensures r.None? ==> budget.used == old(budget.used) + objects.headers[at.key].bytes
  {
    if n >= MAX_LINEAGE || at.key.epoch < cursor.key.epoch || at.key !in objects.headers {
      return Some(BadLineage);
    }
    var fits := budget.Read(objects.headers[at.key].bytes);
    if !fits {
      return Some(OverBudget);
    }
    if objects.headers[at.key].body != at || !HeaderOk(at) {
      return Some(BadLineage);
    }
    if at.key.epoch == cursor.key.epoch && (at != cursor || !Published(at)) {
      return Some(BadLineage);
    }
    r := None;
  }

  // What the walk has collected when it stands at `pointer`.
  ghost predicate Collected(head: Checkpoint, lineage: seq<Checkpoint>, pointer: Checkpoint) {
    && Descends(lineage) && |lineage| <= MAX_LINEAGE
    && (if lineage == [] then pointer == head
        else
          && lineage[0] == head && lineage[|lineage| - 1].previous == Some(pointer)
          && pointer.key.epoch < lineage[|lineage| - 1].key.epoch)
  }

  lemma CollectNext(head: Checkpoint, lineage: seq<Checkpoint>, pointer: Checkpoint)
    requires Collected(head, lineage, pointer) && HeaderOk(pointer)
    ensures Descends(lineage + [pointer]) && (lineage + [pointer])[0] == head
  {
  }

  // How the walk stands at `pointer` with so many bytes left.
  ghost predicate WalkedTo(objects: Objects, head: Checkpoint, cursor: Checkpoint, bytes: int, lineage: seq<Checkpoint>,
                           pointer: Checkpoint, left: int) {
    && Collected(head, lineage, pointer)
    && (Reaches(objects, head, cursor, 0, bytes) <==> Reaches(objects, pointer, cursor, |lineage|, left))
    && Lineage(head, cursor) == Lineage(pointer, cursor) + Reversed(lineage)
    && WalkBytes(objects, head, cursor) == WalkBytes(objects, pointer, cursor) + (bytes - left)
  }

  lemma ReversedAppend<T>(s: seq<T>, x: T)
    ensures Reversed(s + [x]) == [x] + Reversed(s)
  {
  }

  lemma WalkOn(objects: Objects, head: Checkpoint, cursor: Checkpoint, bytes: int, lineage: seq<Checkpoint>, pointer: Checkpoint, left: int)
    requires WalkedTo(objects, head, cursor, bytes, lineage, pointer, left)
    requires Readable(objects, pointer, cursor, |lineage|, left) && pointer.key.epoch != cursor.key.epoch
    requires pointer.previous.Some? && pointer.previous.value.key.epoch < pointer.key.epoch
    ensures WalkedTo(objects, head, cursor, bytes, lineage + [pointer], pointer.previous.value, left - objects.headers[pointer.key].bytes)
  {
    CollectNext(head, lineage, pointer);
    ReversedAppend(lineage, pointer);
    var rest := Lineage(pointer.previous.value, cursor);
    assert rest + [pointer] + Reversed(lineage) == rest + ([pointer] + Reversed(lineage));
  }

  lemma WalkEnds(objects: Objects, head: Checkpoint, cursor: Checkpoint, bytes: int, lineage: seq<Checkpoint>, pointer: Checkpoint, left: int)
    requires WalkedTo(objects, head, cursor, bytes, lineage, pointer, left)
    requires Readable(objects, pointer, cursor, |lineage|, left) && pointer.key.epoch == cursor.key.epoch
    ensures var l := Reversed(lineage + [pointer]); l == Lineage(head, cursor) && IsLineage(l) && l[0] == cursor && Published(cursor)
    ensures Reaches(objects, head, cursor, 0, bytes)
    ensures WalkBytes(objects, head, cursor) == objects.headers[pointer.key].bytes + (bytes - left)
  {
    CollectNext(head, lineage, pointer);
    ReversedAppend(lineage, pointer);
    ReversedIsLineage(lineage + [pointer]);
  }

  // Walks from the head to the cursor. It succeeds exactly when the cursor is reached, and then
  // the lineage runs from the cursor to the head without a gap.
  method CaptureProof(objects: Objects, head: Checkpoint, cursor: Checkpoint, budget: ReadBudget)
    returns (r: Result<seq<Checkpoint>, CaptureError>)
    requires budget.Valid()
    modifies budget
    ensures budget.Valid()
    ensures r.Ok? <==> Reaches(objects, head, cursor, 0, budget.supplied - old(budget.used))
    ensures r.Ok? ==> r.value == Lineage(head, cursor) && budget.used == old(budget.used) + WalkBytes(objects, head, cursor)
    ensures r.Ok? ==>
      IsLineage(r.value) && r.value[0] == cursor && r.value[|r.value| - 1] == head && |r.value| <= MAX_LINEAGE && Published(cursor)
  {
    var pointer, lineage := head, [];
    ghost var bytes := budget.supplied - budget.used;
    assert Lineage(head, cursor) + Reversed<Checkpoint>([]) == Lineage(head, cursor);
    while true
      invariant budget.Valid() && WalkedTo(objects, head, cursor, bytes, lineage, pointer, budget.supplied - budget.used)
      decreases pointer
    {
      ghost var left := budget.supplied - budget.used;
      var failed := ReadHeader(objects, pointer, cursor, |lineage|, budget);
      if failed.Some? {
        return Err(failed.value);
      }
      if pointer.key.epoch == cursor.key.epoch {
        WalkEnds(objects, head, cursor, bytes, lineage, pointer, left);
        return Ok(Reversed(lineage + [pointer]));
      }
      if pointer.previous.None? || pointer.previous.value.key.epoch >= pointer.key.epoch {
        return Err(BadLineage);
      }
      WalkOn(objects, head, cursor, bytes, lineage, pointer, left);
      lineage, pointer := lineage + [pointer], pointer.previous.value;
    }
  }

  lemma ReversedIsLineage(l: seq<Checkpoint>)
    requires Descends(l) && l != []
    ensures IsLineage(Reversed(l))
  {
    var r := Reversed(l);
    forall i | 0 <= i < |r| - 1 ensures r[i + 1].previous == Some(r[i]) && r[i].key.epoch < r[i + 1].key.epoch {
      var k := |l| - 2 - i;
      assert l[k].previous == Some(l[k + 1]) && l[k + 1].key.epoch < l[k].key.epoch;
    }
  }

  // ---------------------------------------------------------------- the artifacts of one edge

  // A page of the producer's output at the cursor.
  datatype Snapshot = Snapshot(batches: seq<seq<Row>>, bytes: nat, sound: bool)

  function PageArtifact(e: nat, epoch: nat, page: Snapshot, i: nat): R.Artifact {
    R.Artifact(R.Id(e, epoch, i), R.Page, page.batches, page.bytes, page.sound)
  }

  function CommitArtifact(objects: Objects, e: nat, c: Checkpoint): R.Artifact {
    var key := DeltaOf(c);
    var bytes := if key.Some? && key.value in objects.deltas then objects.deltas[key.value].bytes else 0;
    R.Artifact(R.Id(e, c.key.epoch, 0), R.Commit, [Rows(c)], bytes, DeltaOk(objects, c))
  }

  ghost function Baseline(e: nat, epoch: nat, pages: seq<Snapshot>): seq<R.Artifact> {
    if pages == [] then [R.Artifact(R.Id(e, epoch, 0), R.EmptyBaseline, [], 0, true)]
    else seq(|pages|, i requires 0 <= i < |pages| => PageArtifact(e, epoch, pages[i], i))
  }

  // The published checkpoints of a lineage as signed commits, oldest first.
  ghost function Commits(objects: Objects, e: nat, l: seq<Checkpoint>): seq<R.Artifact> {
    if l == [] then []
    else
      var c := l[|l| - 1];
      Commits(objects, e, l[..|l| - 1]) + if Published(c) then [CommitArtifact(objects, e, c)] else []
  }

  lemma CommitsStep(objects: Objects, e: nat, l: seq<Checkpoint>, n: nat)
    requires 1 < n <= |l|
    ensures Commits(objects, e, l[1..n])
            == Commits(objects, e, l[1..n - 1]) + if Published(l[n - 1]) then [CommitArtifact(objects, e, l[n - 1])] else []
  {
    var s := l[1..n];
    assert s[..|s| - 1] == l[1..n - 1] && s[|s| - 1] == l[n - 1];
  }

  method CaptureBaseline(e: nat, epoch: nat, pages: seq<Snapshot>) returns (list: seq<R.Artifact>)
    ensures list == Baseline(e, epoch, pages)
  {
    list := [];
    if pages == [] {
      return [R.Artifact(R.Id(e, epoch, 0), R.EmptyBaseline, [], 0, true)];
    }
    var i := 0;
    while i < |pages|
      invariant 0 <= i <= |pages| && list == Baseline(e, epoch, pages)[..i]
    {
      list := list + [PageArtifact(e, epoch, pages[i], i)];
      i := i + 1;
    }
  }

  // The baseline at the cursor, then every later commit.
  method CaptureEdge(objects: Objects, e: nat, lineage: seq<Checkpoint>, pages: seq<Snapshot>) returns (list: seq<R.Artifact>)
    requires IsLineage(lineage)
    ensures list == Edge(objects, e, lineage, pages)
  {
    list := CaptureBaseline(e, lineage[0].key.epoch, pages);
    ghost var baseline := list;
    var i := 1;
    while i < |lineage|
      invariant 1 <= i <= |lineage|
      invariant list == baseline + Commits(objects, e, lineage[1..i])
    {
      CommitsStep(objects, e, lineage, i + 1);
      if Published(lineage[i]) {
        list := list + [CommitArtifact(objects, e, lineage[i])];
      }
      i := i + 1;
    }
    assert lineage[1..i] == lineage[1..];
  }

  ghost function Edge(objects: Objects, e: nat, lineage: seq<Checkpoint>, pages: seq<Snapshot>): seq<R.Artifact>
    requires lineage != []
  {
    Baseline(e, lineage[0].key.epoch, pages) + Commits(objects, e, lineage[1..])
  }

  lemma {:induction false} LineageAscends(l: seq<Checkpoint>, i: nat, j: nat)
    requires IsLineage(l) && i < j < |l|
    ensures l[i].key.epoch < l[j].key.epoch
    decreases j
  {
    assert l[j - 1].key.epoch < l[j - 1 + 1].key.epoch;
    if i < j - 1 {
      LineageAscends(l, i, j - 1);
    }
  }

  // Commit artifacts of an edge, ascending, after one epoch and up to another.
  ghost predicate Commitlike(e: nat, cs: seq<R.Artifact>, after: nat, upTo: nat) {
    && (forall i :: 0 <= i < |cs| ==> cs[i].id.edge == e && cs[i].payload.Commit? && after < cs[i].id.epoch <= upTo)
    && (forall i, j :: 0 <= i < j < |cs| ==> cs[i].id.epoch < cs[j].id.epoch)
  }

  // Every commit artifact comes from a checkpoint of its lineage, in order.
  lemma {:induction false} CommitsAscend(objects: Objects, e: nat, l: seq<Checkpoint>, n: nat)
    requires IsLineage(l) && 1 <= n <= |l|
    ensures Commitlike(e, Commits(objects, e, l[1..n]), l[0].key.epoch, l[n - 1].key.epoch)
    decreases n
  {
    if n > 1 {
      CommitsAscend(objects, e, l, n - 1);
      CommitsStep(objects, e, l, n);
      LineageAscends(l, n - 2, n - 1);
      LineageAscends(l, 0, n - 1);
      AppendCommit(e, Commits(objects, e, l[1..n - 1]), l[0].key.epoch, l[n - 2].key.epoch, CommitArtifact(objects, e, l[n - 1]));
    }
  }

  lemma AppendCommit(e: nat, cs: seq<R.Artifact>, after: nat, upTo: nat, a: R.Artifact)
    requires Commitlike(e, cs, after, upTo) && a.id.edge == e && a.payload.Commit? && after < a.id.epoch && upTo < a.id.epoch
    ensures Commitlike(e, cs + [a], after, a.id.epoch) && Commitlike(e, cs, after, a.id.epoch)
    ensures Commitlike(e, cs + [], after, a.id.epoch)
  {
    assert cs + [] == cs;
  }

  lemma BaselineList(e: nat, epoch: nat, pages: seq<Snapshot>)
    ensures R.ListOk(e, Baseline(e, epoch, pages))
    ensures forall i :: 0 <= i < |Baseline(e, epoch, pages)| ==> Baseline(e, epoch, pages)[i].id.epoch == epoch
  {
  }

  lemma JoinList(e: nat, list: seq<R.Artifact>, cs: seq<R.Artifact>, epoch: nat, upTo: nat)
    requires R.ListOk(e, list) && (forall i :: 0 <= i < |list| ==> list[i].id.epoch == epoch) && Commitlike(e, cs, epoch, upTo)
    ensures R.ListOk(e, list + cs)
    ensures R.HeadEpoch(list + cs) <= if cs == [] then epoch else upTo
  {
    var all := list + cs;
    forall i, j | 0 <= i < j < |all| ensures all[i].id != all[j].id && all[i].id.epoch <= all[j].id.epoch {
      if i < |list| <= j {
        assert all[j] == cs[j - |list|];
      } else if |list| <= i {
        assert all[i] == cs[i - |list|] && all[j] == cs[j - |list|];
      }
    }
  }

  // A captured edge is well formed: its own artifacts, distinct, in epoch order, up to the head.
  lemma EdgeListOk(objects: Objects, e: nat, lineage: seq<Checkpoint>, pages: seq<Snapshot>)
    requires IsLineage(lineage)
    ensures R.ListOk(e, Edge(objects, e, lineage, pages))
    ensures R.HeadEpoch(Edge(objects, e, lineage, pages)) <= lineage[|lineage| - 1].key.epoch
  {
    var n := |lineage|;
    CommitsAscend(objects, e, lineage, n);
    assert lineage[1..n] == lineage[1..];
    BaselineList(e, lineage[0].key.epoch, pages);
    if n > 1 {
      LineageAscends(lineage, 0, n - 1);
    }
    JoinList(e, Baseline(e, lineage[0].key.epoch, pages), Commits(objects, e, lineage[1..]), lineage[0].key.epoch,
             lineage[n - 1].key.epoch);
  }

  lemma {:induction false} AllRowsWeight(a: seq<R.Artifact>, b: seq<R.Artifact>, pair: int)
    ensures Weight(R.AllRows(a + b), pair) == Weight(R.AllRows(a), pair) + Weight(R.AllRows(b), pair)
    decreases |b|
  {
    if b == [] {
      assert a + b == a;
    } else {
      var front, last := b[..|b| - 1], b[|b| - 1];
      assert (a + b)[..|a + b| - 1] == a + front;
      AllRowsWeight(a, front, pair);
      WeightConcat(R.AllRows(a + front), R.Rows(last), pair);
      WeightConcat(R.AllRows(front), R.Rows(last), pair);
    }
  }

  lemma CommitRows(objects: Objects, e: nat, c: Checkpoint)
    ensures R.AllRows([CommitArtifact(objects, e, c)]) == Rows(c)
  {
    var a := CommitArtifact(objects, e, c);
    assert [a][..0] == [];
    assert Flatten([Rows(c)]) == Rows(c) + Flatten<Row>([]);
  }

  // The commits between two checkpoints of a lineage are what one has over the other.
  lemma {:induction false} CommittedAlong(objects: Objects, e: nat, l: seq<Checkpoint>, n: nat, pair: int)
    requires IsLineage(l) && 1 <= n <= |l|
    ensures Committed(Some(l[n - 1]), pair)
            == Committed(Some(l[0]), pair) + Weight(R.AllRows(Commits(objects, e, l[1..n])), pair)
    decreases n
  {
    if n > 1 {
      var c := l[n - 1];
      CommittedAlong(objects, e, l, n - 1, pair);
      CommitsStep(objects, e, l, n);
      assert l[n - 2 + 1].previous == Some(l[n - 2]);
      AllRowsWeight(Commits(objects, e, l[1..n - 1]), if Published(c) then [CommitArtifact(objects, e, c)] else [], pair);
      CommitRows(objects, e, c);
    } else {
      assert l[1..1] == [];
    }
  }

  // ---------------------------------------------------------------- one input of a consumer

  // An input edge: the producer's objects and head, the consumer's bootstrap cursor, and the
  // pages of the baseline at the cursor with the size of their manifest.
  datatype EdgeInput = EdgeInput(objects: Objects, head: Checkpoint, cursor: Checkpoint, pages: seq<Snapshot>, manifest: nat)

  // The cursor is a checkpoint of the lineage of `at`.
  ghost predicate ComesFrom(at: Checkpoint, cursor: Checkpoint)
    decreases at
  {
    at == cursor || (at.previous.Some? && ComesFrom(at.previous.value, cursor))
  }

  // The producer's lineage is stored and the cursor is one of its commits.
  ghost predicate InputOk(x: EdgeInput) {
    Stored(x.objects, Some(x.head)) && ComesFrom(x.head, x.cursor) && Published(x.cursor)
  }

  ghost function EdgeOf(e: nat, x: EdgeInput): seq<R.Artifact> {
    Edge(x.objects, e, Lineage(x.head, x.cursor), x.pages)
  }

  lemma {:induction false} CursorIsOlder(objects: Objects, at: Checkpoint, cursor: Checkpoint)
    requires Stored(objects, Some(at)) && ComesFrom(at, cursor)
    ensures cursor.key.epoch <= at.key.epoch && (cursor.key.epoch == at.key.epoch ==> at == cursor)
    decreases at
  {
    if at != cursor {
      CursorIsOlder(objects, at.previous.value, cursor);
    }
  }

  lemma {:induction false} StoredLineage(objects: Objects, at: Checkpoint, cursor: Checkpoint)
    requires Stored(objects, Some(at)) && ComesFrom(at, cursor)
    ensures IsLineage(Lineage(at, cursor)) && Lineage(at, cursor)[0] == cursor
    decreases at
  {
    CursorIsOlder(objects, at, cursor);
    if at != cursor {
      StoredLineage(objects, at.previous.value, cursor);
      ExtendsLineage(Lineage(at.previous.value, cursor), at);
    }
  }

  lemma ExtendsLineage(l: seq<Checkpoint>, c: Checkpoint)
    requires IsLineage(l) && HeaderOk(c) && c.previous == Some(l[|l| - 1]) && l[|l| - 1].key.epoch < c.key.epoch
    ensures IsLineage(l + [c])
  {
  }

  // Over a stored lineage the walk fails only at its bounds.
  lemma {:induction false} StoredReaches(objects: Objects, at: Checkpoint, cursor: Checkpoint, n: nat, bytes: int)
    requires Stored(objects, Some(at)) && ComesFrom(at, cursor) && Published(cursor)
    ensures Reaches(objects, at, cursor, n, bytes) <==>
      n + |Lineage(at, cursor)| <= MAX_LINEAGE && WalkBytes(objects, at, cursor) <= bytes
    decreases at
  {
    CursorIsOlder(objects, at, cursor);
    if at != cursor {
      var size := objects.headers[at.key].bytes;
      StoredReaches(objects, at.previous.value, cursor, n + 1, bytes - size);
    }
  }

  // The bytes that capturing an edge reads; the manifest of a baseline already applied is not read.
  ghost function CaptureBytes(x: EdgeInput, applied: bool): nat {
    WalkBytes(x.objects, x.head, x.cursor) + if applied then 0 else x.manifest
  }

  // Captures one edge with the bytes left. It fails only when the lineage is too long or the
  // bytes do not suffice.
  method CaptureInput(e: nat, x: EdgeInput, applied: bool, left: nat) returns (r: Result<(seq<R.Artifact>, nat), CaptureError>)
    requires InputOk(x)
    ensures r.Ok? <==> |Lineage(x.head, x.cursor)| <= MAX_LINEAGE && CaptureBytes(x, applied) <= left
    ensures r.Ok? ==> r.value == (EdgeOf(e, x), CaptureBytes(x, applied))
  {
    StoredReaches(x.objects, x.head, x.cursor, 0, left);
    var budget := new ReadBudget(left);
    var lineage := CaptureProof(x.objects, x.head, x.cursor, budget);
    if lineage.Err? {
      return Err(lineage.error);
    }
    if !applied {
      var fits := budget.Read(x.manifest);
      if !fits {
        return Err(OverBudget);
      }
    }
    var list := CaptureEdge(x.objects, e, lineage.value, x.pages);
    r := Ok((list, budget.used));
  }

  // A checkpoint more on a lineage is one commit more on its edge, or none.
  lemma EdgeMore(objects: Objects, e: nat, l: seq<Checkpoint>, at: Checkpoint, pages: seq<Snapshot>)
    requires l != []
    ensures Edge(objects, e, l + [at], pages)
         == Edge(objects, e, l, pages) + if Published(at) then [CommitArtifact(objects, e, at)] else []
  {
    assert (l + [at])[1..] == l[1..] + [at];
    assert (l[1..] + [at])[..|l[1..]|] == l[1..];
  }

  lemma EdgeAtCursor(objects: Objects, e: nat, cursor: Checkpoint, pages: seq<Snapshot>)
    ensures Edge(objects, e, [cursor], pages) != [] && R.HeadEpoch(Edge(objects, e, [cursor], pages)) == cursor.key.epoch
  {
    assert [cursor][1..] == [];
  }

  // The captured edge ends at the producer's last commit.
  lemma {:induction false} HeadIsLastCommit(objects: Objects, e: nat, at: Checkpoint, cursor: Checkpoint, pages: seq<Snapshot>)
    requires Stored(objects, Some(at)) && ComesFrom(at, cursor) && Published(cursor)
    ensures LastPublished(Some(at)).Some? && Edge(objects, e, Lineage(at, cursor), pages) != []
    ensures R.HeadEpoch(Edge(objects, e, Lineage(at, cursor), pages)) == LastPublished(Some(at)).value.key.epoch
    decreases at
  {
    CursorIsOlder(objects, at, cursor);
    if at == cursor {
      EdgeAtCursor(objects, e, cursor, pages);
    } else {
      HeadIsLastCommit(objects, e, at.previous.value, cursor, pages);
      EdgeMore(objects, e, Lineage(at.previous.value, cursor), at, pages);
    }
  }

  // ---------------------------------------------------------------- what it adds up to

  // The pages hold the producer's output at the cursor: the bag of all commits up to it.
  ghost predicate SnapshotOf(cursor: Checkpoint, e: nat, pages: seq<Snapshot>) {
    forall pair :: Weight(R.AllRows(Baseline(e, cursor.key.epoch, pages)), pair) == Committed(Some(cursor), pair)
  }

  // The rows of a captured edge are the bag of all commits up to the head.
  lemma EdgeIsCommitted(objects: Objects, e: nat, lineage: seq<Checkpoint>, pages: seq<Snapshot>, pair: int)
    requires IsLineage(lineage) && SnapshotOf(lineage[0], e, pages)
    ensures Weight(R.AllRows(Edge(objects, e, lineage, pages)), pair) == Committed(Some(lineage[|lineage| - 1]), pair)
  {
    AllRowsWeight(Baseline(e, lineage[0].key.epoch, pages), Commits(objects, e, lineage[1..]), pair);
    assert lineage[1..|lineage|] == lineage[1..];
    CommittedAlong(objects, e, lineage, |lineage|, pair);
    assert Weight(R.AllRows(Baseline(e, lineage[0].key.epoch, pages)), pair) == Committed(Some(lineage[0]), pair);
  }

  // The pages are what the producer's runtime had emitted when it committed the cursor.
  ghost predicate PagesAre(e: nat, cursor: Checkpoint, pages: seq<Snapshot>, units: seq<seq<Row>>) {
    forall pair :: Weight(R.AllRows(Baseline(e, cursor.key.epoch, pages)), pair) == Output(units, pair)
  }

  lemma PagesAreCommits(e: nat, cursor: Checkpoint, pages: seq<Snapshot>, units: seq<seq<Row>>)
    requires Published(cursor) && BuiltBy(Some(cursor), units) && PagesAre(e, cursor, pages, units)
    ensures SnapshotOf(cursor, e, pages)
  {
    forall pair ensures Weight(R.AllRows(Baseline(e, cursor.key.epoch, pages)), pair) == Committed(Some(cursor), pair) {
      Conservation(Some(cursor), units, pair);
    }
  }

  // So with the rows still pending the captured edge is everything the producer's runtime has
  // emitted, and when the head is a commit it is that alone.
  lemma ChainedView(e: nat, x: EdgeInput, atCursor: seq<seq<Row>>, units: seq<seq<Row>>, pair: int)
    requires InputOk(x) && BuiltBy(Some(x.cursor), atCursor) && PagesAre(e, x.cursor, x.pages, atCursor)
    requires BuiltBy(Some(x.head), units)
    ensures Weight(R.AllRows(EdgeOf(e, x)), pair) + Weight(Pending(Some(x.head)), pair) == Output(units, pair)
    ensures Published(x.head) ==> Weight(R.AllRows(EdgeOf(e, x)), pair) == Output(units, pair)
  {
    StoredLineage(x.objects, x.head, x.cursor);
    PagesAreCommits(e, x.cursor, x.pages, atCursor);
    EdgeIsCommitted(x.objects, e, Lineage(x.head, x.cursor), x.pages, pair);
    Conservation(Some(x.head), units, pair);
  }

  // ---------------------------------------------------------------- the producer moves on

  lemma {:induction false} CommitsSplit(objects: Objects, e: nat, a: seq<Checkpoint>, b: seq<Checkpoint>)
    ensures Commits(objects, e, a + b) == Commits(objects, e, a) + Commits(objects, e, b)
    decreases |b|
  {
    if b == [] {
      assert a + b == a;
    } else {
      var front := b[..|b| - 1];
      assert (a + b)[..|a + b| - 1] == a + front;
      CommitsSplit(objects, e, a, front);
    }
  }

  lemma {:induction false} CommitsStay(objects: Objects, objects': Objects, e: nat, l: seq<Checkpoint>)
    requires Grows(objects, objects') && forall i :: 0 <= i < |l| && Published(l[i]) ==> DeltaOk(objects, l[i])
    ensures Commits(objects, e, l) == Commits(objects', e, l)
    decreases |l|
  {
    if l != [] {
      CommitsStay(objects, objects', e, l[..|l| - 1]);
    }
  }

  // A later capture of the same edge continues an earlier one.
  lemma CaptureMovesOn(objects: Objects, objects': Objects, e: nat, before: seq<Checkpoint>, after: seq<Checkpoint>, pages: seq<Snapshot>)
    requires Grows(objects, objects') && IsLineage(before) && IsLineage(before + after)
    requires forall i :: 0 <= i < |before| && Published(before[i]) ==> DeltaOk(objects, before[i])
    ensures R.ListMovedOn(Edge(objects, e, before, pages), Edge(objects', e, before + after, pages))
  {
    var all := before + after;
    assert all[1..] == before[1..] + after && all[0] == before[0];
    CommitsSplit(objects', e, before[1..], after);
    CommitsStay(objects, objects', e, before[1..]);
    var list, list' := Edge(objects, e, before, pages), Edge(objects', e, all, pages);
    assert list' == list + Commits(objects', e, after) && list'[..|list|] == list;
    EdgeListOk(objects, e, before, pages);
    NewCommitsLater(objects', e, before, after);
  }

  lemma {:induction false} NewCommitsLater(objects: Objects, e: nat, before: seq<Checkpoint>, after: seq<Checkpoint>)
    requires before != [] && IsLineage(before + after)
    ensures forall i :: 0 <= i < |Commits(objects, e, after)| ==>
      Commits(objects, e, after)[i].payload.Commit? && before[|before| - 1].key.epoch < Commits(objects, e, after)[i].id.epoch
    decreases |after|
  {
    if after != [] {
      var front, all := after[..|after| - 1], before + after;
      assert before + front == all[..|all| - 1];
      assert IsLineage(before + front) by {
        forall i | 0 <= i < |before + front| - 1
          ensures (before + front)[i + 1].previous == Some((before + front)[i])
                  && (before + front)[i].key.epoch < (before + front)[i + 1].key.epoch
        {
          assert (before + front)[i] == all[i] && (before + front)[i + 1] == all[i + 1];
        }
      }
      NewCommitsLater(objects, e, before, front);
      LineageAscends(all, |before| - 1, |all| - 1);
      assert all[|before| - 1] == before[|before| - 1] && all[|all| - 1] == after[|after| - 1];
    }
  }

  // The producer has gone on from one capture to the next: objects were added, and the old head
  // is in the new lineage.
  ghost predicate GoesOn(a: EdgeInput, b: EdgeInput) {
    && Grows(a.objects, b.objects) && ComesFrom(b.head, a.head)
    && b.cursor == a.cursor && b.pages == a.pages && b.manifest == a.manifest
  }

  lemma {:induction false} LineageGoesOn(objects: Objects, at: Checkpoint, before: Checkpoint, cursor: Checkpoint)
    requires Stored(objects, Some(at)) && ComesFrom(at, before) && ComesFrom(before, cursor)
    ensures Lineage(before, cursor) <= Lineage(at, cursor) && ComesFrom(at, cursor)
    decreases at
  {
    if at != before {
      LineageGoesOn(objects, at.previous.value, before, cursor);
      CursorIsOlder(objects, at.previous.value, cursor);
    }
  }

  lemma {:induction false} LineageHasDeltas(objects: Objects, at: Checkpoint, cursor: Checkpoint)
    requires Stored(objects, Some(at))
    ensures forall i :: 0 <= i < |Lineage(at, cursor)| ==> DeltaOk(objects, Lineage(at, cursor)[i])
    decreases at
  {
    if at.key.epoch > cursor.key.epoch && at.previous.Some? {
      LineageHasDeltas(objects, at.previous.value, cursor);
    }
  }

  lemma LineagesOf(a: EdgeInput, b: EdgeInput)
    requires InputOk(a) && InputOk(b) && GoesOn(a, b)
    ensures IsLineage(Lineage(a.head, a.cursor)) && IsLineage(Lineage(b.head, b.cursor))
    ensures Lineage(a.head, a.cursor) <= Lineage(b.head, b.cursor)
    ensures forall i :: 0 <= i < |Lineage(a.head, a.cursor)| ==> DeltaOk(a.objects, Lineage(a.head, a.cursor)[i])
  {
    LineageGoesOn(b.objects, b.head, a.head, a.cursor);
    StoredLineage(a.objects, a.head, a.cursor);
    StoredLineage(b.objects, b.head, b.cursor);
    LineageHasDeltas(a.objects, a.head, a.cursor);
  }

  // A later capture continues an earlier one.
  lemma InputMovesOn(e: nat, a: EdgeInput, b: EdgeInput)
    requires InputOk(a) && InputOk(b) && GoesOn(a, b)
    ensures R.ListMovedOn(EdgeOf(e, a), EdgeOf(e, b))
  {
    LineagesOf(a, b);
    EdgesMoveOn(e, a.objects, b.objects, Lineage(a.head, a.cursor), Lineage(b.head, b.cursor), a.pages);
  }

  lemma EdgesMoveOn(e: nat, objects: Objects, objects': Objects, before: seq<Checkpoint>, all: seq<Checkpoint>, pages: seq<Snapshot>)
    requires Grows(objects, objects') && IsLineage(before) && IsLineage(all) && before <= all
    requires forall i :: 0 <= i < |before| ==> DeltaOk(objects, before[i])
    ensures R.ListMovedOn(Edge(objects, e, before, pages), Edge(objects', e, all, pages))
  {
    var after := all[|before|..];
    assert before + after == all;
    CaptureMovesOn(objects, objects', e, before, after, pages);
  }
}
