/**
 A consumer view replaying its producers
 (`materialize_published_demand` in crates/velorix-api/src/demand_materialization_published.rs):
 on every input edge it applies the pages of a captured baseline, which may be cut anywhere,
 and then the producer's signed commits, each as a whole.
 */
module Replay {
  import opened Wrappers
  import opened Spans
  import opened Batches
  import opened Staging
  import opened Deltas

  datatype Id = Id(edge: nat, epoch: nat, page: nat)

  datatype Payload = EmptyBaseline | Page | Commit

  // `bytes` is what loading the artifact reads; an unsound one fails authentication.
  datatype Artifact = Artifact(id: Id, payload: Payload, batches: seq<seq<Row>>, bytes: nat, sound: bool)

  // The inventory of each input edge, in edge order.
  type Inventory = seq<seq<Artifact>>

  // A committed consumer checkpoint: progress by artifact, the rows folded on each edge in
  // order, the edge frontiers as producer epochs, and for each certified scope the heads it was
  // certified at.
  datatype Durable = Durable(entries: map<Id, Progress>, log: map<nat, seq<Row>>, frontier: map<nat, nat>, complete: bool,
                             certs: map<Scope, map<nat, nat>>)

  const NOTHING := Durable(map[], map[], map[], false, map[])

  datatype Fed = Fed(edge: nat, rows: seq<Row>)

  // A budget error says what was needed and what was left.
  datatype Error = CommitFailed | BudgetRequired(required: nat, supplied: nat) | Corrupt | Overflow

  // ---------------------------------------------------------------- progress of one artifact

  function Rows(a: Artifact): seq<Row> {
    Flatten(a.batches)
  }

  function Front(p: Progress): nat {
    ContiguousFrontier(p.applied)
  }

  // The first rows are inspected and applied, and nothing else.
  ghost predicate PrefixEntry(p: Progress, total: nat) {
    && Valid(p) && p.applied.total == total && Front(p) <= total
    && Ordinals(p.applied) == Interval(0, Front(p)) && Inspected(p, None) == Interval(0, Front(p))
  }

  lemma PrefixFront(p: Progress, total: nat, k: nat)
    requires Valid(p) && p.applied.total == total && k <= total
    requires Ordinals(p.applied) == Interval(0, k) && Inspected(p, None) == Interval(0, k)
    ensures PrefixEntry(p, total) && Front(p) == k && (IsComplete(p.applied) <==> k == total)
  {
    FrontierIsFirstHole(p.applied);
    var f := Front(p);
    assert f in Interval(0, k) ==> f in Ordinals(p.applied);
    assert k < f ==> k in Ordinals(p.applied);
    if k == total {
      forall o: nat | o < total ensures Covers(p.applied.spans, o) {
        assert o in Interval(0, k);
        assert o in Ordinals(p.applied);
      }
    }
  }

  // Inspects and applies the next rows of an artifact, at most `limit` of them.
  method TakeNext(p: Progress, a: Artifact, limit: nat) returns (next: Progress, taken: seq<Row>)
    requires PrefixEntry(p, |Rows(a)|)
    ensures PrefixEntry(next, |Rows(a)|)
    ensures Front(next) == Min(Front(p) + limit, |Rows(a)|) && Front(p) <= Front(next)
    ensures taken == Rows(a)[Front(p)..Front(next)]
    ensures IsComplete(next.applied) <==> Front(next) == |Rows(a)|
  {
    var total, k := |Rows(a)|, Front(p);
    PrefixFront(p, total, k);
    var interval := NextInspection(p, None, Forward, limit);
    if interval.None? {
      FullPrefix(p, total, limit);
      return p, [];
    }
    ForwardFromPrefix(p, total, limit, interval.value);
    next, taken := StageTo(p, a, interval.value.hi);
  }

  method StageTo(p: Progress, a: Artifact, hi: nat) returns (next: Progress, taken: seq<Row>)
    requires PrefixEntry(p, |Rows(a)|) && Front(p) < hi <= |Rows(a)|
    ensures PrefixEntry(next, |Rows(a)|) && Front(next) == hi && taken == Rows(a)[Front(p)..hi]
    ensures IsComplete(next.applied) <==> hi == |Rows(a)|
  {
    var k := Front(p);
    var may := seq(hi - k, _ => true);
    var staged := StageInspection(p, Input(0, 0, a.batches, None), None, k, hi, may);
    next, taken := staged.value.0, Flatten(staged.value.1.batches);
    StagedPrefix(p, |Rows(a)|, k, hi, may, next);
    PickedWhole(p, Rows(a), k, hi, may);
  }

  lemma PickedWhole(p: Progress, rows: seq<Row>, k: nat, hi: nat, may: seq<bool>)
    requires Valid(p) && p.applied.total == |rows| && k < hi <= |rows| && |may| == hi - k
    requires Ordinals(p.applied) == Interval(0, k) && forall i :: 0 <= i < |may| ==> may[i]
    ensures Pick(rows, Selection(p.applied, k, may), k, hi) == rows[k..hi]
  {
    SelectionIsWhole(p, k, hi, may);
    PickAll(rows, Selection(p.applied, k, may), k, hi);
  }

  lemma FullPrefix(p: Progress, total: nat, limit: nat)
    requires PrefixEntry(p, total) && (limit == 0 || Full(Scan(p, None)))
    ensures Front(p) == Min(Front(p) + limit, total)
  {
    assert limit > 0 && Front(p) < total ==> Front(p) in Inspected(p, None);
  }

  lemma ForwardFromPrefix(p: Progress, total: nat, limit: nat, c: Span)
    requires PrefixEntry(p, total) && FreshInterval(p, None, c) && c.hi - c.lo <= limit
    requires Extreme(Scan(p, None), Forward, limit, c)
    ensures c.lo == Front(p) && c.hi == Min(Front(p) + limit, total)
  {
    var k := Front(p);
    assert c.lo in Interval(c.lo, c.hi);
    assert k < c.lo ==> k in Inspected(p, None);
    assert c.hi in Ordinals(Scan(p, None)) ==> c.hi < k;
  }

  lemma SelectionIsWhole(p: Progress, k: nat, hi: nat, may: seq<bool>)
    requires Valid(p) && k < hi <= p.applied.total && |may| == hi - k
    requires Ordinals(p.applied) == Interval(0, k) && forall i :: 0 <= i < |may| ==> may[i]
    ensures Selection(p.applied, k, may) == Interval(k, hi)
  {
    forall o: nat ensures o in Selection(p.applied, k, may) <==> o in Interval(k, hi) {
      if k <= o < hi {
        InSelection(p.applied, k, may, o);
        assert o !in Interval(0, k);
        assert o in Ordinals(p.applied) <==> Covers(p.applied.spans, o);
      }
    }
  }

  lemma StagedPrefix(p: Progress, total: nat, k: nat, hi: nat, may: seq<bool>, next: Progress)
    requires PrefixEntry(p, total) && k == Front(p) && k < hi <= total && |may| == hi - k
    requires (forall i :: 0 <= i < |may| ==> may[i]) && StagedFrom(p, None, k, may, next)
    ensures PrefixEntry(next, total) && Front(next) == hi && (IsComplete(next.applied) <==> hi == total)
  {
    SelectionIsWhole(p, k, hi, may);
    IntervalJoin(k, hi);
    PrefixFront(next, total, hi);
  }

  lemma IntervalJoin(k: nat, hi: nat)
    requires k <= hi
    ensures Interval(0, k) + Interval(k, hi) == Interval(0, hi)
  {
  }

  // ---------------------------------------------------------------- what a checkpoint holds

  predicate Covered(d: Durable, a: Artifact) {
    a.id.edge in d.frontier && a.id.epoch <= d.frontier[a.id.edge]
  }

  predicate Done(d: Durable, a: Artifact) {
    Covered(d, a) || (a.id in d.entries && IsComplete(d.entries[a.id].applied))
  }

  predicate Touched(d: Durable, a: Artifact) {
    Covered(d, a) || a.id in d.entries
  }

  // How many of the artifact's rows are folded.
  function Count(d: Durable, a: Artifact): nat {
    if Covered(d, a) then |Rows(a)| else if a.id in d.entries then Front(d.entries[a.id]) else 0
  }

  ghost predicate Partial(d: Durable, a: Artifact) {
    Touched(d, a) && !Done(d, a)
  }

  ghost predicate ArtifactOk(d: Durable, a: Artifact) {
    && (a.id in d.entries ==> PrefixEntry(d.entries[a.id], |Rows(a)|))
    && (Partial(d, a) ==> a.payload.Page?)
  }

  function LogOf(log: map<nat, seq<Row>>, e: nat): seq<Row> {
    if e in log then log[e] else []
  }

  function Add(log: map<nat, seq<Row>>, e: nat, rows: seq<Row>): map<nat, seq<Row>> {
    log[e := LogOf(log, e) + rows]
  }

  function Part(a: Artifact, n: nat): seq<Row> {
    Rows(a)[..Min(n, |Rows(a)|)]
  }

  // The folded rows of a list of artifacts, in order.
  ghost function Taken(d: Durable, list: seq<Artifact>): seq<Row> {
    if list == [] then []
    else Taken(d, list[..|list| - 1]) + Part(list[|list| - 1], Count(d, list[|list| - 1]))
  }

  ghost predicate AllOk(d: Durable, list: seq<Artifact>) {
    forall i :: 0 <= i < |list| ==> ArtifactOk(d, list[i])
  }

  // Before a touched artifact every artifact of the edge is done.
  ghost predicate InOrder(d: Durable, list: seq<Artifact>) {
    forall i, j :: 0 <= i < j < |list| && Touched(d, list[j]) ==> Done(d, list[i])
  }

  ghost predicate EdgeOk(d: Durable, e: nat, list: seq<Artifact>) {
    AllOk(d, list) && InOrder(d, list) && LogOf(d.log, e) == Taken(d, list)
  }

  // The baselines of all edges before a touched one are done.
  ghost predicate BaselinesFirst(d: Durable, inv: Inventory) {
    forall e, f, i, j :: 0 <= e < f < |inv| && 0 <= i < |inv[e]| && 0 <= j < |inv[f]| && Touched(d, inv[f][j]) ==>
      inv[e][i].payload.Commit? || Done(d, inv[e][i])
  }

  // Nothing is recorded beyond the captured heads.
  ghost predicate UpToHeads(d: Durable, inv: Inventory) {
    && (forall e :: e in d.frontier ==> e < |inv| && inv[e] != [] && d.frontier[e] <= HeadEpoch(inv[e]))
    && (forall id :: id in d.entries ==> id.edge < |inv| && inv[id.edge] != [] && id.epoch <= HeadEpoch(inv[id.edge]))
  }

  function HeadEpoch(list: seq<Artifact>): nat
    requires list != []
  {
    list[|list| - 1].id.epoch
  }

  // Every edge stands at these heads.
  ghost predicate StandsAt(heads: map<nat, nat>, inv: Inventory) {
    forall e :: 0 <= e < |inv| ==> inv[e] != [] && e in heads && heads[e] == HeadEpoch(inv[e])
  }

  // A certificate names heads the frontiers have reached, and certifies a complete checkpoint as
  // long as the producers stand there.
  ghost predicate CertOk(d: Durable, inv: Inventory, heads: map<nat, nat>) {
    && (forall e :: e in heads ==> e in d.frontier && heads[e] <= d.frontier[e])
    && (StandsAt(heads, inv) ==> d.complete)
  }

  ghost predicate CertsOk(d: Durable, inv: Inventory) {
    forall s :: s in d.certs ==> CertOk(d, inv, d.certs[s])
  }

  ghost predicate StateOk(d: Durable, inv: Inventory) {
    && (forall e :: 0 <= e < |inv| ==> EdgeOk(d, e, inv[e]))
    && BaselinesFirst(d, inv)
    && UpToHeads(d, inv)
    && CertsOk(d, inv)
  }

  // Artifacts belong to their edge, are distinct, and come in epoch order.
  ghost predicate ListOk(e: nat, list: seq<Artifact>) {
    && list != []
    && (forall i :: 0 <= i < |list| ==> list[i].id.edge == e && (list[i].payload.EmptyBaseline? ==> Rows(list[i]) == []))
    && (forall i, j :: 0 <= i < j < |list| ==> list[i].id != list[j].id && list[i].id.epoch <= list[j].id.epoch)
  }

  ghost predicate InventoryOk(inv: Inventory) {
    forall e :: 0 <= e < |inv| ==> ListOk(e, inv[e])
  }

  // At most one artifact of all edges is partly applied, and it is a baseline page.
  lemma OnePartial(d: Durable, inv: Inventory, e: nat, i: nat, f: nat, j: nat)
    requires StateOk(d, inv) && e < |inv| && i < |inv[e]| && f < |inv| && j < |inv[f]|
    requires Partial(d, inv[e][i]) && Partial(d, inv[f][j])
    ensures e == f && i == j && inv[e][i].payload.Page?
  {
    assert EdgeOk(d, e, inv[e]) && EdgeOk(d, f, inv[f]);
    assert ArtifactOk(d, inv[e][i]) && ArtifactOk(d, inv[f][j]);
  }

  // ---------------------------------------------------------------- one step of the replay

  lemma {:induction false} TakenSame(d: Durable, d': Durable, list: seq<Artifact>)
    requires forall i :: 0 <= i < |list| ==> Count(d, list[i]) == Count(d', list[i])
    ensures Taken(d, list) == Taken(d', list)
    decreases |list|
  {
    if list != [] {
      var front := list[..|list| - 1];
      assert forall i :: 0 <= i < |front| ==> front[i] == list[i];
      TakenSame(d, d', front);
    }
  }

  lemma {:induction false} TakenAppend(d: Durable, list: seq<Artifact>, more: seq<Artifact>)
    requires forall i :: 0 <= i < |more| ==> Count(d, more[i]) == 0
    ensures Taken(d, list + more) == Taken(d, list)
    decreases |more|
  {
    if more == [] {
      assert list + more == list;
    } else {
      var front := more[..|more| - 1];
      var all := list + more;
      assert all[..|all| - 1] == list + front;
      TakenAppend(d, list, front);
    }
  }

  // The checkpoint after taking more rows of one artifact.
  function Took(d: Durable, a: Artifact, next: Progress, rows: seq<Row>): Durable {
    d.(entries := d.entries[a.id := next], log := Add(d.log, a.id.edge, rows), complete := false)
  }

  // Everything up to this artifact is done and it is not.
  ghost predicate AtTurn(d: Durable, inv: Inventory, e: nat, j: nat) {
    && e < |inv| && j < |inv[e]| && !Done(d, inv[e][j])
    && (forall i :: 0 <= i < j ==> Done(d, inv[e][i]))
    && (forall f, i :: 0 <= f < e && 0 <= i < |inv[f]| ==> Done(d, inv[f][i]))
  }

  // A forward step on an artifact: more of a page, or the whole of anything else.
  ghost predicate StepOk(d: Durable, a: Artifact, next: Progress, rows: seq<Row>) {
    && PrefixEntry(next, |Rows(a)|)
    && Count(d, a) <= Front(next) && rows == Rows(a)[Count(d, a)..Front(next)]
    && (IsComplete(next.applied) <==> Front(next) == |Rows(a)|)
    && (a.payload.Page? || IsComplete(next.applied))
  }

  // Artifacts other than the one taken keep their standing.
  lemma OthersSame(d: Durable, a: Artifact, next: Progress, rows: seq<Row>, b: Artifact)
    requires b.id != a.id
    ensures SameStanding(d, Took(d, a, next, rows), b)
  {
  }

  // One artifact of a list got further; the others kept their standing.
  ghost predicate OneFurther(d: Durable, d': Durable, list: seq<Artifact>, j: nat)
    requires j < |list|
  {
    && (forall i :: 0 <= i < |list| && i != j ==> SameStanding(d, d', list[i]))
    && Touched(d', list[j]) && ArtifactOk(d', list[j])
    && Count(d, list[j]) <= Count(d', list[j]) <= |Rows(list[j])|
  }

  ghost predicate SameStanding(d: Durable, d': Durable, b: Artifact) {
    && Count(d', b) == Count(d, b) && (Done(d', b) <==> Done(d, b)) && (Touched(d', b) <==> Touched(d, b))
    && (ArtifactOk(d', b) <==> ArtifactOk(d, b))
  }

  lemma TakeOne(d: Durable, e: nat, list: seq<Artifact>, j: nat, next: Progress, rows: seq<Row>)
    requires ListOk(e, list) && j < |list| && !Done(d, list[j]) && StepOk(d, list[j], next, rows)
    ensures OneFurther(d, Took(d, list[j], next, rows), list, j)
    ensures Count(Took(d, list[j], next, rows), list[j]) == Front(next)
  {
    var a, d' := list[j], Took(d, list[j], next, rows);
    forall i | 0 <= i < |list| && i != j ensures SameStanding(d, d', list[i]) {
      assert list[i].id != a.id;
      OthersSame(d, a, next, rows, list[i]);
    }
  }

  lemma FurtherInOrder(d: Durable, d': Durable, list: seq<Artifact>, j: nat)
    requires AllOk(d, list) && InOrder(d, list) && j < |list| && !Done(d, list[j]) && OneFurther(d, d', list, j)
    requires forall i :: 0 <= i < j ==> Done(d, list[i])
    ensures AllOk(d', list) && InOrder(d', list)
    ensures forall i :: j < i < |list| ==> Count(d, list[i]) == 0 && Count(d', list[i]) == 0
  {
    forall i | j < i < |list| ensures Count(d, list[i]) == 0 && Count(d', list[i]) == 0 && !Touched(d', list[i]) {
      assert SameStanding(d, d', list[i]) && !Touched(d, list[i]);
    }
    forall i | 0 <= i < |list| ensures ArtifactOk(d', list[i]) {
      assert i != j ==> SameStanding(d, d', list[i]) && ArtifactOk(d, list[i]);
    }
    forall i, k | 0 <= i < k < |list| && Touched(d', list[k]) ensures Done(d', list[i]) {
      assert i < j && SameStanding(d, d', list[i]);
    }
  }

  lemma TakeList(d: Durable, e: nat, list: seq<Artifact>, j: nat, next: Progress, rows: seq<Row>)
    requires ListOk(e, list) && EdgeOk(d, e, list) && j < |list| && !Done(d, list[j])
    requires (forall i :: 0 <= i < j ==> Done(d, list[i])) && StepOk(d, list[j], next, rows)
    ensures EdgeOk(Took(d, list[j], next, rows), e, list)
  {
    var d' := Took(d, list[j], next, rows);
    TakeOne(d, e, list, j, next, rows);
    FurtherInOrder(d, d', list, j);
    forall i | 0 <= i < j ensures Count(d, list[i]) == Count(d', list[i]) {
      assert SameStanding(d, d', list[i]);
    }
    TakeTaken(d, d', list, j, rows);
  }

  lemma TakenAt(d: Durable, list: seq<Artifact>, j: nat)
    requires j < |list| && forall i :: j < i < |list| ==> Count(d, list[i]) == 0
    ensures Taken(d, list) == Taken(d, list[..j]) + Part(list[j], Count(d, list[j]))
  {
    var upTo, rest := list[..j + 1], list[j + 1..];
    assert list == upTo + rest && upTo[..j] == list[..j] && upTo[j] == list[j];
    TakenAppend(d, upTo, rest);
  }

  // Nothing after the artifact is folded yet, so its new rows come last.
  lemma TakeTaken(d: Durable, d': Durable, list: seq<Artifact>, j: nat, rows: seq<Row>)
    requires j < |list| && forall i :: j < i < |list| ==> Count(d, list[i]) == 0 && Count(d', list[i]) == 0
    requires forall i :: 0 <= i < j ==> Count(d, list[i]) == Count(d', list[i])
    requires Count(d, list[j]) <= Count(d', list[j]) <= |Rows(list[j])|
    requires rows == Rows(list[j])[Count(d, list[j])..Count(d', list[j])]
    ensures Taken(d', list) == Taken(d, list) + rows
  {
    TakenAt(d, list, j);
    TakenAt(d', list, j);
    TakenSame(d, d', list[..j]);
    PartMore(Taken(d, list[..j]), list[j], Count(d, list[j]), Count(d', list[j]));
  }

  lemma PartMore(before: seq<Row>, a: Artifact, n: nat, m: nat)
    requires n <= m <= |Rows(a)|
    ensures before + Part(a, m) == before + Part(a, n) + Rows(a)[n..m]
  {
    var rows := Rows(a);
    assert rows[..m] == rows[..n] + rows[n..m];
  }

  lemma TakeKeeps(d: Durable, inv: Inventory, e: nat, j: nat, next: Progress, rows: seq<Row>)
    requires InventoryOk(inv) && StateOk(d, inv) && AtTurn(d, inv, e, j) && StepOk(d, inv[e][j], next, rows)
    ensures StateOk(Took(d, inv[e][j], next, rows), inv)
  {
    var a, d' := inv[e][j], Took(d, inv[e][j], next, rows);
    assert ListOk(e, inv[e]) && EdgeOk(d, e, inv[e]);
    TakeList(d, e, inv[e], j, next, rows);
    forall f | 0 <= f < |inv| && f != e ensures EdgeOk(d', f, inv[f]) {
      TakeOther(d, a, next, rows, f, inv[f]);
    }
    TakeBaselines(d, inv, e, j, next, rows);
    TakeUpToHeads(d, inv, e, j, next, rows);
    TakeCerts(d, inv, e, j, next, rows);
  }

  // Where something is left to take, no certificate stands at the heads.
  lemma TakeCerts(d: Durable, inv: Inventory, e: nat, j: nat, next: Progress, rows: seq<Row>)
    requires InventoryOk(inv) && CertsOk(d, inv) && AtTurn(d, inv, e, j)
    ensures CertsOk(Took(d, inv[e][j], next, rows), inv)
  {
    assert ListOk(e, inv[e]);
    forall s | s in d.certs ensures !StandsAt(d.certs[s], inv) {
      assert CertOk(d, inv, d.certs[s]);
      assert inv[e][j].id.epoch <= HeadEpoch(inv[e]);
    }
  }

  lemma TakeOther(d: Durable, a: Artifact, next: Progress, rows: seq<Row>, f: nat, list: seq<Artifact>)
    requires ListOk(f, list) && EdgeOk(d, f, list) && a.id.edge != f
    ensures EdgeOk(Took(d, a, next, rows), f, list)
  {
    var d' := Took(d, a, next, rows);
    forall i | 0 <= i < |list|
      ensures Count(d', list[i]) == Count(d, list[i]) && Done(d', list[i]) == Done(d, list[i])
      ensures Touched(d', list[i]) == Touched(d, list[i]) && ArtifactOk(d', list[i])
    {
      OthersSame(d, a, next, rows, list[i]);
      assert ArtifactOk(d, list[i]);
    }
    TakenSame(d, d', list);
  }

  lemma TakeBaselines(d: Durable, inv: Inventory, e: nat, j: nat, next: Progress, rows: seq<Row>)
    requires InventoryOk(inv) && BaselinesFirst(d, inv) && AtTurn(d, inv, e, j)
    ensures BaselinesFirst(Took(d, inv[e][j], next, rows), inv)
  {
    var a, d' := inv[e][j], Took(d, inv[e][j], next, rows);
    forall g, f, i, k | 0 <= g < f < |inv| && 0 <= i < |inv[g]| && 0 <= k < |inv[f]| && Touched(d', inv[f][k])
      ensures inv[g][i].payload.Commit? || Done(d', inv[g][i])
    {
      assert ListOk(g, inv[g]) && ListOk(f, inv[f]) && ListOk(e, inv[e]);
      if inv[f][k].id != a.id {
        OthersSame(d, a, next, rows, inv[f][k]);
      }
      if inv[g][i].id != a.id {
        OthersSame(d, a, next, rows, inv[g][i]);
      }
      if inv[f][k].id == a.id {
        assert f == e;
      } else if inv[g][i].id == a.id {
        assert g == e && i == j;
      }
    }
  }

  lemma TakeUpToHeads(d: Durable, inv: Inventory, e: nat, j: nat, next: Progress, rows: seq<Row>)
    requires InventoryOk(inv) && UpToHeads(d, inv) && e < |inv| && j < |inv[e]|
    ensures UpToHeads(Took(d, inv[e][j], next, rows), inv)
  {
    assert ListOk(e, inv[e]);
  }

  // ---------------------------------------------------------------- completion

  ghost function AllRows(list: seq<Artifact>): seq<Row> {
    if list == [] then [] else AllRows(list[..|list| - 1]) + Rows(list[|list| - 1])
  }

  ghost predicate AllDone(d: Durable, inv: Inventory) {
    forall e, i :: 0 <= e < |inv| && 0 <= i < |inv[e]| ==> Done(d, inv[e][i])
  }

  lemma DoneCount(d: Durable, a: Artifact)
    requires ArtifactOk(d, a) && Done(d, a)
    ensures Count(d, a) == |Rows(a)|
  {
    if !Covered(d, a) {
      var p := d.entries[a.id];
      PrefixFront(p, |Rows(a)|, Front(p));
    }
  }

  lemma {:induction false} DoneIsAll(d: Durable, list: seq<Artifact>)
    requires AllOk(d, list) && forall i :: 0 <= i < |list| ==> Done(d, list[i])
    ensures Taken(d, list) == AllRows(list)
    decreases |list|
  {
    if list != [] {
      var front := list[..|list| - 1];
      assert forall i :: 0 <= i < |front| ==> front[i] == list[i];
      DoneIsAll(d, front);
      DoneCount(d, list[|list| - 1]);
    }
  }

  function Heads(inv: Inventory): map<nat, nat>
    requires forall e :: 0 <= e < |inv| ==> inv[e] != []
  {
    map e: nat | e < |inv| :: HeadEpoch(inv[e])
  }

  // The checkpoint of a completed request: frontiers at the heads, and the scope certified there.
  function Certify(d: Durable, inv: Inventory, scope: Scope): Durable
    requires forall e :: 0 <= e < |inv| ==> inv[e] != []
  {
    d.(frontier := Heads(inv), complete := true, certs := d.certs[scope := Heads(inv)])
  }

  // Moving the frontiers to the heads once everything is applied changes nothing else.
  lemma CompleteEdge(d: Durable, d': Durable, e: nat, list: seq<Artifact>)
    requires ListOk(e, list) && EdgeOk(d, e, list) && forall i :: 0 <= i < |list| ==> Done(d, list[i])
    requires d'.entries == d.entries && d'.log == d.log && e in d'.frontier && d'.frontier[e] == HeadEpoch(list)
    ensures EdgeOk(d', e, list) && LogOf(d'.log, e) == AllRows(list) && forall i :: 0 <= i < |list| ==> Done(d', list[i])
  {
    forall i | 0 <= i < |list| ensures Covered(d', list[i]) && ArtifactOk(d', list[i]) && Count(d', list[i]) == Count(d, list[i]) {
      assert ArtifactOk(d, list[i]);
      DoneCount(d, list[i]);
    }
    TakenSame(d, d', list);
    DoneIsAll(d, list);
  }

  lemma CompleteKeeps(d: Durable, inv: Inventory, scope: Scope)
    requires InventoryOk(inv) && StateOk(d, inv) && AllDone(d, inv)
    requires forall e :: 0 <= e < |inv| ==> inv[e] != []
    ensures var d' := Certify(d, inv, scope);
            StateOk(d', inv) && AllDone(d', inv) && forall e :: 0 <= e < |inv| ==> LogOf(d'.log, e) == AllRows(inv[e])
  {
    var d' := Certify(d, inv, scope);
    CertifyCerts(d, inv, scope);
    forall e | 0 <= e < |inv|
      ensures EdgeOk(d', e, inv[e]) && LogOf(d'.log, e) == AllRows(inv[e]) && forall i :: 0 <= i < |inv[e]| ==> Done(d', inv[e][i])
    {
      assert ListOk(e, inv[e]) && EdgeOk(d, e, inv[e]);
      CompleteEdge(d, d', e, inv[e]);
    }
  }

  lemma CertifyCerts(d: Durable, inv: Inventory, scope: Scope)
    requires CertsOk(d, inv) && UpToHeads(d, inv) && forall e :: 0 <= e < |inv| ==> inv[e] != []
    ensures CertsOk(Certify(d, inv, scope), inv)
  {
    var d' := Certify(d, inv, scope);
    forall s | s in d'.certs ensures CertOk(d', inv, d'.certs[s]) {
      assert s != scope ==> CertOk(d, inv, d.certs[s]);
    }
  }

  // ---------------------------------------------------------------- producers moving on

  // The producers' heads have moved: each edge has further commits after those captured before.
  ghost predicate MovedOn(inv: Inventory, inv': Inventory) {
    |inv'| == |inv| && forall e :: 0 <= e < |inv| ==> ListMovedOn(inv[e], inv'[e])
  }

  ghost predicate ListMovedOn(list: seq<Artifact>, list': seq<Artifact>) {
    && list != [] && |list| <= |list'| && list'[..|list|] == list
    && forall i :: |list| <= i < |list'| ==> list'[i].payload.Commit? && HeadEpoch(list) < list'[i].id.epoch
  }

  // What was applied stands when a producer moves on.
  lemma MovedOnKeeps(d: Durable, inv: Inventory, inv': Inventory)
    requires InventoryOk(inv) && InventoryOk(inv') && StateOk(d, inv) && MovedOn(inv, inv')
    ensures StateOk(d, inv')
  {
    forall e | 0 <= e < |inv'| ensures EdgeOk(d, e, inv'[e]) {
      assert ListOk(e, inv'[e]) && ListMovedOn(inv[e], inv'[e]);
      assert EdgeOk(d, e, inv[e]);
      MovedOnEdge(d, inv, inv', e);
    }
    MovedOnBaselines(d, inv, inv');
    MovedOnUpToHeads(d, inv, inv');
    MovedOnCerts(d, inv, inv');
  }

  // A certificate that stands at the new heads stood at the old ones.
  lemma MovedOnCerts(d: Durable, inv: Inventory, inv': Inventory)
    requires InventoryOk(inv') && CertsOk(d, inv) && UpToHeads(d, inv) && MovedOn(inv, inv')
    ensures CertsOk(d, inv')
  {
    forall s | s in d.certs ensures CertOk(d, inv', d.certs[s]) {
      assert CertOk(d, inv, d.certs[s]);
      if StandsAt(d.certs[s], inv') {
        StoodBefore(d, inv, inv', d.certs[s]);
      }
    }
  }

  lemma StoodBefore(d: Durable, inv: Inventory, inv': Inventory, heads: map<nat, nat>)
    requires InventoryOk(inv') && UpToHeads(d, inv) && MovedOn(inv, inv') && StandsAt(heads, inv')
    requires forall e :: e in heads ==> e in d.frontier && heads[e] <= d.frontier[e]
    ensures StandsAt(heads, inv)
  {
    forall e | 0 <= e < |inv| ensures inv[e] != [] && e in heads && heads[e] == HeadEpoch(inv[e]) {
      assert ListOk(e, inv'[e]) && ListMovedOn(inv[e], inv'[e]);
      MovedOnHead(e, inv[e], inv'[e]);
    }
  }

  lemma MovedOnUpToHeads(d: Durable, inv: Inventory, inv': Inventory)
    requires InventoryOk(inv') && UpToHeads(d, inv) && MovedOn(inv, inv')
    ensures UpToHeads(d, inv')
  {
    forall e | e in d.frontier ensures e < |inv'| && inv'[e] != [] && d.frontier[e] <= HeadEpoch(inv'[e]) {
      assert ListOk(e, inv'[e]) && ListMovedOn(inv[e], inv'[e]);
      MovedOnHead(e, inv[e], inv'[e]);
    }
    forall id | id in d.entries ensures id.edge < |inv'| && inv'[id.edge] != [] && id.epoch <= HeadEpoch(inv'[id.edge]) {
      assert ListOk(id.edge, inv'[id.edge]) && ListMovedOn(inv[id.edge], inv'[id.edge]);
      MovedOnHead(id.edge, inv[id.edge], inv'[id.edge]);
    }
  }

  lemma MovedOnHead(e: nat, list: seq<Artifact>, list': seq<Artifact>)
    requires ListOk(e, list') && ListMovedOn(list, list')
    ensures HeadEpoch(list) <= HeadEpoch(list')
  {
    assert list'[|list| - 1] == list[|list| - 1];
  }

  lemma MovedOnBaselines(d: Durable, inv: Inventory, inv': Inventory)
    requires InventoryOk(inv') && BaselinesFirst(d, inv) && UpToHeads(d, inv) && MovedOn(inv, inv')
    ensures BaselinesFirst(d, inv')
  {
    forall e, f, i, j | 0 <= e < f < |inv'| && 0 <= i < |inv'[e]| && 0 <= j < |inv'[f]| && Touched(d, inv'[f][j])
      ensures inv'[e][i].payload.Commit? || Done(d, inv'[e][i])
    {
      assert ListOk(f, inv'[f]) && ListMovedOn(inv[e], inv'[e]) && ListMovedOn(inv[f], inv'[f]);
      TouchedIsOld(d, inv, inv', f, j);
      assert inv'[f][j] == inv[f][j];
      if i < |inv[e]| {
        assert inv'[e][i] == inv[e][i];
      }
    }
  }

  lemma TouchedIsOld(d: Durable, inv: Inventory, inv': Inventory, e: nat, i: nat)
    requires UpToHeads(d, inv) && e < |inv| == |inv'| && ListMovedOn(inv[e], inv'[e]) && ListOk(e, inv'[e])
    requires i < |inv'[e]| && Touched(d, inv'[e][i])
    ensures i < |inv[e]|
  {
  }

  lemma MovedOnEdge(d: Durable, inv: Inventory, inv': Inventory, e: nat)
    requires UpToHeads(d, inv) && e < |inv| == |inv'| && ListMovedOn(inv[e], inv'[e]) && ListOk(e, inv'[e])
    requires EdgeOk(d, e, inv[e])
    ensures EdgeOk(d, e, inv'[e])
  {
    var list, list' := inv[e], inv'[e];
    var more := list'[|list|..];
    assert list' == list + more;
    forall i | 0 <= i < |list'| ensures ArtifactOk(d, list'[i]) {
      if Touched(d, list'[i]) {
        TouchedIsOld(d, inv, inv', e, i);
        assert list'[i] == list[i] && ArtifactOk(d, list[i]);
      }
    }
    forall i, j | 0 <= i < j < |list'| && Touched(d, list'[j]) ensures Done(d, list'[i]) {
      TouchedIsOld(d, inv, inv', e, j);
      assert list'[j] == list[j] && list'[i] == list[i];
    }
    forall i | 0 <= i < |more| ensures Count(d, more[i]) == 0 {
      assert more[i] == list'[|list| + i];
    }
    TakenAppend(d, list, more);
  }
}
