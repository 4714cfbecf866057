/**
 The replay loop of a consumer view, committing as it goes
 (`materialize_published_demand` and `flush_positive_baseline_group` in
 crates/velorix-api/src/demand_materialization_published.rs).
 */
module Consumer {
  import opened Wrappers
  import opened Spans
  import opened Batches
  import opened Staging
  import opened Deltas
  import opened Requests
  import opened Replay
  import opened ConsumerPass

  // What the loop holds besides the durable checkpoint: speculative progress, rows waiting for
  // their commit, and what was spent.
  datatype Work = Work(entries: map<Id, Progress>, pending: seq<Fed>, group: Option<Group>, complete: bool,
                       units: nat, rows: nat, bytes: nat)

  function Feed(log: map<nat, seq<Row>>, inputs: seq<Fed>): map<nat, seq<Row>> {
    if inputs == [] then log
    else
      var last := inputs[|inputs| - 1];
      Add(Feed(log, inputs[..|inputs| - 1]), last.edge, last.rows)
  }

  // The checkpoint a commit of the work would make.
  function Speculative(d: Durable, w: Work): Durable {
    d.(entries := w.entries, log := Feed(d.log, w.pending), complete := w.complete)
  }

  ghost predicate Spent(w: Work, budget: Budget) {
    w.units <= budget.batchLimit && w.rows <= budget.maxRows && w.bytes <= budget.maxBytes
  }

  // Both the durable checkpoint and the one in the making are in order, and they differ only
  // by what waits for a commit.
  ghost predicate WorkOk(d: Durable, inv: Inventory, w: Work, budget: Budget) {
    && StateOk(d, inv) && StateOk(Speculative(d, w), inv) && Spent(w, budget)
    && (w.pending == [] ==> w.entries == d.entries && w.complete == d.complete) && (w.pending != [] ==> w.group.Some?)
  }

  // Rows once folded stay where they are.
  ghost predicate LogGrows(a: map<nat, seq<Row>>, b: map<nat, seq<Row>>) {
    forall e: nat :: LogOf(a, e) <= LogOf(b, e)
  }

  lemma {:induction false} FeedGrows(log: map<nat, seq<Row>>, inputs: seq<Fed>)
    ensures LogGrows(log, Feed(log, inputs))
    decreases |inputs|
  {
    if inputs != [] {
      FeedGrows(log, inputs[..|inputs| - 1]);
    }
  }

  lemma LogGrowsTrans(a: map<nat, seq<Row>>, b: map<nat, seq<Row>>, c: map<nat, seq<Row>>)
    requires LogGrows(a, b) && LogGrows(b, c)
    ensures LogGrows(a, c)
  {
    forall e: nat ensures LogOf(a, e) <= LogOf(c, e) {
      assert LogOf(a, e) <= LogOf(b, e) && LogOf(b, e) <= LogOf(c, e);
    }
  }

  lemma FeedAppend(log: map<nat, seq<Row>>, inputs: seq<Fed>, x: Fed)
    ensures Feed(log, inputs + [x]) == Add(Feed(log, inputs), x.edge, x.rows)
  {
    assert (inputs + [x])[..|inputs|] == inputs;
  }

  // The rows folded on the first edges.
  ghost function RowsIn(log: map<nat, seq<Row>>, n: nat): nat {
    if n == 0 then 0 else RowsIn(log, n - 1) + |LogOf(log, n - 1)|
  }

  lemma {:induction false} AddCounts(log: map<nat, seq<Row>>, e: nat, rows: seq<Row>, n: nat)
    ensures RowsIn(Add(log, e, rows), n) == RowsIn(log, n) + if e < n then |rows| else 0
    decreases n
  {
    if n > 0 {
      AddCounts(log, e, rows, n - 1);
    }
  }

  // From one point of the loop to another, the rows counted are the rows folded.
  ghost predicate Counted(inv: Inventory, d: Durable, w: Work, d': Durable, w': Work) {
    RowsIn(Speculative(d', w').log, |inv|) - w'.rows == RowsIn(Speculative(d, w).log, |inv|) - w.rows
  }

  function Fresh(a: Artifact): Progress {
    Progress("", Spans(|Rows(a)|, []), map[], None)
  }

  // The progress an artifact stands at, before more of it is taken.
  ghost predicate EntryOf(d: Durable, a: Artifact, entry: Progress) {
    PrefixEntry(entry, |Rows(a)|) && Front(entry) == Count(d, a)
  }

  lemma StartingEntry(d: Durable, a: Artifact)
    requires ArtifactOk(d, a) && !Done(d, a)
    ensures EntryOf(d, a, if a.id in d.entries then d.entries[a.id] else Fresh(a))
    ensures !a.payload.Page? ==> Count(d, a) == 0
  {
    if a.id !in d.entries {
      var p := Fresh(a);
      assert Ordinals(p.applied) == Interval(0, 0) && Inspected(p, None) == Interval(0, 0);
      PrefixFront(p, |Rows(a)|, 0);
    }
  }

  lemma ArtifactAt(d: Durable, inv: Inventory, e: nat, j: nat)
    requires InventoryOk(inv) && StateOk(d, inv) && e < |inv| && j < |inv[e]|
    ensures ArtifactOk(d, inv[e][j])
    ensures inv[e][j].payload.EmptyBaseline? ==> |Rows(inv[e][j])| == 0
  {
    assert ListOk(e, inv[e]) && EdgeOk(d, e, inv[e]);
  }

  // The rows that a turn with so many rows to spend takes of an artifact.
  ghost predicate TakenFrom(d: Durable, a: Artifact, limit: nat, next: Progress, taken: seq<Row>) {
    && PrefixEntry(next, |Rows(a)|) && Front(next) == Count(d, a) + |taken| && |taken| == Min(limit, Rest(d, a))
    && (IsComplete(next.applied) <==> |taken| == Rest(d, a))
  }

  // The next rows of the artifact whose turn it is.
  method NextRows(d: Durable, ghost inv: Inventory, ghost e: nat, ghost j: nat, a: Artifact, limit: nat)
    returns (next: Progress, taken: seq<Row>)
    requires InventoryOk(inv) && StateOk(d, inv) && AtTurn(d, inv, e, j) && a == inv[e][j]
    requires a.payload.Commit? ==> |Rows(a)| <= limit
    ensures TakenFrom(d, a, limit, next, taken) && StateOk(Took(d, a, next, taken), inv)
  {
    ArtifactAt(d, inv, e, j);
    StartingEntry(d, a);
    var entry := if a.id in d.entries then d.entries[a.id] else Fresh(a);
    next, taken := TakeNext(entry, a, limit);
    StepFrom(d, a, entry, next, taken, limit);
    TakeKeeps(d, inv, e, j, next, taken);
  }

  lemma StepFrom(d: Durable, a: Artifact, entry: Progress, next: Progress, taken: seq<Row>, limit: nat)
    requires EntryOf(d, a, entry) && (!a.payload.Page? ==> Count(d, a) == 0 && |Rows(a)| <= limit)
    requires PrefixEntry(next, |Rows(a)|) && Front(next) == Min(Front(entry) + limit, |Rows(a)|)
    requires Front(entry) <= Front(next) && taken == Rows(a)[Front(entry)..Front(next)]
    requires IsComplete(next.applied) <==> Front(next) == |Rows(a)|
    ensures TakenFrom(d, a, limit, next, taken) && StepOk(d, a, next, taken)
  {
  }

  // Rows of an artifact not applied yet; one never looked at counts as one.
  ghost function LeftOf(d: Durable, a: Artifact): nat
    requires ArtifactOk(d, a)
  {
    if Covered(d, a) then 0 else if a.id in d.entries then |Rows(a)| - Count(d, a) else 1
  }

  ghost function LeftIn(d: Durable, list: seq<Artifact>, n: nat): nat
    requires AllOk(d, list) && n <= |list|
  {
    if n == 0 then 0 else LeftIn(d, list, n - 1) + LeftOf(d, list[n - 1])
  }

  // Over the first edges.
  ghost function LeftAll(d: Durable, inv: Inventory, n: nat): nat
    requires n <= |inv| && forall e :: 0 <= e < |inv| ==> AllOk(d, inv[e])
  {
    if n == 0 then 0 else LeftAll(d, inv, n - 1) + LeftIn(d, inv[n - 1], |inv[n - 1]|)
  }

  lemma LeftIsZero(d: Durable, a: Artifact)
    requires ArtifactOk(d, a)
    ensures LeftOf(d, a) == 0 <==> Done(d, a)
  {
    if !Covered(d, a) && a.id in d.entries {
      PrefixFront(d.entries[a.id], |Rows(a)|, Front(d.entries[a.id]));
    }
  }

  lemma {:induction false} LeftGrows(d: Durable, list: seq<Artifact>, a: nat, b: nat)
    requires AllOk(d, list) && a <= b <= |list|
    ensures LeftIn(d, list, a) <= LeftIn(d, list, b)
    decreases b
  {
    if a < b {
      LeftGrows(d, list, a, b - 1);
    }
  }

  lemma {:induction false} LeftAllGrows(d: Durable, inv: Inventory, a: nat, b: nat)
    requires a <= b <= |inv| && forall e :: 0 <= e < |inv| ==> AllOk(d, inv[e])
    ensures LeftAll(d, inv, a) <= LeftAll(d, inv, b)
    decreases b
  {
    if a < b {
      LeftAllGrows(d, inv, a, b - 1);
    }
  }

  lemma {:induction false} LeftInIsZero(d: Durable, list: seq<Artifact>, n: nat)
    requires AllOk(d, list) && n <= |list|
    ensures LeftIn(d, list, n) == 0 <==> forall i :: 0 <= i < n ==> Done(d, list[i])
    decreases n
  {
    if n > 0 {
      LeftInIsZero(d, list, n - 1);
      assert ArtifactOk(d, list[n - 1]);
      LeftIsZero(d, list[n - 1]);
    }
  }

  method RemainingOf(d: Durable, a: Artifact) returns (n: nat)
    requires ArtifactOk(d, a)
    ensures n == LeftOf(d, a)
  {
    if Covered(d, a) {
      return 0;
    }
    if a.id !in d.entries {
      return 1;
    }
    var p := d.entries[a.id];
    var done := ProcessedLen(p.applied);
    IntervalSize(0, Front(p));
    n := p.applied.total - done;
  }

  // Adds up what is left of one edge.
  method RemainingIn(d: Durable, list: seq<Artifact>, sum: nat) returns (r: Result<nat, Error>)
    requires AllOk(d, list) && sum <= U64_MAX
    ensures r.Ok? <==> sum + LeftIn(d, list, |list|) <= U64_MAX
    ensures r.Ok? ==> r.value == sum + LeftIn(d, list, |list|)
  {
    var n: nat := sum;
    var i := 0;
    while i < |list|
      invariant 0 <= i <= |list|
      invariant n == sum + LeftIn(d, list, i) <= U64_MAX
    {
      var left := RemainingOf(d, list[i]);
      n := n + left;
      i := i + 1;
      if n > U64_MAX {
        LeftGrows(d, list, i, |list|);
        return Err(Overflow);
      }
    }
    r := Ok(n);
  }

  // What is left over all edges, or an error exactly when that leaves 64 bits.
  method Remaining(d: Durable, inv: Inventory) returns (r: Result<nat, Error>)
    requires forall e :: 0 <= e < |inv| ==> AllOk(d, inv[e])
    ensures r.Ok? <==> LeftAll(d, inv, |inv|) <= U64_MAX
    ensures r.Ok? ==> r.value == LeftAll(d, inv, |inv|) && (r.value == 0 <==> AllDone(d, inv))
    ensures r.Err? ==> r.error == Overflow
  {
    var n := 0;
    var e := 0;
    while e < |inv|
      invariant 0 <= e <= |inv|
      invariant n == LeftAll(d, inv, e) <= U64_MAX
      invariant n == 0 <==> forall f, i :: 0 <= f < e && 0 <= i < |inv[f]| ==> Done(d, inv[f][i])
    {
      LeftInIsZero(d, inv[e], |inv[e]|);
      var more := RemainingIn(d, inv[e], n);
      if more.Err? {
        LeftAllGrows(d, inv, e + 1, |inv|);
        return Err(Overflow);
      }
      n := more.value;
      e := e + 1;
    }
    r := Ok(n);
  }

  // Every edge has folded all rows of its inventory, in order, and stands at its captured head.
  ghost predicate Complete(d: Durable, inv: Inventory)
  {
    && d.complete
    && (forall e: nat :: e < |inv| ==>
          && inv[e] != [] && e in d.frontier && d.frontier[e] == HeadEpoch(inv[e])
          && LogOf(d.log, e) == AllRows(inv[e]))
  }

  // The view is complete at the captured heads and certified there for the scope.
  ghost predicate CompleteFor(d: Durable, inv: Inventory, scope: Scope) {
    Complete(d, inv) && Certified(d, inv, scope)
  }

  lemma ListsOk(d: Durable, inv: Inventory)
    requires InventoryOk(inv) && StateOk(d, inv)
    ensures forall e :: 0 <= e < |inv| ==> AllOk(d, inv[e]) && inv[e] != []
  {
    forall e | 0 <= e < |inv| ensures AllOk(d, inv[e]) && inv[e] != [] {
      assert EdgeOk(d, e, inv[e]) && ListOk(e, inv[e]);
    }
  }

  lemma Completed(d: Durable, inv: Inventory, scope: Scope)
    requires InventoryOk(inv) && StateOk(d, inv) && AllDone(d, inv)
    requires forall e :: 0 <= e < |inv| ==> inv[e] != []
    ensures var d' := Certify(d, inv, scope);
            StateOk(d', inv) && AllDone(d', inv) && Complete(d', inv) && Certified(d', inv, scope)
  {
    CompleteKeeps(d, inv, scope);
    AtHeads(Certify(d, inv, scope), inv);
  }

  // The scope is certified at the heads of the inventory.
  predicate Certified(d: Durable, inv: Inventory, scope: Scope)
    requires forall e :: 0 <= e < |inv| ==> inv[e] != []
  {
    scope in d.certs && d.certs[scope] == Heads(inv)
  }

  // A certificate is never wrong: everything is applied and the checkpoint is complete.
  lemma CertifiedIsComplete(d: Durable, inv: Inventory, scope: Scope)
    requires InventoryOk(inv) && StateOk(d, inv)
    requires (forall e :: 0 <= e < |inv| ==> inv[e] != []) && Certified(d, inv, scope)
    ensures AllDone(d, inv) && Complete(d, inv)
  {
    assert CertOk(d, inv, d.certs[scope]);
    FrontierAtHeads(d, inv, d.certs[scope]);
    forall e | 0 <= e < |inv|
      ensures LogOf(d.log, e) == AllRows(inv[e]) && forall i :: 0 <= i < |inv[e]| ==> Done(d, inv[e][i])
    {
      CoveredEdge(d, e, inv[e]);
    }
  }

  lemma FrontierAtHeads(d: Durable, inv: Inventory, heads: map<nat, nat>)
    requires UpToHeads(d, inv) && CertOk(d, inv, heads) && StandsAt(heads, inv)
    ensures d.complete && forall e :: 0 <= e < |inv| ==> e in d.frontier && d.frontier[e] == HeadEpoch(inv[e])
  {
  }

  lemma CoveredEdge(d: Durable, e: nat, list: seq<Artifact>)
    requires ListOk(e, list) && EdgeOk(d, e, list) && e in d.frontier && d.frontier[e] == HeadEpoch(list)
    ensures LogOf(d.log, e) == AllRows(list) && forall i :: 0 <= i < |list| ==> Done(d, list[i])
  {
    forall i | 0 <= i < |list| ensures Done(d, list[i]) {
      assert list[i].id.epoch <= HeadEpoch(list);
    }
    CompleteEdge(d, d, e, list);
  }

  lemma AtHeads(d: Durable, inv: Inventory)
    requires forall e :: 0 <= e < |inv| ==> inv[e] != []
    requires d.complete && d.frontier == Heads(inv) && forall e :: 0 <= e < |inv| ==> LogOf(d.log, e) == AllRows(inv[e])
    ensures Complete(d, inv)
  {
  }

  // ---------------------------------------------------------------- where the loop has come to

  // What the loop has spent, and what waits.
  function SoFar(k: Work): Course {
    Course(k.units, k.rows, k.bytes, if k.pending == [] then None else k.group)
  }

  // The loop has come to an artifact, having run its course up to there.
  ghost predicate LoopAt(inv: Inventory, w: Pass, n: nat, c: Course, d: Durable, k: Work) {
    && n <= |w.list| && WorkOk(d, inv, k, w.budget) && SoFar(k) == c
    && Kept(w, n, None, Speculative(d, k)) && Kept(w, n, c.waiting, d)
  }

  // Only pages of the artifact's own baseline still wait.
  ghost predicate Flushed(inv: Inventory, w: Pass, n: nat, c: Course, d: Durable, k: Work) {
    && n < |w.list| && WorkOk(d, inv, k, w.budget) && SoFar(k) == c.(waiting := Waits(w.list[n], c))
    && Kept(w, n, None, Speculative(d, k)) && Kept(w, n, Waits(w.list[n], c), d)
  }

  // The loop has stopped at an artifact.
  ghost predicate StopAt(inv: Inventory, w: Pass, n: nat, c: Course, d: Durable, k: Work) {
    && n < |w.list| && WorkOk(d, inv, k, w.budget) && Stops(w, n, c, SoFar(k))
    && Stood(w, n, c, SoFar(k), Speculative(d, k)) && Kept(w, n, SoFar(k).waiting, d)
  }

  lemma OtherFlushed(inv: Inventory, w: Pass, n: nat, c: Course, d: Durable, k: Work, s: Durable, k': Work)
    requires n < |w.list| && LoopAt(inv, w, n, c, d, k) && k.pending != [] && GroupOf(w.list[n]) != k.group
    requires s == Speculative(d, k) && k' == k.(pending := [])
    ensures Flushed(inv, w, n, c, s, k') && Speculative(s, k') == s
  {
    NothingWaits(s, k');
  }

  lemma FlushRemains(w: Pass, n: nat, c: Course, d: Durable, s: Durable)
    requires n < |w.list| && c.waiting.Some? && GroupOf(w.list[n]) != c.waiting && Kept(w, n, c.waiting, d) && Kept(w, n, None, s)
    ensures Lost(w, n, c) <==> w.env(n).flush != NoFault
    ensures w.env(n).flush == Refused ==> Remains(w, n, c, CommitFailed, d)
    ensures w.env(n).flush == ReplyLost ==> Remains(w, n, c, CommitFailed, s)
  {
  }

  lemma SkipDone(inv: Inventory, w: Pass, n: nat, j: nat, c: Course, d: Durable, k: Work)
    requires Flushed(inv, w, n, c, d, k) && j == n + 1 && Done(Speculative(d, k), w.list[n])
    ensures Done(w.d, w.list[n]) && LoopAt(inv, w, j, Next(w, n, c), d, k)
  {
    var waits := Waits(w.list[n], c);
    assert SameStanding(w.d, Speculative(d, k), w.list[n]) && SameStanding(w.d, d, w.list[n]);
    KeptPast(w, n, j, None, None, Speculative(d, k));
    KeptPast(w, n, j, waits, waits, d);
  }

  lemma TurnIsDue(inv: Inventory, w: Pass, n: nat, c: Course, d: Durable, k: Work) returns (e: nat, j: nat)
    requires Flushed(inv, w, n, c, d, k) && w.list == Flatten(inv) && !Done(Speculative(d, k), w.list[n])
    ensures AtTurn(Speculative(d, k), inv, e, j) && inv[e][j] == w.list[n] && !Done(w.d, w.list[n])
    ensures Rest(Speculative(d, k), w.list[n]) == Rest(w.d, w.list[n])
  {
    e, j := PlaceOf(inv, n);
    assert SameStanding(w.d, Speculative(d, k), w.list[n]);
    forall i | 0 <= i < n ensures Done(Speculative(d, k), w.list[i]) {
      assert KeptAt(w, i, None, Speculative(d, k));
    }
    TurnAt(Speculative(d, k), inv, n, e, j);
  }

  // The work after taking rows of an artifact.
  function More(k: Work, a: Artifact, next: Progress, taken: seq<Row>): Work {
    k.(entries := k.entries[a.id := next], complete := false, units := k.units + 1, rows := k.rows + |taken|, bytes := k.bytes + a.bytes)
  }

  // A page waits with its baseline.
  function WithPage(k: Work, a: Artifact, next: Progress, taken: seq<Row>): Work {
    More(k, a, next, taken).(pending := k.pending + [Fed(a.id.edge, taken)], group := GroupOf(a))
  }

  lemma PageTaken(d: Durable, k: Work, a: Artifact, next: Progress, taken: seq<Row>)
    ensures Speculative(d, WithPage(k, a, next, taken)) == Took(Speculative(d, k), a, next, taken)
  {
    FeedAppend(d.log, k.pending, Fed(a.id.edge, taken));
  }

  // Taking all that is left of an artifact brings it behind the loop; taking less leaves it there.
  lemma TookWhole(w: Pass, n: nat, j: nat, s: Durable, limit: nat, next: Progress, taken: seq<Row>)
    requires DistinctIds(w.list) && n < |w.list| && j == n + 1 && Kept(w, n, None, s) && !Done(s, w.list[n])
    requires TakenFrom(s, w.list[n], limit, next, taken) && |taken| == Rest(s, w.list[n])
    ensures Kept(w, j, None, Took(s, w.list[n], next, taken))
  {
    TookOthers(w, n, s, next, taken);
  }

  lemma TookPart(w: Pass, n: nat, c: Course, o: Course, s: Durable, limit: nat, next: Progress, taken: seq<Row>)
    requires DistinctIds(w.list) && n < |w.list| && Kept(w, n, None, s) && !Done(s, w.list[n])
    requires TakenFrom(s, w.list[n], limit, next, taken) && |taken| != Rest(s, w.list[n])
    requires o.units != c.units && o.rows == c.rows + |taken|
    ensures Stood(w, n, c, o, Took(s, w.list[n], next, taken))
  {
    assert SameStanding(w.d, s, w.list[n]);
    TookOthers(w, n, s, next, taken);
  }

  // What a turn may do with an artifact that is not done: the budgets allow it to be taken.
  ghost predicate Admits(w: Pass, n: nat, c: Course)
    requires n < |w.list|
  {
    var a := w.list[n];
    && !Lost(w, n, c) && !Done(w.d, a) && !Halts(w, n, c) && Fits(w, a, c) && a.sound
    && (a.payload.Commit? ==> |Rows(a)| <= w.budget.maxRows - c.rows)
  }

  lemma PageCounts(w: Pass, n: nat, c: Course, s: Durable, k: Work, limit: nat, next: Progress, taken: seq<Row>)
    requires n < |w.list| && SoFar(k) == c.(waiting := Waits(w.list[n], c)) && Spent(k, w.budget) && SameStanding(w.d, s, w.list[n])
    requires Admits(w, n, c) && w.list[n].payload.Page? && limit == w.budget.maxRows - c.rows
    requires TakenFrom(s, w.list[n], limit, next, taken)
    ensures var k' := WithPage(k, w.list[n], next, taken);
            && Spent(k', w.budget)
            && (if |taken| == Rest(w.d, w.list[n]) then Goes(w, n, c) && SoFar(k') == Next(w, n, c) else Stops(w, n, c, SoFar(k')))
  {
  }

  lemma PageStands(inv: Inventory, w: Pass, n: nat, j: nat, c: Course, d: Durable, k: Work, limit: nat, next: Progress, taken: seq<Row>)
    requires Flushed(inv, w, n, c, d, k) && DistinctIds(w.list) && j == n + 1 && !Done(Speculative(d, k), w.list[n])
    requires Admits(w, n, c) && w.list[n].payload.Page? && limit == w.budget.maxRows - c.rows
    requires TakenFrom(Speculative(d, k), w.list[n], limit, next, taken)
    requires StateOk(Took(Speculative(d, k), w.list[n], next, taken), inv)
    ensures var k' := WithPage(k, w.list[n], next, taken);
            if |taken| == Rest(w.d, w.list[n]) then Goes(w, n, c) && LoopAt(inv, w, j, Next(w, n, c), d, k')
            else StopAt(inv, w, n, c, d, k')
  {
    var a := w.list[n];
    assert SameStanding(w.d, Speculative(d, k), a) && SameStanding(w.d, d, a);
    PageTaken(d, k, a, next, taken);
    PageCounts(w, n, c, Speculative(d, k), k, limit, next, taken);
    KeptWith(w, n, c, d);
    if |taken| == Rest(w.d, a) {
      TookWhole(w, n, j, Speculative(d, k), limit, next, taken);
      KeptPast(w, n, j, GroupOf(a), GroupOf(a), d);
    } else {
      TookPart(w, n, c, SoFar(WithPage(k, a, next, taken)), Speculative(d, k), limit, next, taken);
    }
  }

  // Pages that wait at a page wait with it.
  lemma KeptWith(w: Pass, n: nat, c: Course, d: Durable)
    requires n < |w.list| && Kept(w, n, Waits(w.list[n], c), d) && w.list[n].payload.Page?
    ensures Kept(w, n, GroupOf(w.list[n]), d)
  {
    forall i | 0 <= i < n ensures KeptAt(w, i, GroupOf(w.list[n]), d) {
      assert KeptAt(w, i, Waits(w.list[n], c), d);
    }
  }

  lemma CommitCounts(w: Pass, n: nat, c: Course, s: Durable, k: Work, limit: nat, next: Progress, taken: seq<Row>)
    requires n < |w.list| && SoFar(k) == c.(waiting := Waits(w.list[n], c)) && Spent(k, w.budget) && SameStanding(w.d, s, w.list[n])
    requires Admits(w, n, c) && !w.list[n].payload.Page? && limit == w.budget.maxRows - c.rows
    requires (w.list[n].payload.EmptyBaseline? ==> |Rows(w.list[n])| == 0) && TakenFrom(s, w.list[n], limit, next, taken)
    requires k.pending != [] ==> k.group.Some?
    ensures var k' := More(k, w.list[n], next, taken);
            && k.pending == [] && Spent(k', w.budget) && SoFar(k') == Next(w, n, c)
            && Whole(w, w.list[n], c) && |taken| == Rest(w.d, w.list[n])
  {
  }

  lemma CommitStands(inv: Inventory, w: Pass, n: nat, j: nat, c: Course, d: Durable, k: Work, limit: nat, next: Progress, taken: seq<Row>)
    requires Flushed(inv, w, n, c, d, k) && DistinctIds(w.list) && j == n + 1 && !Done(Speculative(d, k), w.list[n])
    requires Admits(w, n, c) && !w.list[n].payload.Page? && limit == w.budget.maxRows - c.rows
    requires w.list[n].payload.EmptyBaseline? ==> |Rows(w.list[n])| == 0
    requires TakenFrom(Speculative(d, k), w.list[n], limit, next, taken)
    requires StateOk(Took(Speculative(d, k), w.list[n], next, taken), inv)
    ensures k.pending == [] && Whole(w, w.list[n], c) && Kept(w, n, None, d)
    ensures var d' := Took(Speculative(d, k), w.list[n], next, taken);
            LoopAt(inv, w, j, Next(w, n, c), d', More(k, w.list[n], next, taken)) && Kept(w, j, None, d')
  {
    assert SameStanding(w.d, Speculative(d, k), w.list[n]);
    CommitCounts(w, n, c, Speculative(d, k), k, limit, next, taken);
    TookWhole(w, n, j, Speculative(d, k), limit, next, taken);
    NothingWaits(Took(Speculative(d, k), w.list[n], next, taken), More(k, w.list[n], next, taken));
  }

  lemma NothingWaits(d: Durable, k: Work)
    requires k.pending == [] && d.entries == k.entries && d.complete == k.complete
    ensures Speculative(d, k) == d
  {
  }

  lemma CommitRemains(w: Pass, n: nat, j: nat, c: Course, before: Durable, done: Durable, d: Durable)
    requires n < |w.list| && j == n + 1 && Admits(w, n, c) && !w.list[n].payload.Page? && Whole(w, w.list[n], c)
    requires Kept(w, n, None, before) && Kept(w, j, None, done) && d == if w.env(n).commit == Refused then before else done
    ensures w.env(n).commit != NoFault ==> Fails(w, n, c, CommitFailed) && Remains(w, n, c, CommitFailed, d)
    ensures w.env(n).commit == NoFault ==> Goes(w, n, c)
  {
  }

  // Whether an artifact whose turn it is may be taken, stops the loop, or fails it. A signed
  // commit is loaded before it turns out not to fit.
  datatype Verdict = Proceed | Halt(bytes: nat) | Refuse(error: Error)

  method Admit(w: Pass, n: nat, k: Work, ghost c: Course) returns (v: Verdict)
    requires n < |w.list| && Spent(k, w.budget) && SoFar(k) == c.(waiting := Waits(w.list[n], c))
    requires !Lost(w, n, c) && !Done(w.d, w.list[n]) && (k.pending != [] ==> k.group.Some?)
    ensures v.Proceed? ==> Admits(w, n, c)
    ensures v.Halt? ==> k.bytes <= v.bytes <= w.budget.maxBytes && Stops(w, n, c, SoFar(k.(bytes := v.bytes)))
    ensures v.Refuse? ==> Fails(w, n, c, v.error) && v.error != CommitFailed
  {
    var a, budget := w.list[n], w.budget;
    if w.env(n).busy || k.units >= budget.batchLimit || k.rows >= budget.maxRows {
      return Halt(k.bytes);
    }
    if a.bytes > budget.maxBytes - k.bytes {
      return if k.pending != [] then Halt(k.bytes) else Refuse(BudgetRequired(a.bytes, budget.maxBytes - k.bytes));
    }
    if !a.sound {
      return Refuse(Corrupt);
    }
    if a.payload.Commit? && |Rows(a)| > budget.maxRows {
      return Refuse(BudgetRequired(|Rows(a)|, budget.maxRows));
    }
    if a.payload.Commit? && |Rows(a)| > budget.maxRows - k.rows {
      return Halt(k.bytes + a.bytes);
    }
    v := Proceed;
  }

  lemma BytesOnly(inv: Inventory, w: Pass, n: nat, c: Course, d: Durable, k: Work, bytes: nat)
    requires Flushed(inv, w, n, c, d, k) && bytes <= w.budget.maxBytes && Stops(w, n, c, SoFar(k.(bytes := bytes)))
    ensures StopAt(inv, w, n, c, d, k.(bytes := bytes)) && Speculative(d, k.(bytes := bytes)) == Speculative(d, k)
  {
    assert Speculative(d, k.(bytes := bytes)) == Speculative(d, k);
    forall i | 0 <= i < n ensures Done(Speculative(d, k), w.list[i]) {
      assert KeptAt(w, i, None, Speculative(d, k));
    }
  }

  // How a request is answered once everything taken is committed: by what is left, or by what
  // becomes of the commit that moves the frontiers to the heads and certifies the scope.
  ghost predicate Concluded(inv: Inventory, scope: Scope, o: Course, s: Durable, fault: Fault, d: Durable, r: Result<Outcome, Error>)
    requires forall e :: 0 <= e < |inv| ==> AllOk(s, inv[e]) && inv[e] != []
  {
    var left := LeftAll(s, inv, |inv|);
    if left > U64_MAX then r == Err(Overflow) && d == s
    else if left > 0 then r == Ok(Outcome(false, o.units, o.rows, o.bytes, left)) && d == s
    else if fault != NoFault then r == Err(CommitFailed) && Unanswered(fault, d == s, d == Certify(s, inv, scope))
    else r == Ok(Outcome(true, o.units, o.rows, o.bytes, 0)) && d == Certify(s, inv, scope)
  }

  // A sound checkpoint where the pass ended.
  ghost predicate EndedWith(inv: Inventory, w: Pass, n: nat, o: Course, s: Durable)
    requires n <= |w.list|
  {
    && Stood(w, n, CourseTo(w, n), o, s) && StateOk(s, inv)
    && (forall e :: 0 <= e < |inv| ==> AllOk(s, inv[e]) && inv[e] != [])
  }

  // How a request is answered after its pass: the pages that still wait are committed first.
  ghost predicate Settled(inv: Inventory, scope: Scope, w: Pass, n: nat, o: Course, last: Turnout, d: Durable, r: Result<Outcome, Error>)
    requires n <= |w.list|
  {
    if o.waiting.Some? && last.flush != NoFault then
      r == Err(CommitFailed) && Unanswered(last.flush, Kept(w, n, o.waiting, d), Stood(w, n, CourseTo(w, n), o, d))
    else exists s :: EndedWith(inv, w, n, o, s) && Concluded(inv, scope, o, s, last.commit, d, r)
  }

  // How a request is answered, and the checkpoint it leaves.
  ghost predicate Answered(inv: Inventory, scope: Scope, w: Pass, last: Turnout, d: Durable, r: Result<Outcome, Error>)
    requires forall e :: 0 <= e < |inv| ==> inv[e] != []
  {
    if Certified(w.d, inv, scope) then r == Ok(Outcome(true, 0, 0, w.spent, 0)) && d == w.d
    else
      || (r.Err? && exists n :: Breaks(w, n, r.error) && Remains(w, n, CourseTo(w, n), r.error, d))
      || (exists n, o :: Ends(w, n, o) && Settled(inv, scope, w, n, o, last, d, r))
  }

  lemma SettledHere(inv: Inventory, scope: Scope, w: Pass, n: nat, o: Course, s: Durable, last: Turnout, d: Durable,
                    r: Result<Outcome, Error>)
    requires Ends(w, n, o) && (o.waiting.Some? ==> last.flush == NoFault)
    requires EndedWith(inv, w, n, o, s) && Concluded(inv, scope, o, s, last.commit, d, r) && !Certified(w.d, inv, scope)
    ensures Answered(inv, scope, w, last, d, r)
  {
    assert Settled(inv, scope, w, n, o, last, d, r);
  }

  lemma FlushLost(inv: Inventory, scope: Scope, w: Pass, n: nat, o: Course, last: Turnout, before: Durable, done: Durable, d: Durable)
    requires (forall e :: 0 <= e < |inv| ==> inv[e] != []) && !Certified(w.d, inv, scope)
    requires Ends(w, n, o) && o.waiting.Some? && last.flush != NoFault && d == if last.flush == Refused then before else done
    requires Kept(w, n, o.waiting, before) && Stood(w, n, CourseTo(w, n), o, done)
    ensures Answered(inv, scope, w, last, d, Err(CommitFailed))
  {
    assert Settled(inv, scope, w, n, o, last, d, Err(CommitFailed));
  }

  // Where the loop ended, with its work.
  ghost predicate WalkedTo(inv: Inventory, w: Pass, n: nat, d: Durable, k: Work) {
    && WorkOk(d, inv, k, w.budget) && Ends(w, n, SoFar(k))
    && Stood(w, n, CourseTo(w, n), SoFar(k), Speculative(d, k)) && Kept(w, n, SoFar(k).waiting, d)
  }

  lemma FlushedTo(inv: Inventory, w: Pass, n: nat, d: Durable, k: Work)
    requires InventoryOk(inv) && WalkedTo(inv, w, n, d, k)
    ensures EndedWith(inv, w, n, SoFar(k), Speculative(d, k))
    ensures k.pending == [] ==> Speculative(d, k) == d
    ensures k.pending != [] <==> SoFar(k).waiting.Some?
  {
    ListsOk(Speculative(d, k), inv);
  }

  lemma AllBehind(inv: Inventory, w: Pass, n: nat, c: Course, d: Durable, k: Work)
    requires n == |w.list| && c == CourseTo(w, n) && Reaches(w, n) && LoopAt(inv, w, n, c, d, k)
    ensures WalkedTo(inv, w, n, d, k)
  {
    forall i | 0 <= i < n ensures Done(Speculative(d, k), w.list[i]) {
      assert KeptAt(w, i, None, Speculative(d, k));
    }
  }

  lemma StoppedAt(inv: Inventory, w: Pass, n: nat, c: Course, d: Durable, k: Work)
    requires n < |w.list| && c == CourseTo(w, n) && Reaches(w, n) && StopAt(inv, w, n, c, d, k)
    ensures WalkedTo(inv, w, n, d, k)
  {
  }

  lemma WalkStart(inv: Inventory, w: Pass)
    requires StateOk(w.d, inv) && w.spent <= w.budget.maxBytes
    ensures LoopAt(inv, w, 0, Course(0, 0, w.spent, None), w.d, Work(w.d.entries, [], None, w.d.complete, 0, 0, w.spent))
  {
    NothingWaits(w.d, Work(w.d.entries, [], None, w.d.complete, 0, 0, w.spent));
  }

  class ConsumerView {
    var durable: Durable

    constructor ()
      ensures durable == NOTHING
    {
      durable := NOTHING;
    }

    // A view restored from its checkpoint.
    constructor At(d: Durable)
      ensures durable == d
    {
      durable := d;
    }

    // Commits a checkpoint, all of it or nothing. The caller may not learn which.
    method CommitUnit(entries: map<Id, Progress>, inputs: seq<Fed>, complete: bool, fault: Fault)
      returns (ok: bool)
      modifies this
      ensures durable == if fault == Refused then old(durable)
                         else old(durable).(entries := entries, log := Feed(old(durable).log, inputs), complete := complete)
      ensures ok <==> fault == NoFault
    {
      if fault != Refused {
        durable := durable.(entries := entries, log := Feed(durable.log, inputs), complete := complete);
      }
      ok := fault == NoFault;
    }

    // Commits the pages waiting for it, if any.
    method Flush(k: Work, fault: Fault) returns (ok: bool, k': Work)
      modifies this
      ensures k' == k.(pending := [])
      ensures k.pending == [] ==> ok && durable == old(durable)
      ensures k.pending != [] ==> (ok <==> fault == NoFault)
      ensures k.pending != [] ==> durable == if fault == Refused then old(durable) else Speculative(old(durable), k)
    {
      k' := k.(pending := []);
      if k.pending == [] {
        return true, k';
      }
      ok := CommitUnit(k.entries, k.pending, k.complete, fault);
    }

    // Flushes the waiting pages unless the artifact belongs to their baseline.
    method FlushOther(ghost inv: Inventory, w: Pass, n: nat, k: Work, ghost c: Course) returns (ok: bool, k': Work)
      requires n < |w.list| && LoopAt(inv, w, n, c, durable, k)
      modifies this
      ensures StateOk(durable, inv) && LogGrows(old(durable).log, durable.log)
      ensures ok <==> !Lost(w, n, c)
      ensures ok ==> Flushed(inv, w, n, c, durable, k') && Speculative(durable, k') == Speculative(old(durable), k) && k'.rows == k.rows
      ensures !ok ==> Remains(w, n, c, CommitFailed, durable)
    {
      FeedGrows(durable.log, k.pending);
      FeedGrows(durable.log, []);
      if k.pending != [] && GroupOf(w.list[n]) != k.group {
        OtherFlushed(inv, w, n, c, durable, k, Speculative(durable, k), k.(pending := []));
        FlushRemains(w, n, c, durable, Speculative(durable, k));
        ok, k' := Flush(k, w.env(n).flush);
      } else {
        ok, k' := true, k;
      }
    }

    // Takes more rows of the artifact whose turn it is: a page waits with its baseline, anything
    // else is committed on its own.
    method Take(ghost inv: Inventory, w: Pass, n: nat, ghost j: nat, k: Work, ghost c: Course, ghost e: nat, ghost l: nat)
      returns (r: Result<(Work, bool), Error>)
      requires InventoryOk(inv) && DistinctIds(w.list) && Flushed(inv, w, n, c, durable, k) && j == n + 1 && Admits(w, n, c)
      requires AtTurn(Speculative(durable, k), inv, e, l) && inv[e][l] == w.list[n]
      modifies this
      ensures StateOk(durable, inv) && LogGrows(old(durable).log, durable.log)
      ensures r.Ok? ==> Counted(inv, old(durable), k, durable, r.value.0)
      ensures r.Ok? && !r.value.1 ==> Goes(w, n, c) && LoopAt(inv, w, j, Next(w, n, c), durable, r.value.0)
      ensures r.Ok? && r.value.1 ==> StopAt(inv, w, n, c, durable, r.value.0)
      ensures r.Err? ==> Fails(w, n, c, r.error) && Remains(w, n, c, r.error, durable)
    {
      var a := w.list[n];
      var s := Speculative(durable, k);
      ArtifactAt(s, inv, e, l);
      assert ListOk(e, inv[e]);
      var limit: nat := w.budget.maxRows - k.rows;
      var next, taken := NextRows(s, inv, e, l, a, limit);
      AddCounts(s.log, a.id.edge, taken, |inv|);
      if a.payload.Page? {
        FeedGrows(durable.log, []);
        PageStands(inv, w, n, j, c, durable, k, limit, next, taken);
        PageTaken(durable, k, a, next, taken);
        r := Ok((WithPage(k, a, next, taken), !IsComplete(next.applied)));
      } else {
        CommitStands(inv, w, n, j, c, durable, k, limit, next, taken);
        var more := More(k, a, next, taken);
        var ok := CommitTaken(s, k, a, next, taken, w.env(n).commit);
        CommitRemains(w, n, j, c, old(durable), Took(s, a, next, taken), durable);
        NothingWaits(Took(s, a, next, taken), more);
        r := if ok then Ok((more, false)) else Err(CommitFailed);
      }
    }

    // Commits rows taken of one artifact.
    method CommitTaken(ghost s: Durable, k: Work, a: Artifact, next: Progress, taken: seq<Row>, fault: Fault) returns (ok: bool)
      requires k.pending == [] && s == Speculative(durable, k)
      modifies this
      ensures durable == if fault == Refused then old(durable) else Took(s, a, next, taken)
      ensures (ok <==> fault == NoFault) && LogGrows(old(durable).log, durable.log)
    {
      var inputs := [Fed(a.id.edge, taken)];
      FeedAppend(durable.log, [], Fed(a.id.edge, taken));
      assert [] + inputs == inputs;
      FeedGrows(durable.log, inputs);
      FeedGrows(durable.log, []);
      ok := CommitUnit(k.entries[a.id := next], inputs, false, fault);
    }
  
    // One artifact of the loop: flush a finished baseline, skip what is done, stop at a budget, or
    // load the artifact and take rows of it.
    method Turn(ghost inv: Inventory, w: Pass, n: nat, ghost j: nat, k: Work, ghost c: Course) returns (r: Result<(Work, bool), Error>)
      requires InventoryOk(inv) && w.list == Flatten(inv) && DistinctIds(w.list)
      requires n < |w.list| && j == n + 1 && LoopAt(inv, w, n, c, durable, k)
      modifies this
      ensures StateOk(durable, inv) && LogGrows(old(durable).log, durable.log)
      ensures r.Ok? ==> Counted(inv, old(durable), k, durable, r.value.0)
      ensures r.Ok? && !r.value.1 ==> Goes(w, n, c) && LoopAt(inv, w, j, Next(w, n, c), durable, r.value.0)
      ensures r.Ok? && r.value.1 ==> StopAt(inv, w, n, c, durable, r.value.0)
      ensures r.Err? ==> Fails(w, n, c, r.error) && Remains(w, n, c, r.error, durable)
    {
      var ok, work := FlushOther(inv, w, n, k, c);
      if !ok {
        return Err(CommitFailed);
      }
      if Done(Speculative(durable, work), w.list[n]) {
        SkipDone(inv, w, n, j, c, durable, work);
        return Ok((work, false));
      }
      label Considering:
      r := Consider(inv, w, n, j, work, c);
      LogGrowsTrans(old(durable).log, old@Considering(durable).log, durable.log);
    }

    // An artifact that is not done yet: take rows of it, stop, or fail.
    method Consider(ghost inv: Inventory, w: Pass, n: nat, ghost j: nat, k: Work, ghost c: Course) returns (r: Result<(Work, bool), Error>)
      requires InventoryOk(inv) && w.list == Flatten(inv) && DistinctIds(w.list)
      requires Flushed(inv, w, n, c, durable, k) && j == n + 1 && !Lost(w, n, c) && !Done(Speculative(durable, k), w.list[n])
      modifies this
      ensures StateOk(durable, inv) && LogGrows(old(durable).log, durable.log)
      ensures r.Ok? ==> Counted(inv, old(durable), k, durable, r.value.0)
      ensures r.Ok? && !r.value.1 ==> Goes(w, n, c) && LoopAt(inv, w, j, Next(w, n, c), durable, r.value.0)
      ensures r.Ok? && r.value.1 ==> StopAt(inv, w, n, c, durable, r.value.0)
      ensures r.Err? ==> Fails(w, n, c, r.error) && Remains(w, n, c, r.error, durable)
    {
      ghost var e, l := TurnIsDue(inv, w, n, c, durable, k);
      FeedGrows(durable.log, []);
      var verdict := Admit(w, n, k, c);
      match verdict
      case Halt(bytes) =>
        BytesOnly(inv, w, n, c, durable, k, bytes);
        r := Ok((k.(bytes := bytes), true));
      case Refuse(error) => r := Err(error);
      case Proceed => r := Take(inv, w, n, j, k, c, e, l);
    }

    // Walks all artifacts of all edges in order until one is left incomplete.
    method Walk(ghost inv: Inventory, w: Pass) returns (r: Result<Work, Error>, ghost n: nat)
      requires InventoryOk(inv) && w.list == Flatten(inv) && w.d == durable && StateOk(durable, inv) && w.spent <= w.budget.maxBytes
      modifies this
      ensures StateOk(durable, inv) && LogGrows(old(durable).log, durable.log)
      ensures r.Ok? ==> WalkedTo(inv, w, n, durable, r.value)
      ensures r.Ok? ==> RowsIn(Speculative(durable, r.value).log, |inv|) == RowsIn(w.d.log, |inv|) + r.value.rows
      ensures r.Err? ==> Breaks(w, n, r.error) && Remains(w, n, CourseTo(w, n), r.error, durable)
    {
      InventoryIds(inv);
      WalkStart(inv, w);
      FeedGrows(durable.log, []);
      var k, i := Work(durable.entries, [], None, durable.complete, 0, 0, w.spent), 0;
      ghost var c := CourseTo(w, 0);
      while i < |w.list|
        invariant 0 <= i <= |w.list| && c == CourseTo(w, i) && Reaches(w, i)
        invariant LoopAt(inv, w, i, c, durable, k)
        invariant LogGrows(old(durable).log, durable.log)
        invariant RowsIn(Speculative(durable, k).log, |inv|) == RowsIn(w.d.log, |inv|) + k.rows
      {
        var next := i + 1;
        label Turning:
        var turn := Turn(inv, w, i, next, k, c);
        LogGrowsTrans(old(durable).log, old@Turning(durable).log, durable.log);
        if turn.Err? {
          return Err(turn.error), i;
        }
        k := turn.value.0;
        if turn.value.1 {
          StoppedAt(inv, w, i, c, durable, k);
          return Ok(k), i;
        }
        ReachesStep(w, i, next, c);
        CourseStep(w, i, next);
        c, i := CourseTo(w, next), next;
      }
      AllBehind(inv, w, i, c, durable, k);
      return Ok(k), i;
    }

    // Commits a finished request: the frontiers at the heads and the scope certified.
    method Install(inv: Inventory, scope: Scope, fault: Fault) returns (ok: bool)
      requires forall e :: 0 <= e < |inv| ==> inv[e] != []
      modifies this
      ensures durable == if fault == Refused then old(durable) else Certify(old(durable), inv, scope)
      ensures ok <==> fault == NoFault
    {
      if fault != Refused {
        durable := Certify(durable, inv, scope);
      }
      ok := fault == NoFault;
    }

    // Counts what is left, and when nothing is moves the frontiers to the captured heads.
    method Finish(inv: Inventory, scope: Scope, k: Work, fault: Fault) returns (r: Result<Outcome, Error>)
      requires InventoryOk(inv) && StateOk(durable, inv)
      modifies this
      ensures StateOk(durable, inv) && durable.log == old(durable).log
      ensures (forall e :: 0 <= e < |inv| ==> AllOk(old(durable), inv[e]) && inv[e] != [])
      ensures Concluded(inv, scope, SoFar(k), old(durable), fault, durable, r)
      ensures r.Ok? ==> r.value.units == k.units && r.value.rows == k.rows && r.value.bytes == k.bytes
      ensures r.Ok? ==> (r.value.complete <==> AllDone(durable, inv))
      ensures r.Ok? && r.value.complete ==> CompleteFor(durable, inv, scope)
    {
      ListsOk(durable, inv);
      var remaining := Remaining(durable, inv);
      if remaining.Err? {
        return Err(Overflow);
      }
      if remaining.value == 0 {
        Completed(durable, inv, scope);
        var ok := Install(inv, scope, fault);
        if !ok {
          return Err(CommitFailed);
        }
      }
      r := Ok(Outcome(remaining.value == 0, k.units, k.rows, k.bytes, remaining.value));
    }

    // The answer a valid certificate gives without any work.
    method Certificate(inv: Inventory, scope: Scope) returns (hit: bool)
      requires InventoryOk(inv) && StateOk(durable, inv)
      ensures (forall e :: 0 <= e < |inv| ==> inv[e] != []) && (hit <==> Certified(durable, inv, scope))
      ensures hit ==> AllDone(durable, inv) && CompleteFor(durable, inv, scope)
    {
      ListsOk(durable, inv);
      hit := Certified(durable, inv, scope);
      if hit {
        CertifiedIsComplete(durable, inv, scope);
      }
    }

    // One request. Whatever happens, what is durable stays in order and only grows; the rows
    // reported are the rows folded, and completion is reported exactly when every artifact is
    // applied, each edge then having folded all rows of its inventory, once and in order. How the
    // request is answered, and what is then committed, is determined by the checkpoint before, the
    // inventory, the budget and the environment.
    method Materialize(inv: Inventory, scope: Scope, budget: Budget, spent: nat, env: nat -> Turnout, last: Turnout)
      returns (r: Result<Outcome, Error>)
      requires InventoryOk(inv) && StateOk(durable, inv) && spent <= budget.maxBytes
      modifies this
      ensures StateOk(durable, inv) && LogGrows(old(durable).log, durable.log)
      ensures r.Ok? ==> KeepsTo(r.value, budget) && (r.value.complete <==> AllDone(durable, inv))
      ensures r.Ok? ==> r.value.rows == RowsIn(durable.log, |inv|) - RowsIn(old(durable).log, |inv|)
      ensures r.Ok? && r.value.complete ==> CompleteFor(durable, inv, scope)
      ensures forall e :: 0 <= e < |inv| ==> inv[e] != []
      ensures Answered(inv, scope, Pass(old(durable), Flatten(inv), budget, spent, env), last, durable, r)
    {
      var hit := Certificate(inv, scope);
      FeedGrows(durable.log, []);
      if hit {
        return Ok(Outcome(true, 0, 0, spent, 0));
      }
      var w := Pass(durable, Flatten(inv), budget, spent, env);
      var walked;
      ghost var n;
      walked, n := Walk(inv, w);
      if walked.Err? {
        return Err(walked.error);
      }
      r := Settle(inv, scope, w, n, walked.value, last);
    }

    // Commits the pages that still wait, and concludes the request.
    method Settle(inv: Inventory, scope: Scope, ghost w: Pass, ghost n: nat, k: Work, last: Turnout) returns (r: Result<Outcome, Error>)
      requires InventoryOk(inv) && (forall e :: 0 <= e < |inv| ==> inv[e] != []) && WalkedTo(inv, w, n, durable, k)
      requires RowsIn(Speculative(durable, k).log, |inv|) == RowsIn(w.d.log, |inv|) + k.rows
      requires LogGrows(w.d.log, durable.log) && !Certified(w.d, inv, scope)
      modifies this
      ensures StateOk(durable, inv) && LogGrows(w.d.log, durable.log)
      ensures r.Ok? ==> KeepsTo(r.value, w.budget) && (r.value.complete <==> AllDone(durable, inv))
      ensures r.Ok? ==> r.value.rows == RowsIn(durable.log, |inv|) - RowsIn(w.d.log, |inv|)
      ensures r.Ok? && r.value.complete ==> CompleteFor(durable, inv, scope)
      ensures Answered(inv, scope, w, last, durable, r)
    {
      FeedGrows(durable.log, k.pending);
      LogGrowsTrans(w.d.log, durable.log, Speculative(durable, k).log);
      FlushedTo(inv, w, n, durable, k);
      var ok, _ := Flush(k, last.flush);
      if !ok {
        FlushLost(inv, scope, w, n, SoFar(k), last, old(durable), Speculative(old(durable), k), durable);
        return Err(CommitFailed);
      }
      ghost var s := durable;
      r := Finish(inv, scope, k, last.commit);
      SettledHere(inv, scope, w, n, SoFar(k), s, last, durable, r);
    }
  }
}
