/**
 A consumer view over its whole life: producers commit, and any number of requests capture them
 anew and fail wherever they may (crates/velorix-api/src/demand_materialization_published.rs over
 crates/velorix-api/src/demand_published.rs).
 */
module ChainedViews {
  import opened Wrappers
  import opened Batches
  import opened Staging
  import opened Requests
  import opened Deltas
  import opened Consolidation
  import opened Capture
  import R = Replay
  import W = ConsumerPass
  import C = Consumer

  datatype ServeError = InvalidBudget | Uncaptured(capture: CaptureError) | Unserved(replay: R.Error)

  // A request, the size of the consumer's own checkpoint header, and what the environment does.
  datatype Request = Request(scope: Scope, budget: Budget, header: nat, env: nat -> W.Turnout, last: W.Turnout)

  ghost predicate InputsOk(inputs: seq<EdgeInput>) {
    forall e :: 0 <= e < |inputs| ==> InputOk(inputs[e])
  }

  ghost function InventoryOf(inputs: seq<EdgeInput>): (inv: R.Inventory)
    ensures |inv| == |inputs| && forall e :: 0 <= e < |inputs| ==> inv[e] == EdgeOf(e, inputs[e])
  {
    seq(|inputs|, e requires 0 <= e < |inputs| => EdgeOf(e, inputs[e]))
  }

  lemma CapturedIsInventory(inputs: seq<EdgeInput>)
    requires InputsOk(inputs)
    ensures R.InventoryOk(InventoryOf(inputs))
  {
    forall e | 0 <= e < |inputs| ensures R.ListOk(e, InventoryOf(inputs)[e]) {
      StoredLineage(inputs[e].objects, inputs[e].head, inputs[e].cursor);
      EdgeListOk(inputs[e].objects, e, Lineage(inputs[e].head, inputs[e].cursor), inputs[e].pages);
    }
  }

  // ---------------------------------------------------------------- capture

  // The consumer has gone past the baseline of the edge.
  predicate Applied(d: R.Durable, e: nat, x: EdgeInput) {
    e in d.frontier && d.frontier[e] >= x.cursor.key.epoch
  }

  // The bytes that capturing the first edges reads.
  ghost function CapturedBytes(inputs: seq<EdgeInput>, d: R.Durable, n: nat): nat
    requires n <= |inputs|
  {
    if n == 0 then 0 else CapturedBytes(inputs, d, n - 1) + CaptureBytes(inputs[n - 1], Applied(d, n - 1, inputs[n - 1]))
  }

  ghost predicate ShortLineage(x: EdgeInput) {
    |Lineage(x.head, x.cursor)| <= MAX_LINEAGE
  }

  // No lineage of the first edges is too long, and reading them all after the header fits.
  ghost predicate CapturableTo(inputs: seq<EdgeInput>, d: R.Durable, n: nat, header: nat, maxBytes: nat)
    requires n <= |inputs|
  {
    (forall e :: 0 <= e < n ==> ShortLineage(inputs[e])) && header + CapturedBytes(inputs, d, n) <= maxBytes
  }

  ghost predicate Capturable(inputs: seq<EdgeInput>, d: R.Durable, header: nat, maxBytes: nat) {
    CapturableTo(inputs, d, |inputs|, header, maxBytes)
  }

  lemma {:induction false} CapturableBefore(inputs: seq<EdgeInput>, d: R.Durable, a: nat, b: nat, header: nat, maxBytes: nat)
    requires a <= b <= |inputs| && CapturableTo(inputs, d, b, header, maxBytes)
    ensures CapturableTo(inputs, d, a, header, maxBytes)
    decreases b
  {
    if a < b {
      CapturableBefore(inputs, d, a, b - 1, header, maxBytes);
    }
  }

  lemma CapturableNext(inputs: seq<EdgeInput>, d: R.Durable, n: nat, header: nat, maxBytes: nat)
    requires n < |inputs| && CapturableTo(inputs, d, n, header, maxBytes)
    ensures var fits := ShortLineage(inputs[n])
                        && CaptureBytes(inputs[n], Applied(d, n, inputs[n])) <= maxBytes - (header + CapturedBytes(inputs, d, n));
            if fits then CapturableTo(inputs, d, n + 1, header, maxBytes) else !Capturable(inputs, d, header, maxBytes)
  {
    if Capturable(inputs, d, header, maxBytes) {
      CapturableBefore(inputs, d, n + 1, |inputs|, header, maxBytes);
      assert ShortLineage(inputs[n]);
    }
  }

  lemma InventoryNext(inputs: seq<EdgeInput>, n: nat)
    requires n < |inputs|
    ensures InventoryOf(inputs)[..n + 1] == InventoryOf(inputs)[..n] + [EdgeOf(n, inputs[n])]
  {
  }

  // Reads the consumer's header and captures every edge with what is left of the bytes.
  method CaptureAll(inputs: seq<EdgeInput>, d: R.Durable, header: nat, maxBytes: nat) returns (r: Result<(R.Inventory, nat), CaptureError>)
    requires InputsOk(inputs)
    ensures r.Ok? <==> Capturable(inputs, d, header, maxBytes)
    ensures r.Ok? ==> r.value == (InventoryOf(inputs), header + CapturedBytes(inputs, d, |inputs|))
  {
    if header > maxBytes {
      return Err(OverBudget);
    }
    var inv: R.Inventory, used, e := [], header, 0;
    while e < |inputs|
      invariant 0 <= e <= |inputs| == |InventoryOf(inputs)| && inv == InventoryOf(inputs)[..e]
      invariant used == header + CapturedBytes(inputs, d, e) && CapturableTo(inputs, d, e, header, maxBytes)
    {
      var left: nat := maxBytes - used;
      var list := CaptureInput(e, inputs[e], Applied(d, e, inputs[e]), left);
      CapturableNext(inputs, d, e, header, maxBytes);
      if list.Err? {
        return Err(list.error);
      }
      InventoryNext(inputs, e);
      inv, used := inv + [list.value.0], used + list.value.1;
      e := e + 1;
    }
    assert InventoryOf(inputs)[..e] == InventoryOf(inputs);
    r := Ok((inv, used));
  }

  // ---------------------------------------------------------------- what a complete consumer holds

  // Each edge's producer was built by these units, at its head and at the edge's cursor, and the
  // pages of the baseline are what the producer's runtime had emitted at the cursor.
  ghost predicate EmittedOk(inputs: seq<EdgeInput>, emitted: seq<seq<seq<Row>>>, baselines: seq<seq<seq<Row>>>) {
    && |emitted| == |inputs| == |baselines|
    && forall e :: 0 <= e < |inputs| ==>
         && BuiltBy(Some(inputs[e].head), emitted[e]) && BuiltBy(Some(inputs[e].cursor), baselines[e])
         && PagesAre(e, inputs[e].cursor, inputs[e].pages, baselines[e])
  }

  // The rows folded on each edge are everything its producer's runtime has emitted but what is
  // still pending there; at a commit that is everything.
  ghost predicate HoldsOutputs(d: R.Durable, inputs: seq<EdgeInput>, emitted: seq<seq<seq<Row>>>)
    requires |emitted| == |inputs|
  {
    forall e, pair :: 0 <= e < |inputs| ==>
      && Weight(R.LogOf(d.log, e), pair) + Weight(Pending(Some(inputs[e].head)), pair) == Output(emitted[e], pair)
      && (Published(inputs[e].head) ==> Weight(R.LogOf(d.log, e), pair) == Output(emitted[e], pair))
  }

  lemma CompleteHoldsOutputs(d: R.Durable, inputs: seq<EdgeInput>, emitted: seq<seq<seq<Row>>>, baselines: seq<seq<seq<Row>>>)
    requires InputsOk(inputs) && C.Complete(d, InventoryOf(inputs)) && EmittedOk(inputs, emitted, baselines)
    ensures HoldsOutputs(d, inputs, emitted)
  {
    forall e, pair | 0 <= e < |inputs|
      ensures Weight(R.LogOf(d.log, e), pair) + Weight(Pending(Some(inputs[e].head)), pair) == Output(emitted[e], pair)
      ensures Published(inputs[e].head) ==> Weight(R.LogOf(d.log, e), pair) == Output(emitted[e], pair)
    {
      assert R.LogOf(d.log, e) == R.AllRows(InventoryOf(inputs)[e]);
      ChainedView(e, inputs[e], baselines[e], emitted[e], pair);
    }
  }

  // ---------------------------------------------------------------- one request

  // The pass of a request over what it captured, and the bytes the capture took.
  ghost function PassOf(inputs: seq<EdgeInput>, q: Request, d: R.Durable): W.Pass {
    W.Pass(d, Flatten(InventoryOf(inputs)), q.budget, q.header + CapturedBytes(inputs, d, |inputs|), q.env)
  }

  // The answer of the replay, as the request reports it.
  function Report(r: Result<Outcome, R.Error>): Result<Outcome, ServeError> {
    if r.Err? then Err(Unserved(r.error)) else Ok(r.value)
  }

  // How a request is answered, and the checkpoint it leaves: it asks for nothing, cannot capture its
  // inputs, or is answered by the replay.
  ghost predicate Served(inputs: seq<EdgeInput>, q: Request, before: R.Durable, after: R.Durable, r: Result<Outcome, ServeError>) {
    if !Positive(q.budget) then r == Err(InvalidBudget) && after == before
    else if !Capturable(inputs, before, q.header, q.budget.maxBytes) then r.Err? && r.error.Uncaptured? && after == before
    else
      && (forall e :: 0 <= e < |inputs| ==> InventoryOf(inputs)[e] != [])
      && exists served :: r == Report(served) && C.Answered(InventoryOf(inputs), q.scope, PassOf(inputs, q, before), q.last, after, served)
  }

  method ServeOne(view: C.ConsumerView, inputs: seq<EdgeInput>, q: Request) returns (r: Result<Outcome, ServeError>)
    requires InputsOk(inputs) && R.StateOk(view.durable, InventoryOf(inputs))
    modifies view
    ensures R.StateOk(view.durable, InventoryOf(inputs)) && C.LogGrows(old(view.durable).log, view.durable.log)
    ensures r.Ok? ==> KeepsTo(r.value, q.budget)
    ensures r.Ok? ==> r.value.rows == C.RowsIn(view.durable.log, |inputs|) - C.RowsIn(old(view.durable).log, |inputs|)
    ensures r.Ok? && r.value.complete ==> C.CompleteFor(view.durable, InventoryOf(inputs), q.scope)
    ensures Served(inputs, q, old(view.durable), view.durable, r)
  {
    C.FeedGrows(view.durable.log, []);
    if !Positive(q.budget) {
      return Err(InvalidBudget);
    }
    var captured := CaptureAll(inputs, view.durable, q.header, q.budget.maxBytes);
    if captured.Err? {
      return Err(Uncaptured(captured.error));
    }
    CapturedIsInventory(inputs);
    r := ServeCaptured(view, inputs, q, captured.value.0, captured.value.1);
  }

  // The replay of what a request has captured.
  method ServeCaptured(view: C.ConsumerView, ghost inputs: seq<EdgeInput>, q: Request, inv: R.Inventory, spent: nat)
    returns (r: Result<Outcome, ServeError>)
    requires inv == InventoryOf(inputs) && R.InventoryOk(inv) && R.StateOk(view.durable, inv)
    requires Positive(q.budget) && Capturable(inputs, view.durable, q.header, q.budget.maxBytes)
    requires spent == q.header + CapturedBytes(inputs, view.durable, |inputs|)
    modifies view
    ensures R.StateOk(view.durable, inv) && C.LogGrows(old(view.durable).log, view.durable.log)
    ensures r.Ok? ==> KeepsTo(r.value, q.budget)
    ensures r.Ok? ==> r.value.rows == C.RowsIn(view.durable.log, |inputs|) - C.RowsIn(old(view.durable).log, |inputs|)
    ensures r.Ok? && r.value.complete ==> C.CompleteFor(view.durable, inv, q.scope)
    ensures Served(inputs, q, old(view.durable), view.durable, r)
  {
    var served := view.Materialize(inv, q.scope, q.budget, spent, q.env, q.last);
    PassIs(inputs, q, old(view.durable), inv, spent);
    ServedHere(inputs, q, inv, W.Pass(old(view.durable), Flatten(inv), q.budget, spent, q.env), view.durable, served);
    r := Report(served);
  }

  lemma PassIs(inputs: seq<EdgeInput>, q: Request, d: R.Durable, inv: R.Inventory, spent: nat)
    requires inv == InventoryOf(inputs) && spent == q.header + CapturedBytes(inputs, d, |inputs|)
    ensures W.Pass(d, Flatten(inv), q.budget, spent, q.env) == PassOf(inputs, q, d)
  {
  }

  lemma ServedHere(inputs: seq<EdgeInput>, q: Request, inv: R.Inventory, w: W.Pass, after: R.Durable, served: Result<Outcome, R.Error>)
    requires Positive(q.budget) && Capturable(inputs, w.d, q.header, q.budget.maxBytes)
    requires inv == InventoryOf(inputs) && (forall e :: 0 <= e < |inv| ==> inv[e] != []) && w == PassOf(inputs, q, w.d)
    requires C.Answered(inv, q.scope, w, q.last, after, served)
    ensures Served(inputs, q, w.d, after, Report(served))
  {
  }

  // ---------------------------------------------------------------- the certificate preflight

  // The epoch of a producer's last commit, found from its head within the hop bound.
  method LastCommit(x: EdgeInput) returns (r: Option<nat>)
    requires InputOk(x)
    ensures r.Some? <==> Length(Some(x.head)) <= MAX_LINEAGE
    ensures LastPublished(Some(x.head)).Some? && (r.Some? ==> r.value == LastPublished(Some(x.head)).value.key.epoch)
  {
    var at, hops := x.head, 0;
    while true
      invariant hops <= MAX_LINEAGE && hops + Length(Some(at)) == Length(Some(x.head))
      invariant LastPublished(Some(at)) == LastPublished(Some(x.head))
      invariant Stored(x.objects, Some(at)) && ComesFrom(at, x.cursor)
      decreases at
    {
      CursorIsOlder(x.objects, at, x.cursor);
      hops := hops + 1;
      if hops > MAX_LINEAGE {
        CommitExists(at, x.cursor);
        return None;
      }
      if at.progress.complete {
        return Some(at.key.epoch);
      }
      CursorIsOlder(x.objects, at.previous.value, x.cursor);
      at := at.previous.value;
    }
  }

  lemma {:induction false} CommitExists(at: Checkpoint, cursor: Checkpoint)
    requires ComesFrom(at, cursor) && Published(cursor)
    ensures LastPublished(Some(at)).Some? && Length(Some(at)) > 0
    decreases at
  {
    if at != cursor && !Published(at) {
      CommitExists(at.previous.value, cursor);
    }
  }

  // The way from each head to its last commit is within the bound.
  ghost predicate Near(inputs: seq<EdgeInput>) {
    forall e :: 0 <= e < |inputs| ==> Length(Some(inputs[e].head)) <= MAX_LINEAGE
  }

  lemma HeadsAreCommits(inputs: seq<EdgeInput>)
    requires InputsOk(inputs)
    ensures forall e :: 0 <= e < |inputs| ==>
      && InventoryOf(inputs)[e] != [] && LastPublished(Some(inputs[e].head)).Some?
      && R.HeadEpoch(InventoryOf(inputs)[e]) == LastPublished(Some(inputs[e].head)).value.key.epoch
  {
    forall e | 0 <= e < |inputs|
      ensures InventoryOf(inputs)[e] != [] && LastPublished(Some(inputs[e].head)).Some?
      ensures R.HeadEpoch(InventoryOf(inputs)[e]) == LastPublished(Some(inputs[e].head)).value.key.epoch
    {
      HeadIsLastCommit(inputs[e].objects, e, inputs[e].head, inputs[e].cursor, inputs[e].pages);
    }
  }

  ghost predicate HeadsTo(inv: R.Inventory, n: nat, heads: map<nat, nat>)
    requires n <= |inv| && forall e :: 0 <= e < |inv| ==> inv[e] != []
  {
    forall e: nat :: (e in heads <==> e < n) && (e < n ==> heads[e] == R.HeadEpoch(inv[e]))
  }

  lemma HeadsNext(inv: R.Inventory, n: nat, heads: map<nat, nat>)
    requires n < |inv| && (forall e :: 0 <= e < |inv| ==> inv[e] != []) && HeadsTo(inv, n, heads)
    ensures HeadsTo(inv, n + 1, heads[n := R.HeadEpoch(inv[n])])
  {
  }

  lemma HeadsAll(inv: R.Inventory, heads: map<nat, nat>)
    requires (forall e :: 0 <= e < |inv| ==> inv[e] != []) && HeadsTo(inv, |inv|, heads)
    ensures heads == R.Heads(inv)
  {
  }

  method HeadsOf(inputs: seq<EdgeInput>) returns (r: Option<map<nat, nat>>)
    requires InputsOk(inputs)
    ensures forall e :: 0 <= e < |inputs| ==> InventoryOf(inputs)[e] != []
    ensures r.Some? <==> Near(inputs)
    ensures r.Some? ==> r.value == R.Heads(InventoryOf(inputs))
  {
    HeadsAreCommits(inputs);
    var heads: map<nat, nat>, e: nat := map[], 0;
    while e < |inputs|
      invariant 0 <= e <= |inputs| && HeadsTo(InventoryOf(inputs), e, heads)
      invariant forall f :: 0 <= f < e ==> Length(Some(inputs[f].head)) <= MAX_LINEAGE
    {
      var epoch := LastCommit(inputs[e]);
      if epoch.None? {
        return None;
      }
      HeadsNext(InventoryOf(inputs), e, heads);
      heads := heads[e := epoch.value];
      e := e + 1;
    }
    HeadsAll(InventoryOf(inputs), heads);
    r := Some(heads);
  }

  // The fast path: metadata only, no capture. What it checks besides the certificate never
  // refuses one.
  method Preflight(view: C.ConsumerView, inputs: seq<EdgeInput>, scope: Scope) returns (hit: bool)
    requires InputsOk(inputs) && R.StateOk(view.durable, InventoryOf(inputs))
    ensures (forall e :: 0 <= e < |inputs| ==> InventoryOf(inputs)[e] != [])
    ensures hit <==> Near(inputs) && C.Certified(view.durable, InventoryOf(inputs), scope)
    ensures hit ==> C.CompleteFor(view.durable, InventoryOf(inputs), scope)
  {
    var d := view.durable;
    var heads := HeadsOf(inputs);
    if heads.None? || scope !in d.certs || d.certs[scope] != heads.value {
      return false;
    }
    CapturedIsInventory(inputs);
    C.CertifiedIsComplete(d, InventoryOf(inputs), scope);
    var reached, e := d.complete, 0;
    while e < |inputs|
      invariant 0 <= e <= |inputs| && reached
    {
      reached := reached && e in d.frontier && d.frontier[e] >= heads.value[e];
      e := e + 1;
    }
    return reached;
  }

  // ---------------------------------------------------------------- a whole life

  // A producer as its store holds it.
  datatype Upstream = Upstream(objects: Objects, head: Checkpoint)

  type Upstreams = map<nat, Upstream>

  // What the runtime of each producer has emitted.
  type History = map<nat, seq<seq<Row>>>

  // An input edge of the consumer: its producer, the bootstrap cursor, and the baseline there.
  datatype Wire = Wire(producer: nat, cursor: Checkpoint, pages: seq<Snapshot>, manifest: nat)

  // A unit that the runtime of a producer emits, with the sizes and limits of its commit.
  datatype Emission = Emission(unit: Unit, deltaBytes: nat, headerBytes: nat, limits: Limits)

  // A producer commits a unit, or the consumer is asked.
  datatype Action =
    | Emit(producer: nat, emission: Emission)
    | Ask(request: Request)

  // Producers hold what their runtimes have emitted, and each edge's cursor is a commit of its
  // producer.
  ghost predicate Wired(ups: Upstreams, emitted: History, wires: seq<Wire>) {
    && LineagesOk(ups, emitted)
    && (forall e :: 0 <= e < |wires| ==>
          wires[e].producer in ups && Published(wires[e].cursor) && ComesFrom(ups[wires[e].producer].head, wires[e].cursor))
  }

  ghost predicate UpstreamOk(u: Upstream, emitted: seq<seq<Row>>) {
    BuiltBy(Some(u.head), emitted) && Stored(u.objects, Some(u.head))
  }

  function InputsOf(ups: Upstreams, wires: seq<Wire>): (inputs: seq<EdgeInput>)
    requires forall e :: 0 <= e < |wires| ==> wires[e].producer in ups
    ensures |inputs| == |wires| && forall e :: 0 <= e < |wires| ==> inputs[e] == InputOf(ups[wires[e].producer], wires[e])
  {
    seq(|wires|, e requires 0 <= e < |wires| => InputOf(ups[wires[e].producer], wires[e]))
  }

  function InputOf(u: Upstream, w: Wire): EdgeInput {
    EdgeInput(u.objects, u.head, w.cursor, w.pages, w.manifest)
  }

  // What the producer of each edge has emitted.
  ghost function EmittedOf(emitted: History, wires: seq<Wire>): (es: seq<seq<seq<Row>>>)
    requires forall e :: 0 <= e < |wires| ==> wires[e].producer in emitted
    ensures |es| == |wires| && forall e :: 0 <= e < |wires| ==> es[e] == emitted[wires[e].producer]
  {
    seq(|wires|, e requires 0 <= e < |wires| => emitted[wires[e].producer])
  }

  // The pages of each baseline are what its producer's runtime had emitted at the cursor.
  ghost predicate BaselinesAre(wires: seq<Wire>, baselines: seq<seq<seq<Row>>>) {
    |baselines| == |wires| && forall e :: 0 <= e < |wires| ==>
      BuiltBy(Some(wires[e].cursor), baselines[e]) && PagesAre(e, wires[e].cursor, wires[e].pages, baselines[e])
  }

  ghost predicate AllGoOn(a: seq<EdgeInput>, b: seq<EdgeInput>) {
    |a| == |b| && forall e :: 0 <= e < |a| ==> GoesOn(a[e], b[e])
  }

  lemma WiredInputs(ups: Upstreams, emitted: History, wires: seq<Wire>)
    requires Wired(ups, emitted, wires)
    ensures InputsOk(InputsOf(ups, wires))
  {
    forall e | 0 <= e < |wires| ensures InputOk(InputsOf(ups, wires)[e]) {
      assert UpstreamOk(ups[wires[e].producer], emitted[wires[e].producer]);
    }
  }

  lemma WiredEmitted(ups: Upstreams, emitted: History, wires: seq<Wire>, baselines: seq<seq<seq<Row>>>)
    requires Wired(ups, emitted, wires) && BaselinesAre(wires, baselines)
    ensures EmittedOk(InputsOf(ups, wires), EmittedOf(emitted, wires), baselines)
  {
    forall e | 0 <= e < |wires| ensures BuiltBy(Some(InputsOf(ups, wires)[e].head), EmittedOf(emitted, wires)[e]) {
      assert UpstreamOk(ups[wires[e].producer], emitted[wires[e].producer]);
    }
  }

  // What was applied stands when the producers have gone on.
  lemma NextInventory(d: R.Durable, a: seq<EdgeInput>, b: seq<EdgeInput>)
    requires InputsOk(a) && InputsOk(b) && AllGoOn(a, b) && R.StateOk(d, InventoryOf(a))
    ensures R.StateOk(d, InventoryOf(b))
  {
    CapturedIsInventory(a);
    CapturedIsInventory(b);
    forall e | 0 <= e < |a| ensures R.ListMovedOn(InventoryOf(a)[e], InventoryOf(b)[e]) {
      InputMovesOn(e, a[e], b[e]);
    }
    R.MovedOnKeeps(d, InventoryOf(a), InventoryOf(b));
  }

  // A consumer that has not started stands well before any inventory.
  lemma NothingApplied(inv: R.Inventory)
    ensures R.StateOk(R.NOTHING, inv)
  {
    forall e | 0 <= e < |inv| ensures R.EdgeOk(R.NOTHING, e, inv[e]) {
      UntouchedEdge(R.NOTHING, e, inv[e]);
    }
    assert forall a: R.Artifact :: !R.Touched(R.NOTHING, a);
  }

  lemma UntouchedEdge(d: R.Durable, e: nat, list: seq<R.Artifact>)
    requires |d.entries| == 0 && |d.log| == 0 && |d.frontier| == 0
    ensures R.EdgeOk(d, e, list)
  {
    forall i | 0 <= i < |list| ensures !R.Touched(d, list[i]) && R.Count(d, list[i]) == 0 && R.ArtifactOk(d, list[i]) {
    }
    R.TakenAppend(d, [], list);
    assert [] + list == list;
  }

  // A lineage has gone on: objects were added, and the old head is in it.
  ghost predicate Later(a: Upstream, b: Upstream) {
    Grows(a.objects, b.objects) && ComesFrom(b.head, a.head)
  }

  ghost predicate AllLater(ups: Upstreams, ups': Upstreams) {
    forall p :: p in ups ==> p in ups' && Later(ups[p], ups'[p])
  }

  // Every lineage holds what its producer's runtime has emitted.
  ghost predicate LineagesOk(ups: Upstreams, emitted: History) {
    emitted.Keys == ups.Keys && forall i :: i in ups ==> UpstreamOk(ups[i], emitted[i])
  }

  // A producer commits a unit; what it has emitted goes on from what it had.
  method EmitOne(u: Upstream, emitted: seq<seq<Row>>, unit: Unit, deltaBytes: nat, headerBytes: nat, limits: Limits)
    returns (after: Upstream, more: seq<seq<Row>>)
    requires UpstreamOk(u, emitted)
    ensures UpstreamOk(after, more) && Later(u, after)
    ensures after.head == u.head || after.head.previous == Some(u.head)
    ensures if after.head == u.head then more == emitted else more == emitted + [unit.rows]
  {
    var producer := new Producer.At(u.objects, Some(u.head));
    producer.emitted := emitted;
    var _ := producer.Commit(unit, deltaBytes, headerBytes, limits);
    after := Upstream(producer.objects, producer.head.value);
    more := if after.head == u.head then emitted else emitted + [unit.rows];
  }

  // A producer that has published nothing yet commits its first unit.
  method EmitFirst(unit: Unit, deltaBytes: nat, headerBytes: nat, limits: Limits) returns (after: Option<Upstream>)
    ensures after.Some? ==> UpstreamOk(after.value, [unit.rows])
  {
    var producer := new Producer();
    var _ := producer.Commit(unit, deltaBytes, headerBytes, limits);
    assert [] + [unit.rows] == [unit.rows];
    after := if producer.head.None? then None else Some(Upstream(producer.objects, producer.head.value));
  }

  // Nothing but one lineage has changed, and it has gone on.
  ghost predicate OnlyLineage(p: nat, ups: Upstreams, ups': Upstreams, emitted: History, emitted': History) {
    && LineagesOk(ups, emitted) && LineagesOk(ups', emitted')
    && SameBut(p, ups, ups') && SameBut(p, emitted, emitted')
    && (p in ups ==> p in ups' && Later(ups[p], ups'[p]))
  }

  // Two maps agree but for one key.
  ghost predicate SameBut<K, T>(k: K, m: map<K, T>, m': map<K, T>) {
    if k in m' then m' == m[k := m'[k]] else m' == m
  }

  // The runtime of a producer emits a unit, which is committed to its lineage or refused.
  method EmitUnit(p: nat, ups: Upstreams, emitted: History, x: Emission) returns (ups': Upstreams, emitted': History)
    requires LineagesOk(ups, emitted)
    ensures OnlyLineage(p, ups, ups', emitted, emitted')
  {
    ups', emitted' := ups, emitted;
    if p in ups {
      var u, more := EmitOne(ups[p], emitted[p], x.unit, x.deltaBytes, x.headerBytes, x.limits);
      ups', emitted' := ups[p := u], emitted[p := more];
    } else {
      var u := EmitFirst(x.unit, x.deltaBytes, x.headerBytes, x.limits);
      if u.Some? {
        ups', emitted' := ups[p := u.value], emitted[p := [x.unit.rows]];
      }
    }
  }

  method EmitAll(p: nat, ups: Upstreams, emitted: History, xs: seq<Emission>) returns (ups': Upstreams, emitted': History)
    requires LineagesOk(ups, emitted)
    ensures OnlyLineage(p, ups, ups', emitted, emitted')
  {
    ups', emitted' := ups, emitted;
    var i := 0;
    while i < |xs|
      invariant 0 <= i <= |xs| && OnlyLineage(p, ups, ups', emitted, emitted')
    {
      var next, more := EmitUnit(p, ups', emitted', xs[i]);
      OnlyTrans(p, ups, ups', next, emitted, emitted', more);
      ups', emitted', i := next, more, i + 1;
    }
  }

  lemma SameTrans<K, T>(k: K, a: map<K, T>, b: map<K, T>, c: map<K, T>)
    requires SameBut(k, a, b) && SameBut(k, b, c) && (k in b ==> k in c)
    ensures SameBut(k, a, c)
  {
  }

  lemma OnlyTrans(p: nat, a: Upstreams, b: Upstreams, c: Upstreams, ea: History, eb: History, ec: History)
    requires OnlyLineage(p, a, b, ea, eb) && OnlyLineage(p, b, c, eb, ec)
    ensures OnlyLineage(p, a, c, ea, ec)
  {
    SameTrans(p, a, b, c);
    SameTrans(p, ea, eb, ec);
    if p in a {
      LaterTrans(a[p], b[p], c[p], ec[p]);
    }
  }

  lemma LaterTrans(a: Upstream, b: Upstream, c: Upstream, emitted: seq<seq<Row>>)
    requires Later(a, b) && Later(b, c) && UpstreamOk(c, emitted)
    ensures Later(a, c)
  {
    LineageGoesOn(c.objects, c.head, b.head, a.head);
  }

  lemma OnlyLater(p: nat, ups: Upstreams, ups': Upstreams, emitted: History, emitted': History)
    requires OnlyLineage(p, ups, ups', emitted, emitted')
    ensures AllLater(ups, ups')
  {
    forall q | q in ups ensures q in ups' && Later(ups[q], ups'[q]) {
    }
  }

  lemma WiresGoOn(ups: Upstreams, emitted: History, ups': Upstreams, emitted': History, wires: seq<Wire>)
    requires Wired(ups, emitted, wires) && LineagesOk(ups', emitted') && AllLater(ups, ups')
    ensures Wired(ups', emitted', wires) && AllGoOn(InputsOf(ups, wires), InputsOf(ups', wires))
  {
    forall e | 0 <= e < |wires|
      ensures wires[e].producer in ups' && ComesFrom(ups'[wires[e].producer].head, wires[e].cursor)
      ensures GoesOn(InputOf(ups[wires[e].producer], wires[e]), InputOf(ups'[wires[e].producer], wires[e]))
    {
      var p := wires[e].producer;
      assert UpstreamOk(ups'[p], emitted'[p]);
      LineageGoesOn(ups'[p].objects, ups'[p].head, ups[p].head, wires[e].cursor);
    }
  }

  // Commits of producers leave what a consumer has applied a prefix.
  lemma EmitKeeps(ups: Upstreams, emitted: History, ups': Upstreams, emitted': History, wires: seq<Wire>, d: R.Durable)
    requires Wired(ups, emitted, wires) && LineagesOk(ups', emitted') && AllLater(ups, ups')
    requires R.StateOk(d, InventoryOf(InputsOf(ups, wires)))
    ensures Wired(ups', emitted', wires) && R.StateOk(d, InventoryOf(InputsOf(ups', wires)))
  {
    WiresGoOn(ups, emitted, ups', emitted', wires);
    WiredInputs(ups, emitted, wires);
    WiredInputs(ups', emitted', wires);
    NextInventory(d, InputsOf(ups, wires), InputsOf(ups', wires));
  }

  // One request of a consumer restored from its checkpoint.
  method AskOne(d: R.Durable, ups: Upstreams, ghost emitted: History, wires: seq<Wire>, ghost baselines: seq<seq<seq<Row>>>,
                q: Request) returns (r: Result<Outcome, ServeError>, after: R.Durable)
    requires Wired(ups, emitted, wires) && BaselinesAre(wires, baselines) && R.StateOk(d, InventoryOf(InputsOf(ups, wires)))
    ensures R.StateOk(after, InventoryOf(InputsOf(ups, wires))) && C.LogGrows(d.log, after.log)
    ensures r.Ok? ==> KeepsTo(r.value, q.budget)
    ensures r.Ok? && r.value.complete ==> HoldsOutputs(after, InputsOf(ups, wires), EmittedOf(emitted, wires))
  {
    WiredInputs(ups, emitted, wires);
    var inputs := InputsOf(ups, wires);
    var view := new C.ConsumerView.At(d);
    r := ServeOne(view, inputs, q);
    after := view.durable;
    if r.Ok? && r.value.complete {
      WiredEmitted(ups, emitted, wires, baselines);
      CompleteHoldsOutputs(after, inputs, EmittedOf(emitted, wires), baselines);
    }
  }

  ghost predicate Answered(r: Option<Result<Outcome, ServeError>>) {
    r.Some? && r.value.Ok? && r.value.value.complete
  }

  // One action. A commit of a producer leaves what the consumer has applied a prefix.
  method Act(ups: Upstreams, emitted: History, wires: seq<Wire>, ghost baselines: seq<seq<seq<Row>>>, d: R.Durable,
             action: Action)
    returns (answer: Option<Result<Outcome, ServeError>>, ups': Upstreams, emitted': History, d': R.Durable)
    requires Wired(ups, emitted, wires) && BaselinesAre(wires, baselines) && R.StateOk(d, InventoryOf(InputsOf(ups, wires)))
    ensures Wired(ups', emitted', wires) && R.StateOk(d', InventoryOf(InputsOf(ups', wires)))
    ensures C.LogGrows(d.log, d'.log)
    ensures Answered(answer) ==> HoldsOutputs(d', InputsOf(ups', wires), EmittedOf(emitted', wires))
  {
    answer, ups', emitted', d' := None, ups, emitted, d;
    match action
    case Emit(p, x) =>
      ups', emitted' := EmitUnit(p, ups, emitted, x);
      OnlyLater(p, ups, ups', emitted, emitted');
      EmitKeeps(ups, emitted, ups', emitted', wires, d);
      C.FeedGrows(d.log, []);
    case Ask(q) =>
      var r;
      r, d' := AskOne(d, ups, emitted, wires, baselines, q);
      answer := Some(r);
  }

  // Producers commit and the consumer is asked, in any order, with failures anywhere. After every
  // action each edge has a prefix of its producer applied, and a request that completes leaves
  // the consumer with all that the runtimes of its producers have emitted and committed.
  method Live(start: Upstreams, emitted: History, wires: seq<Wire>, ghost baselines: seq<seq<seq<Row>>>,
              actions: seq<Action>)
    returns (answers: seq<Option<Result<Outcome, ServeError>>>, ups: Upstreams, more: History, d: R.Durable)
    requires Wired(start, emitted, wires) && BaselinesAre(wires, baselines)
    ensures |answers| == |actions| && Wired(ups, more, wires) && R.StateOk(d, InventoryOf(InputsOf(ups, wires)))
    ensures actions != [] && Answered(answers[|actions| - 1]) ==> HoldsOutputs(d, InputsOf(ups, wires), EmittedOf(more, wires))
  {
    answers, ups, more, d := [], start, emitted, R.NOTHING;
    NothingApplied(InventoryOf(InputsOf(ups, wires)));
    var answer := None;
    while |answers| < |actions|
      invariant |answers| <= |actions| && Wired(ups, more, wires)
      invariant R.StateOk(d, InventoryOf(InputsOf(ups, wires)))
      invariant |answers| > 0 ==> answers[|answers| - 1] == answer
      invariant Answered(answer) ==> HoldsOutputs(d, InputsOf(ups, wires), EmittedOf(more, wires))
    {
      answer, ups, more, d := Act(ups, more, wires, baselines, d, actions[|answers|]);
      answers := answers + [answer];
    }
  }
}
