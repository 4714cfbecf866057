/**
 One demand over a whole dependency closure, under one shared budget
 (`materialize_demand_with_snapshot_inner` and `materialize_demand_step_inner` in
 crates/velorix-api/src/demand_materialization.rs).
 */
module DemandClosure {
  import opened Wrappers
  import opened Staging
  import opened Requests
  import opened Dependencies
  import opened ClosureRuns
  import opened Deltas
  import P = Preflight
  import S = SourceDemand
  import R = Replay
  import W = ConsumerPass
  import C = Consumer
  import V = ChainedViews
  import opened Coverage

  // What a view is computed from, and what the environment does to its step. The wires of a
  // consumer say which lineage each of its inputs reads; `baselines` is what had been emitted there.
  datatype Backing =
    | OverSource(view: S.View, source: Source, cut: S.Cut, turns: S.Turnout)
    | OverViews(wires: seq<V.Wire>, baselines: seq<seq<seq<Row>>>, header: nat, env: nat -> W.Turnout, last: W.Turnout)

  // What is durable of a view's own progress.
  datatype State = SourceState(head: Option<P.Header>) | ConsumerState(durable: R.Durable)

  // The views' progress, the lineages they have published, and what their runtimes have emitted.
  datatype World = World(states: map<ViewId, State>, ups: V.Upstreams, emitted: V.History)

  datatype StepError = SourceFailed(source: S.SourceError) | ConsumerFailed(consumer: V.ServeError)

  ghost predicate ViewSound(b: Backing, s: State, ups: V.Upstreams, emitted: V.History) {
    match b
    case OverSource(view, source, cut, turns) =>
      s.SourceState? && S.CutOk(source, cut) && S.HeadOk(view.plan, source, cut.ends, s.head) && |turns.stops| == |cut.captured|
    case OverViews(wires, baselines, _, _, _) =>
      && s.ConsumerState? && V.Wired(ups, emitted, wires) && V.BaselinesAre(wires, baselines)
      && R.StateOk(s.durable, V.InventoryOf(V.InputsOf(ups, wires)))
  }

  // What the views demand of their progress and of the lineages.
  ghost function DemandsOf(views: map<ViewId, Backing>): (ViewId, State, V.Upstreams, V.History) -> bool {
    (v: ViewId, s: State, ups: V.Upstreams, emitted: V.History) => v in views && ViewSound(views[v], s, ups, emitted)
  }

  ghost predicate Sound(views: map<ViewId, Backing>, w: World) {
    && V.LineagesOk(w.ups, w.emitted) && w.states.Keys == views.Keys
    && forall v :: v in w.states ==> DemandsOf(views)(v, w.states[v], w.ups, w.emitted)
  }

  // The view has everything its inputs hold for the scope: what the preflight of a source view
  // demands, or the whole inventory of a consumer and its certificate.
  ghost predicate Complete(b: Backing, s: State, ups: V.Upstreams, scope: Scope) {
    match b
    case OverSource(view, _, cut, _) =>
      s.SourceState? && P.CompleteDemand(S.SnapshotOf(s.head, cut), S.RequestOf(view, scope))
    case OverViews(wires, _, _, _, _) =>
      && s.ConsumerState? && (forall e :: 0 <= e < |wires| ==> wires[e].producer in ups)
      && C.CompleteFor(s.durable, V.InventoryOf(V.InputsOf(ups, wires)), scope)
  }

  // What that means in rows: a source view has folded every row of its cut that may match, once;
  // a consumer has folded everything that the runtimes of its producers have emitted and committed.
  ghost predicate Holds(b: Backing, s: State, ups: V.Upstreams, emitted: V.History, scope: Scope) {
    match b
    case OverSource(view, source, _, _) =>
      && s.SourceState?
      && forall k, o: nat :: k in source && o < source[k].len && May(view.plan, ScanScope(view.plan, scope), RowId(k, o)) ==>
           S.StateOf(s.head)[RowId(k, o)] == 1
    case OverViews(wires, _, _, _, _) =>
      && s.ConsumerState? && V.Wired(ups, emitted, wires)
      && V.HoldsOutputs(s.durable, V.InputsOf(ups, wires), V.EmittedOf(emitted, wires))
  }

  lemma CompleteHolds(b: Backing, s: State, ups: V.Upstreams, emitted: V.History, scope: Scope)
    requires ViewSound(b, s, ups, emitted) && Complete(b, s, ups, scope)
    ensures Holds(b, s, ups, emitted, scope)
  {
    match b
    case OverSource(view, source, cut, turns) =>
      forall k, o: nat | k in source && o < source[k].len && May(view.plan, ScanScope(view.plan, scope), RowId(k, o))
        ensures S.StateOf(s.head)[RowId(k, o)] == 1
      {
        S.CompleteIsFolded(view, source, cut, scope, s.head, k, o);
      }
    case OverViews(wires, baselines, _, _, _) =>
      V.WiredInputs(ups, emitted, wires);
      V.WiredEmitted(ups, emitted, wires, baselines);
      V.CompleteHoldsOutputs(s.durable, V.InputsOf(ups, wires), V.EmittedOf(emitted, wires), baselines);
  }

  // ---------------------------------------------------------------- one view

  // The metadata-only answer. A hit is never wrong, and a complete source view is always hit.
  method Preflight(b: Backing, s: State, ups: V.Upstreams, ghost emitted: V.History, scope: Scope) returns (hit: bool)
    requires ViewSound(b, s, ups, emitted)
    ensures hit ==> Complete(b, s, ups, scope)
    ensures Complete(b, s, ups, scope) && (b.OverViews? ==> V.Near(V.InputsOf(ups, b.wires))) ==> hit
  {
    if b.OverSource? {
      S.HeadSnapshot(b.view.plan, b.source, b.cut, s.head);
      hit := P.FreshCompletePreflight(b.source, S.SnapshotOf(s.head, b.cut), S.RequestOf(b.view, scope));
    } else {
      V.WiredInputs(ups, emitted, b.wires);
      var resident := new C.ConsumerView.At(s.durable);
      hit := V.Preflight(resident, V.InputsOf(ups, b.wires), scope);
    }
  }

  // How a step is answered, and the progress it leaves.
  ghost predicate Answered(b: Backing, ups: V.Upstreams, s: State, s': State, scope: Scope, order: Order, budget: Budget,
                           r: Result<Outcome, StepError>) {
    match b
    case OverSource(view, source, cut, turns) =>
      && s.SourceState? && s'.SourceState? && (r.Err? ==> r.error.SourceFailed?)
      && S.Answered(view, source, cut, S.Call(scope, order, budget, turns), s.head, s'.head,
                    if r.Ok? then Ok(r.value) else Err(r.error.source))
    case OverViews(wires, _, header, env, last) =>
      && s.ConsumerState? && s'.ConsumerState? && (r.Err? ==> r.error.ConsumerFailed?)
      && (forall e :: 0 <= e < |wires| ==> wires[e].producer in ups)
      && V.Served(V.InputsOf(ups, wires), V.Request(scope, budget, header, env, last), s.durable, s'.durable,
                  if r.Ok? then Ok(r.value) else Err(r.error.consumer))
  }

  // One step on a view. It keeps to the budget it is handed, leaves the view sound whatever
  // happens, and reports completion only for a complete view.
  method Step(b: Backing, s: State, ups: V.Upstreams, ghost emitted: V.History, scope: Scope, order: Order, budget: Budget)
    returns (r: Result<Outcome, StepError>, s': State)
    requires ViewSound(b, s, ups, emitted)
    ensures ViewSound(b, s', ups, emitted)
    ensures r.Ok? ==> KeepsTo(r.value, budget)
    ensures r.Ok? && r.value.complete ==> Complete(b, s', ups, scope)
    ensures Answered(b, ups, s, s', scope, order, budget, r)
  {
    if b.OverSource? {
      var resident := new S.SourceView.At(s.head);
      var call := S.Call(scope, order, budget, b.turns);
      var outcome := resident.Materialize(b.view, b.source, b.cut, call);
      S.AnsweredKeeps(b.view, b.source, b.cut, call, s.head, resident.head, outcome);
      r := if outcome.Err? then Err(SourceFailed(outcome.error)) else Ok(outcome.value);
      s' := SourceState(resident.head);
    } else {
      V.WiredInputs(ups, emitted, b.wires);
      var resident := new C.ConsumerView.At(s.durable);
      var outcome := V.ServeOne(resident, V.InputsOf(ups, b.wires), V.Request(scope, budget, b.header, b.env, b.last));
      r := if outcome.Err? then Err(ConsumerFailed(outcome.error)) else Ok(outcome.value);
      s' := ConsumerState(resident.durable);
    }
  }

  // ---------------------------------------------------------------- the demand

  // Nothing but one view's progress and its lineage has changed.
  ghost predicate Only(v: ViewId, w: World, w': World) {
    V.SameBut(v, w.states, w'.states) && V.SameBut(v, w.ups, w'.ups) && V.SameBut(v, w.emitted, w'.emitted)
  }

  ghost predicate CompleteIn(views: map<ViewId, Backing>, d: ViewDemand, v: ViewId, w: World) {
    v in views && v in w.states && Complete(views[v], w.states[v], w.ups, ScopeOf(d, v))
  }

  ghost predicate AnsweredIn(views: map<ViewId, Backing>, d: ViewDemand, v: ViewId, w: World, w': World, budget: Budget,
                             r: Result<Outcome, StepError>) {
    && v in views && v in w.states && v in w'.states
    && Answered(views[v], w.ups, w.states[v], w'.states[v], ScopeOf(d, v), OrderOf(d, v), budget, r)
  }

  // What the views of a demand make of it.
  ghost function RulesOf(views: map<ViewId, Backing>, d: ViewDemand): Rules<World, StepError> {
    Rules((w: World) => Sound(views, w), (v: ViewId, w: World) => CompleteIn(views, d, v, w),
          (v: ViewId, w: World, w': World) => Only(v, w, w'),
          (v: ViewId, w: World, w': World, budget: Budget, r: Result<Outcome, StepError>) => AnsweredIn(views, d, v, w, w', budget, r))
  }

  // The views of the registry are computed from their bindings: a source view has none, and each
  // input of a consumer reads the lineage of the binding's producer.
  ghost predicate Tied(g: Registry, views: map<ViewId, Backing>) {
    forall v :: v in g && v in views ==> TiedAt(g[v].bindings, views[v])
  }

  ghost predicate TiedAt(bindings: seq<Binding>, b: Backing) {
    match b
    case OverSource(_, _, _, _) => bindings == []
    case OverViews(wires, _, _, _, _) =>
      |wires| == |bindings| && forall e :: 0 <= e < |wires| ==> wires[e].producer == bindings[e].producer
  }

  // The view reads the lineage of another.
  ghost predicate Reads(b: Backing, u: ViewId) {
    b.OverViews? && exists e :: 0 <= e < |b.wires| && b.wires[e].producer == u
  }

  // A view is complete whatever becomes of views it does not read.
  lemma CompleteKept(b: Backing, s: State, ups: V.Upstreams, ups': V.Upstreams, scope: Scope, u: ViewId)
    requires Complete(b, s, ups, scope) && !Reads(b, u) && V.SameBut(u, ups, ups')
    ensures Complete(b, s, ups', scope)
  {
    if b.OverViews? {
      forall e | 0 <= e < |b.wires| ensures b.wires[e].producer in ups' && ups'[b.wires[e].producer] == ups[b.wires[e].producer] {
        assert b.wires[e].producer != u;
      }
      assert V.InputsOf(ups', b.wires) == V.InputsOf(ups, b.wires);
    }
  }

  // No view reads one that comes after it in the closure, nor itself.
  ghost predicate InReadingOrder(views: map<ViewId, Backing>, closure: seq<ViewId>) {
    && Distinct(closure)
    && forall i, n :: 0 <= i <= n < |closure| && closure[i] in views ==> !Reads(views[closure[i]], closure[n])
  }

  lemma ClosureIsIndependent(views: map<ViewId, Backing>, d: ViewDemand, closure: seq<ViewId>)
    requires InReadingOrder(views, closure)
    ensures Independent(RulesOf(views, d), closure)
  {
    forall i, n, w: World, w': World | 0 <= i < n < |closure| && Only(closure[n], w, w') && RulesOf(views, d).complete(closure[i], w)
      ensures RulesOf(views, d).complete(closure[i], w')
    {
      StaysComplete(views, d, closure[i], closure[n], w, w');
    }
  }

  lemma StaysComplete(views: map<ViewId, Backing>, d: ViewDemand, v: ViewId, u: ViewId, w: World, w': World)
    requires CompleteIn(views, d, v, w) && Only(u, w, w') && v != u && !Reads(views[v], u)
    ensures CompleteIn(views, d, v, w')
  {
    CompleteKept(views[v], w.states[v], w.ups, w'.ups, ScopeOf(d, v), u);
  }

  lemma OrderedIsReadingOrder(g: Registry, views: map<ViewId, Backing>, closure: seq<ViewId>)
    requires Tied(g, views) && Ordered(g, closure) && forall v :: v in closure ==> v in g
    ensures InReadingOrder(views, closure)
  {
    forall i, n | 0 <= i <= n < |closure| && closure[i] in views ensures !Reads(views[closure[i]], closure[n]) {
      ReadsProducers(g, views, closure[i], closure[n]);
    }
  }

  lemma ClosureIsReady(g: Registry, views: map<ViewId, Backing>, target: ViewId, closure: seq<ViewId>)
    requires Resolvable(g, target) && Closure(g, target, closure) && Tied(g, views)
    requires forall v :: Reachable(g, target, v) ==> v in views
    ensures InReadingOrder(views, closure) && target in closure && forall i :: 0 <= i < |closure| ==> closure[i] in views
  {
    OrderedIsReadingOrder(g, views, closure);
  }

  lemma ReadsProducers(g: Registry, views: map<ViewId, Backing>, v: ViewId, u: ViewId)
    requires Tied(g, views) && v in g && v in views
    ensures Reads(views[v], u) ==> Produces(g, v, u)
  {
    assert TiedAt(g[v].bindings, views[v]);
    if Reads(views[v], u) {
      var e :| 0 <= e < |views[v].wires| && views[v].wires[e].producer == u;
      assert g[v].bindings[e].producer == u;
    }
  }

  // ---------------------------------------------------------------- one turn

  // What a turn of a view may be, seen from the view.
  ghost predicate ViewTurn(b: Backing, v: ViewId, s: State, s': State, ups: V.Upstreams, d: ViewDemand, spent: Spending, t: Turn) {
    && InBudget(d.total, spent) && t.view == v
    && match t
       case Hit(_) => s' == s && Complete(b, s, ups, ScopeOf(d, v))
       case Ran(_, budget, outcome) =>
         && budget == Left(d.total, spent) && KeepsTo(outcome, budget)
         && Answered(b, ups, s, s', ScopeOf(d, v), OrderOf(d, v), budget, Ok(outcome))
         && (outcome.complete ==> Complete(b, s', ups, ScopeOf(d, v)))
  }

  // One view of the closure under what is left: answered by the preflight, put off, or worked on.
  method TakeTurn(v: ViewId, b: Backing, s: State, ups: V.Upstreams, ghost emitted: V.History, d: ViewDemand, spent: Spending, busy: bool)
    returns (t: Verdict<StepError>, s': State)
    requires ViewSound(b, s, ups, emitted) && InBudget(d.total, spent)
    ensures ViewSound(b, s', ups, emitted)
    ensures t.Took? ==> ViewTurn(b, v, s, s', ups, d, spent, t.turn)
    ensures t.Waits? ==> s' == s && (busy || UsedUp(d.total, spent))
    ensures t.Fails? ==> Answered(b, ups, s, s', ScopeOf(d, v), OrderOf(d, v), Left(d.total, spent), Err(t.error))
  {
    var hit := Preflight(b, s, ups, emitted, ScopeOf(d, v));
    if hit {
      return Took(Hit(v)), s;
    }
    if busy || UsedUp(d.total, spent) {
      return Waits, s;
    }
    var left := Left(d.total, spent);
    var outcome;
    outcome, s' := Step(b, s, ups, emitted, ScopeOf(d, v), OrderOf(d, v), left);
    t := if outcome.Err? then Fails(outcome.error) else Took(Ran(v, left, outcome.value));
  }

  // A view stays sound when lineages go on.
  lemma ViewGoesOn(b: Backing, s: State, ups: V.Upstreams, emitted: V.History, ups': V.Upstreams, emitted': V.History)
    requires ViewSound(b, s, ups, emitted) && V.LineagesOk(ups', emitted') && V.AllLater(ups, ups')
    ensures ViewSound(b, s, ups', emitted')
  {
    if b.OverViews? {
      V.EmitKeeps(ups, emitted, ups', emitted', b.wires, s.durable);
    }
  }

  lemma DemandGoesOn(views: map<ViewId, Backing>, x: ViewId, s: State, ups: V.Upstreams, emitted: V.History, ups': V.Upstreams,
                     emitted': V.History)
    requires V.LineagesOk(ups', emitted') && V.AllLater(ups, ups') && DemandsOf(views)(x, s, ups, emitted)
    ensures DemandsOf(views)(x, s, ups', emitted')
  {
    ViewGoesOn(views[x], s, ups, emitted, ups', emitted');
  }

  // The world after a turn of a view and what its runtime has emitted meanwhile.
  lemma TurnSound(views: map<ViewId, Backing>, w: World, v: ViewId, s: State, ups': V.Upstreams, emitted': V.History)
    requires Sound(views, w) && v in views && DemandsOf(views)(v, s, w.ups, w.emitted)
    requires V.LineagesOk(ups', emitted') && V.AllLater(w.ups, ups')
    ensures Sound(views, World(w.states[v := s], ups', emitted'))
  {
    var states := w.states[v := s];
    forall x | x in states ensures DemandsOf(views)(x, states[x], ups', emitted') {
      DemandGoesOn(views, x, states[x], w.ups, w.emitted, ups', emitted');
    }
  }

  lemma TurnOnly(w: World, v: ViewId, s: State, ups': V.Upstreams, emitted': V.History)
    requires V.OnlyLineage(v, w.ups, ups', w.emitted, emitted') && v in w.states
    ensures Only(v, w, World(w.states[v := s], ups', emitted'))
  {
  }

  lemma TurnInWorld(views: map<ViewId, Backing>, d: ViewDemand, v: ViewId, w: World, w': World, spent: Spending, t: Turn)
    requires v in views && v in w.states && v in w'.states && !Reads(views[v], v) && (if t.Hit? then w' == w else Only(v, w, w'))
    requires ViewTurn(views[v], v, w.states[v], w'.states[v], w.ups, d, spent, t)
    ensures TurnOk(RulesOf(views, d), v, w, w', d.total, spent, t)
  {
    if t.Ran? && t.outcome.complete {
      CompleteKept(views[v], w'.states[v], w.ups, w'.ups, ScopeOf(d, v), v);
    }
  }

  // The turn of a view in the world: its step, and the units its runtime emits meanwhile.
  method TurnOf(v: ViewId, views: map<ViewId, Backing>, d: ViewDemand, w: World, emits: seq<V.Emission>, spent: Spending, busy: bool)
    returns (t: Verdict<StepError>, w': World)
    requires Sound(views, w) && v in views && !Reads(views[v], v) && InBudget(d.total, spent)
    ensures Sound(views, w')
    ensures t.Took? ==> TurnOk(RulesOf(views, d), v, w, w', d.total, spent, t.turn)
    ensures t.Waits? ==> w' == w && (busy || UsedUp(d.total, spent))
    ensures t.Fails? ==> Only(v, w, w') && AnsweredIn(views, d, v, w, w', Left(d.total, spent), Err(t.error))
  {
    assert DemandsOf(views)(v, w.states[v], w.ups, w.emitted);
    var s;
    t, s := TakeTurn(v, views[v], w.states[v], w.ups, w.emitted, d, spent, busy);
    w' := w;
    if t.Fails? || (t.Took? && t.turn.Ran?) {
      var ups', emitted' := V.EmitAll(v, w.ups, w.emitted, emits);
      V.OnlyLater(v, w.ups, ups', w.emitted, emitted');
      TurnSound(views, w, v, s, ups', emitted');
      TurnOnly(w, v, s, ups', emitted');
      w' := World(w.states[v := s], ups', emitted');
    }
    if t.Took? {
      TurnInWorld(views, d, v, w, w', spent, t.turn);
    }
  }

  // ---------------------------------------------------------------- the demand on a closure

  // The turn of the next view, and the answer if it ends the demand.
  method TakeNext(closure: seq<ViewId>, n: nat, d: ViewDemand, views: map<ViewId, Backing>, emits: ViewId -> seq<V.Emission>,
                  busy: ViewId -> bool, world: World, ghost worlds: seq<World>, ghost turns: seq<Turn>, spent: Spending)
    returns (r: Option<Result<Outcome, DemandError<StepError>>>, world': World, ghost worlds': seq<World>, ghost turns': seq<Turn>,
             spent': Spending)
    requires n < |closure| && closure[n] in views && InReadingOrder(views, closure)
    requires Independent(RulesOf(views, d), closure) && Going(RulesOf(views, d), d, closure, n, world, worlds, turns, spent)
    ensures r.None? ==> Going(RulesOf(views, d), d, closure, n + 1, world', worlds', turns', spent') && worlds <= worlds'
    ensures r.Some? && r.value.Ok? ==> KeepsTo(r.value.value, d.total)
    ensures r.Some? ==> Ended(RulesOf(views, d), d, busy, closure, world', worlds', turns', r.value) && worlds <= worlds'
  {
    ghost var rules := RulesOf(views, d);
    var v := closure[n];
    var verdict;
    verdict, world' := TurnOf(v, views, d, world, emits(v), spent, busy(v));
    worlds', turns', spent' := worlds, turns, spent;
    if verdict.Waits? {
      TurnPutOff(rules, d, busy, closure, n, world, worlds, turns, spent);
      r := Some(Ok(Outcome(false, spent.units, spent.rows, spent.bytes, 1)));
    } else if verdict.Fails? {
      TurnFailed(rules, d, busy, closure, n, world, worlds, turns, spent, world', verdict.error);
      r := Some(Err(StepFailed(v, verdict.error)));
    } else {
      TurnTaken(rules, d, busy, closure, n, world, worlds, turns, spent, world', verdict.turn);
      worlds', turns', spent' := worlds + [world'], turns + [verdict.turn], Spend(spent, verdict.turn);
      r := Answer(d, v, verdict.turn, spent');
    }
  }

  // Works through a closure in dependency order. Nothing is spent beyond the budget, every
  // remainder handed on is what is left, and completion of the target is reported only with the
  // target and everything before it complete in the world left behind.
  method Materialize(closure: seq<ViewId>, d: ViewDemand, views: map<ViewId, Backing>, emits: ViewId -> seq<V.Emission>,
                     busy: ViewId -> bool, start: World)
    returns (r: Result<Outcome, DemandError<StepError>>, world: World, ghost worlds: seq<World>, ghost turns: seq<Turn>)
    requires InReadingOrder(views, closure) && Sound(views, start) && forall i :: 0 <= i < |closure| ==> closure[i] in views
    ensures r.Ok? ==> KeepsTo(r.value, d.total)
    ensures worlds != [] && worlds[0] == start && Ended(RulesOf(views, d), d, busy, closure, world, worlds, turns, r)
  {
    ClosureIsIndependent(views, d, closure);
    world, worlds, turns := start, [start], [];
    var spent, i := Spending(0, 0, 0), 0;
    while i < |closure|
      invariant 0 <= i <= |closure| && worlds != [] && worlds[0] == start
      invariant Going(RulesOf(views, d), d, closure, i, world, worlds, turns, spent)
    {
      var ended;
      ended, world, worlds, turns, spent := TakeNext(closure, i, d, views, emits, busy, world, worlds, turns, spent);
      if ended.Some? {
        return ended.value, world, worlds, turns;
      }
      i := i + 1;
    }
    TargetIsMissing(RulesOf(views, d), d, busy, closure, world, worlds, turns, spent);
    r := Err(TargetOmitted);
  }

  // A complete target means a complete closure: the target comes last.
  lemma WholeClosure<W, E>(g: Registry, rules: Rules<W, E>, d: ViewDemand, order: seq<ViewId>, turns: seq<Turn>, world: W)
    requires Closure(g, d.target, order) && 0 < |turns| <= |order| && order[|turns| - 1] == d.target
    requires CompleteTo(rules, order, |turns|, world)
    ensures |turns| == |order|
    ensures forall v :: Reachable(g, d.target, v) ==> rules.complete(v, world)
  {
    assert |turns| == |order|;
    forall v | Reachable(g, d.target, v) ensures rules.complete(v, world) {
      var i :| 0 <= i < |order| && order[i] == v;
      assert rules.complete(order[i], world);
    }
  }

  // The view is complete for what is demanded of it, and holds the rows that this means.
  ghost predicate HoldsIn(views: map<ViewId, Backing>, d: ViewDemand, v: ViewId, w: World) {
    CompleteIn(views, d, v, w) && Holds(views[v], w.states[v], w.ups, w.emitted, ScopeOf(d, v))
  }

  // No view outside the closure has changed.
  ghost predicate Kept(u: ViewId, w: World, w': World) {
    && (u in w.states <==> u in w'.states) && (u in w.states ==> w'.states[u] == w.states[u])
    && (u in w.ups <==> u in w'.ups) && (u in w.ups ==> w'.ups[u] == w.ups[u])
  }

  lemma {:induction false} TraceKeeps(views: map<ViewId, Backing>, d: ViewDemand, closure: seq<ViewId>, worlds: seq<World>, turns: seq<Turn>,
                                      n: nat, u: ViewId)
    requires Traced(RulesOf(views, d), d.total, closure, worlds, turns) && n <= |turns| && u !in closure
    ensures Kept(u, worlds[0], worlds[n])
    decreases n
  {
    if n > 0 {
      TraceKeeps(views, d, closure, worlds, turns, n - 1, u);
      assert TracedAt(RulesOf(views, d), d.total, closure, worlds, turns, n - 1);
      assert closure[n - 1] != u;
    }
  }

  lemma EndKeeps(views: map<ViewId, Backing>, d: ViewDemand, busy: ViewId -> bool, closure: seq<ViewId>, world: World, worlds: seq<World>,
                 turns: seq<Turn>, r: Result<Outcome, DemandError<StepError>>, u: ViewId)
    requires Ended(RulesOf(views, d), d, busy, closure, world, worlds, turns, r) && u !in closure
    ensures Kept(u, worlds[0], world)
  {
    TraceKeeps(views, d, closure, worlds, turns, |turns|, u);
  }

  // A demand on a view: resolve its closure and work through it. Completion means that every view
  // the target depends on, directly or not, holds what its own inputs hold: rows of the source, or
  // what the runtimes of its producers have emitted and committed in the world left behind.
  method MaterializeDemand(g: Registry, d: ViewDemand, views: map<ViewId, Backing>, emits: ViewId -> seq<V.Emission>, busy: ViewId -> bool,
                           start: World)
    returns (r: Result<Outcome, DemandError<StepError>>, world: World, ghost worlds: seq<World>, ghost turns: seq<Turn>,
             ghost order: seq<ViewId>)
    requires d.target in g && Tied(g, views) && Sound(views, start) && forall v :: Reachable(g, d.target, v) ==> v in views
    ensures r.Err? && r.error.Unresolved? <==> !Resolvable(g, d.target)
    ensures !Resolvable(g, d.target) ==> world == start
    ensures Resolvable(g, d.target) ==>
      && Closure(g, d.target, order) && worlds != [] && worlds[0] == start
      && Ended(RulesOf(views, d), d, busy, order, world, worlds, turns, r)
      && (forall u :: !Reachable(g, d.target, u) ==> Kept(u, start, world))
    ensures r.Ok? ==> KeepsTo(r.value, d.total)
    ensures r.Ok? && r.value.complete ==> forall v :: Reachable(g, d.target, v) ==> HoldsIn(views, d, v, world)
  {
    world, worlds, turns, order := start, [start], [], [];
    var closure := DependencyOrder(g, d.target);
    if closure.Err? {
      return Err(Unresolved(closure.error)), world, worlds, turns, order;
    }
    order := closure.value;
    ClosureIsReady(g, views, d.target, order);
    r, world, worlds, turns := Materialize(closure.value, d, views, emits, busy, start);
    EndMeans(g, views, d, busy, order, world, worlds, turns, r);
  }

  lemma EndMeans(g: Registry, views: map<ViewId, Backing>, d: ViewDemand, busy: ViewId -> bool, order: seq<ViewId>, world: World,
                 worlds: seq<World>, turns: seq<Turn>, r: Result<Outcome, DemandError<StepError>>)
    requires Closure(g, d.target, order) && Ended(RulesOf(views, d), d, busy, order, world, worlds, turns, r)
    ensures forall u :: !Reachable(g, d.target, u) ==> Kept(u, worlds[0], world)
    ensures r.Ok? && r.value.complete ==> forall v :: Reachable(g, d.target, v) ==> HoldsIn(views, d, v, world)
  {
    forall u | !Reachable(g, d.target, u) ensures Kept(u, worlds[0], world) {
      EndKeeps(views, d, busy, order, world, worlds, turns, r, u);
    }
    if r.Ok? && r.value.complete {
      WholeClosure(g, RulesOf(views, d), d, order, turns, world);
      AllHold(g, views, d, world);
    }
  }

  lemma AllHold(g: Registry, views: map<ViewId, Backing>, d: ViewDemand, w: World)
    requires Sound(views, w) && forall v :: Reachable(g, d.target, v) ==> CompleteIn(views, d, v, w)
    ensures forall v :: Reachable(g, d.target, v) ==> HoldsIn(views, d, v, w)
  {
    forall v | Reachable(g, d.target, v) ensures HoldsIn(views, d, v, w) {
      assert CompleteIn(views, d, v, w) && DemandsOf(views)(v, w.states[v], w.ups, w.emitted);
      CompleteHolds(views[v], w.states[v], w.ups, w.emitted, ScopeOf(d, v));
    }
  }
}
