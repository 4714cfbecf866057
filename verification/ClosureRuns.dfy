/**
 A demand over a closure of any views, under one shared budget
 (`materialize_demand_with_snapshot_inner` in crates/velorix-api/src/demand_materialization.rs):
 what the loop over the closure guarantees, whatever a view is.
 */
module ClosureRuns {
  import opened Wrappers
  import opened Staging
  import opened Requests
  import opened Dependencies

  // ---------------------------------------------------------------- the shared budget

  // A view's turn: the preflight answered, or a step was run with a budget and did something.
  datatype Turn = Hit(view: ViewId) | Ran(view: ViewId, budget: Budget, outcome: Outcome)

  datatype Spending = Spending(units: nat, rows: nat, bytes: nat)

  function Spend(a: Spending, t: Turn): Spending {
    if t.Hit? then a else Spending(a.units + t.outcome.units, a.rows + t.outcome.rows, a.bytes + t.outcome.bytes)
  }

  function Spent(turns: seq<Turn>): Spending {
    if turns == [] then Spending(0, 0, 0) else Spend(Spent(turns[..|turns| - 1]), turns[|turns| - 1])
  }

  predicate InBudget(total: Budget, a: Spending) {
    a.units <= total.batchLimit && a.rows <= total.maxRows && a.bytes <= total.maxBytes
  }

  function Left(total: Budget, a: Spending): Budget
    requires InBudget(total, a)
  {
    Budget(total.batchLimit - a.units, total.maxRows - a.rows, total.maxBytes - a.bytes)
  }

  // A budget of the demand is used up.
  predicate UsedUp(total: Budget, a: Spending) {
    a.rows >= total.maxRows || a.bytes >= total.maxBytes || a.units >= total.batchLimit
  }

  // ---------------------------------------------------------------- a closure of any views

  // What can be said of a world of views: that it is sound, that a view is complete in it, that
  // nothing but one view has changed, and how a step of a view with a budget was answered.
  datatype Rules<!W, !E> = Rules(
    sound: W -> bool,
    complete: (ViewId, W) -> bool,
    only: (ViewId, W, W) -> bool,
    answered: (ViewId, W, W, Budget, Result<Outcome, E>) -> bool)

  datatype ViewDemand = ViewDemand(target: ViewId, scope: Scope, order: Order, total: Budget)

  datatype DemandError<E> = Unresolved(error: ClosureError) | StepFailed(view: ViewId, step: E) | TargetOmitted

  // What becomes of a view whose turn it is.
  datatype Verdict<E> = Took(turn: Turn) | Waits | Fails(error: E)

  // Producers are demanded as a whole, the target as asked.
  function ScopeOf(d: ViewDemand, v: ViewId): Scope {
    if v == d.target then d.scope else None
  }

  function OrderOf(d: ViewDemand, v: ViewId): Order {
    if v == d.target then d.order else Forward
  }

  // What a turn under what is left may be: a hit on a complete view, which changes nothing, or a
  // step that kept to its budget, was answered by the view, and left it complete if it says so.
  ghost predicate TurnOk<W, E>(rules: Rules<W, E>, v: ViewId, w: W, w': W, total: Budget, spent: Spending, t: Turn) {
    && InBudget(total, spent) && t.view == v
    && match t
       case Hit(_) => w' == w && rules.complete(v, w')
       case Ran(_, budget, outcome) =>
         && budget == Left(total, spent) && KeepsTo(outcome, budget) && rules.only(v, w, w')
         && rules.answered(v, w, w', budget, Ok(outcome)) && (outcome.complete ==> rules.complete(v, w'))
  }

  // The turns of a demand, in the order of the closure, from world to world.
  ghost predicate Traced<W, E>(rules: Rules<W, E>, total: Budget, closure: seq<ViewId>, worlds: seq<W>, turns: seq<Turn>) {
    && |worlds| == |turns| + 1 && |turns| <= |closure|
    && forall i :: 0 <= i < |turns| ==> TracedAt(rules, total, closure, worlds, turns, i)
  }

  ghost predicate TracedAt<W, E>(rules: Rules<W, E>, total: Budget, closure: seq<ViewId>, worlds: seq<W>, turns: seq<Turn>, i: nat)
    requires |worlds| == |turns| + 1 && i < |turns| <= |closure|
  {
    TurnOk(rules, closure[i], worlds[i], worlds[i + 1], total, Spent(turns[..i]), turns[i])
  }

  predicate Finished(t: Turn) {
    t.Hit? || t.outcome.complete
  }

  ghost predicate AllFinished(turns: seq<Turn>, n: nat) {
    n <= |turns| && forall i :: 0 <= i < n ==> Finished(turns[i])
  }

  // The first views of the closure are complete.
  ghost predicate CompleteTo<W, E>(rules: Rules<W, E>, closure: seq<ViewId>, n: nat, w: W) {
    n <= |closure| && forall i :: 0 <= i < n ==> rules.complete(closure[i], w)
  }

  // A turn of a view leaves every complete view before it in the closure complete.
  ghost predicate Independent<W(!new), E>(rules: Rules<W, E>, closure: seq<ViewId>) {
    forall i, n, w, w' :: 0 <= i < n < |closure| && rules.only(closure[n], w, w') && rules.complete(closure[i], w) ==>
      rules.complete(closure[i], w')
  }

  // Why the target was left incomplete: the view whose turn it was had to wait because the
  // scheduler was busy or a budget was used up, or the last step did not complete its view.
  // Every view before it is complete.
  ghost predicate Halted(d: ViewDemand, busy: ViewId -> bool, closure: seq<ViewId>, turns: seq<Turn>) {
    var n := |turns|;
    || (n < |closure| && AllFinished(turns, n) && (busy(closure[n]) || UsedUp(d.total, Spent(turns))))
    || (0 < n <= |closure| && AllFinished(turns, n - 1) && !Finished(turns[n - 1]))
  }

  // The step that failed: of the view whose turn it was, with what was left.
  ghost predicate FailedAt<W, E>(rules: Rules<W, E>, d: ViewDemand, closure: seq<ViewId>, w: W, w': W, turns: seq<Turn>, v: ViewId,
                                 error: E)
  {
    && |turns| < |closure| && closure[|turns|] == v && AllFinished(turns, |turns|) && CompleteTo(rules, closure, |turns|, w')
    && InBudget(d.total, Spent(turns)) && rules.only(v, w, w') && rules.answered(v, w, w', Left(d.total, Spent(turns)), Err(error))
  }

  // The end of a demand on a closure: the world is sound, the budget was shared as it should be, and
  // the answer says what became of the target.
  ghost predicate Ended<W, E>(rules: Rules<W, E>, d: ViewDemand, busy: ViewId -> bool, closure: seq<ViewId>, world: W, worlds: seq<W>,
                              turns: seq<Turn>, r: Result<Outcome, DemandError<E>>) {
    && Traced(rules, d.total, closure, worlds, turns) && rules.sound(world) && InBudget(d.total, Spent(turns))
    && (r.Ok? ==> Spending(r.value.units, r.value.rows, r.value.bytes) == Spent(turns) && world == worlds[|turns|])
    && (r.Ok? && r.value.complete ==>
          && 0 < |turns| && closure[|turns| - 1] == d.target && AllFinished(turns, |turns|) && CompleteTo(rules, closure, |turns|, world))
    && (r.Ok? && !r.value.complete ==> Halted(d, busy, closure, turns))
    && (r.Err? && r.error.StepFailed? ==> FailedAt(rules, d, closure, worlds[|turns|], world, turns, r.error.view, r.error.step))
    && (r.Err? && !r.error.StepFailed? ==> r.error == TargetOmitted && d.target !in closure && world == worlds[|turns|])
  }

  ghost predicate Distinct(closure: seq<ViewId>) {
    forall i, j :: 0 <= i < j < |closure| ==> closure[i] != closure[j]
  }

  // The view is not among the first `n`.
  ghost predicate Missing(closure: seq<ViewId>, n: nat, v: ViewId) {
    forall j :: 0 <= j < n <= |closure| ==> closure[j] != v
  }

  // How the loop stands after the first `n` views.
  ghost predicate Going<W, E>(rules: Rules<W, E>, d: ViewDemand, closure: seq<ViewId>, n: nat, world: W, worlds: seq<W>,
                              turns: seq<Turn>, spent: Spending) {
    && Traced(rules, d.total, closure, worlds, turns) && rules.sound(world) && n == |turns| && world == worlds[n]
    && Missing(closure, n, d.target) && spent == Spent(turns) && InBudget(d.total, spent)
    && AllFinished(turns, n) && CompleteTo(rules, closure, n, world)
  }

  lemma TracedMore<W, E>(rules: Rules<W, E>, total: Budget, closure: seq<ViewId>, worlds: seq<W>, turns: seq<Turn>, w: W, t: Turn)
    requires Traced(rules, total, closure, worlds, turns) && |turns| < |closure|
    requires TurnOk(rules, closure[|turns|], worlds[|turns|], w, total, Spent(turns), t)
    ensures Traced(rules, total, closure, worlds + [w], turns + [t])
  {
    forall i | 0 <= i <= |turns| ensures TracedAt(rules, total, closure, worlds + [w], turns + [t], i) {
      assert (turns + [t])[..i] == turns[..i];
      assert i < |turns| ==> TracedAt(rules, total, closure, worlds, turns, i);
    }
    assert turns[..|turns|] == turns;
  }

  lemma SpentMore(total: Budget, turns: seq<Turn>, t: Turn)
    requires InBudget(total, Spent(turns)) && (t.Ran? ==> KeepsTo(t.outcome, Left(total, Spent(turns))))
    ensures Spent(turns + [t]) == Spend(Spent(turns), t) && InBudget(total, Spent(turns + [t]))
  {
    assert (turns + [t])[..|turns|] == turns;
  }

  // A turn of the next view leaves those before it complete.
  lemma CompleteStays<W(!new), E>(rules: Rules<W, E>, closure: seq<ViewId>, n: nat, w: W, w': W)
    requires Independent(rules, closure) && n < |closure| && CompleteTo(rules, closure, n, w) && rules.only(closure[n], w, w')
    ensures CompleteTo(rules, closure, n, w')
  {
  }

  // A turn ends the demand when it is the target's or leaves its view incomplete.
  function Answer<E>(d: ViewDemand, v: ViewId, t: Turn, spent: Spending): (r: Option<Result<Outcome, DemandError<E>>>)
    ensures r.Some? ==> r.value.Ok?
  {
    if Finished(t) && v != d.target then None
    else Some(Ok(Outcome(Finished(t), spent.units, spent.rows, spent.bytes, if t.Hit? then 0 else t.outcome.remaining)))
  }

  // After a turn the loop goes on, or the demand has ended.
  lemma TurnTaken<W(!new), E>(rules: Rules<W, E>, d: ViewDemand, busy: ViewId -> bool, closure: seq<ViewId>, n: nat, world: W,
                              worlds: seq<W>, turns: seq<Turn>, spent: Spending, w: W, t: Turn)
    requires Independent(rules, closure) && Going(rules, d, closure, n, world, worlds, turns, spent) && n < |closure| && rules.sound(w)
    requires TurnOk(rules, closure[n], world, w, d.total, spent, t)
    ensures var answer := Answer<E>(d, closure[n], t, Spend(spent, t));
            if answer.None? then Going(rules, d, closure, n + 1, w, worlds + [w], turns + [t], Spend(spent, t))
            else KeepsTo(answer.value.value, d.total) && Ended(rules, d, busy, closure, w, worlds + [w], turns + [t], answer.value)
  {
    TracedMore(rules, d.total, closure, worlds, turns, w, t);
    SpentMore(d.total, turns, t);
    if t.Ran? {
      CompleteStays(rules, closure, n, world, w);
    }
  }

  lemma TurnPutOff<W, E>(rules: Rules<W, E>, d: ViewDemand, busy: ViewId -> bool, closure: seq<ViewId>, n: nat, world: W, worlds: seq<W>,
                         turns: seq<Turn>, spent: Spending)
    requires Going(rules, d, closure, n, world, worlds, turns, spent) && n < |closure| && (busy(closure[n]) || UsedUp(d.total, spent))
    ensures Ended(rules, d, busy, closure, world, worlds, turns, Ok(Outcome(false, spent.units, spent.rows, spent.bytes, 1)))
  {
  }

  lemma TurnFailed<W(!new), E>(rules: Rules<W, E>, d: ViewDemand, busy: ViewId -> bool, closure: seq<ViewId>, n: nat, world: W,
                               worlds: seq<W>, turns: seq<Turn>, spent: Spending, w: W, error: E)
    requires Independent(rules, closure) && Going(rules, d, closure, n, world, worlds, turns, spent) && n < |closure| && rules.sound(w)
    requires rules.only(closure[n], world, w) && rules.answered(closure[n], world, w, Left(d.total, spent), Err(error))
    ensures Ended(rules, d, busy, closure, w, worlds, turns, Err(StepFailed(closure[n], error)))
  {
    CompleteStays(rules, closure, n, world, w);
  }

  lemma TargetIsMissing<W, E>(rules: Rules<W, E>, d: ViewDemand, busy: ViewId -> bool, closure: seq<ViewId>, world: W, worlds: seq<W>,
                              turns: seq<Turn>, spent: Spending)
    requires Going(rules, d, closure, |closure|, world, worlds, turns, spent)
    ensures Ended(rules, d, busy, closure, world, worlds, turns, Err(TargetOmitted))
  {
  }
}
