/**
 Every interleaving of the publication protocol: any number of persisters, each between two
 writes or requests at any time, crashes after every step, and loss of the metadata head.
 */
module PublicationRuns {
  import opened Wrappers
  import opened Publication

  // What a persister set out to publish, and the checkpoint it built on.
  datatype Plan = Plan(previous: Option<Pointer>, record: Record, cuts: bool)

  datatype Phase =
    | Idle
    | Putting(plan: Plan, done: nat)  // the first objects are written
    | Recorded(plan: Plan)            // the record is written
    | Ready(plan: Plan)               // the record was read back and matches its pointer
    | Conflicted(plan: Plan)          // the head is not the expected one
    | Emptied(plan: Plan)             // there is no head at all
    | Restoring(plan: Plan)           // the predecessor's record was read back
    | Resuming(plan: Plan)            // the predecessor is the head again

  // `history` is every pointer that was ever the head, and `tip` the latest of them.
  datatype World = World(store: Store, head: Option<Pointer>, tip: Option<Pointer>, history: set<Pointer>,
                         phases: map<nat, Phase>)

  datatype Step = Begin(w: nat, plan: Plan) | Advance(w: nat, owned: bool, cutsHold: bool, boots: bool) | Crash(w: nat) | LoseHead

  ghost predicate Init(s: World) {
    s.head == None && s.tip == None && s.history == {} && s.phases == map[]
  }

  // A persister builds on no checkpoint or on one it saw at the head, however long ago, and
  // either extends it or writes the very same checkpoint again.
  predicate PlanOk(history: set<Pointer>, plan: Plan) {
    && (plan.previous.Some? ==> plan.previous.value in history)
    && (plan.record.previous == plan.previous || plan.previous == Some(PointerOf(plan.record)))
  }

  predicate Enabled(s: World, step: Step) {
    match step
    case Begin(w, plan) => PlanOk(s.history, plan)
    case Advance(w, _, _, _) => w in s.phases && !s.phases[w].Idle?
    case Crash(w) => true
    case LoseHead => true
  }

  function At(s: World, w: nat, phase: Phase): World {
    s.(phases := s.phases[w := phase])
  }

  function Install(s: World, p: Pointer): World {
    s.(head := Some(p), tip := Some(p), history := s.history + {p})
  }

  function Cuts(plan: Plan, cutsHold: bool): Option<bool> {
    if plan.cuts then Some(cutsHold) else None
  }

  function Write(s: World, w: nat, key: Key, body: Object, then_: Phase): World {
    match PutExact(s.store, key, body)
    case None => At(s, w, Idle)
    case Some(store) => At(s.(store := store), w, then_)
  }

  // A compare-and-set request: accepted, refused as a conflict, or failed.
  function Attempt(s: World, w: nat, expected: Option<Pointer>, candidate: Pointer, owned: bool, cutsHold: Option<bool>, boots: bool,
                   accepted: Phase, refused: Phase): World
  {
    match Cas(s.head, expected, candidate, owned, cutsHold, boots)
    case Published => At(Install(s, candidate), w, accepted)
    case Duplicate => At(s, w, accepted)
    case Conflict => At(s, w, refused)
    case _ => At(s, w, Idle)
  }

  // One write or one metadata request of persister `w`.
  function Advanced(s: World, w: nat, owned: bool, cutsHold: bool, boots: bool): World
    requires w in s.phases && !s.phases[w].Idle?
  {
    var plan := s.phases[w].plan;
    var candidate := PointerOf(plan.record);
    match s.phases[w]
    case Putting(_, done) =>
      if done < |plan.record.refs| then
        var r := plan.record.refs[done];
        Write(s, w, ObjectKey(r.name), Blob(r.content), Putting(plan, done + 1))
      else Write(s, w, RecordKey(plan.record), Descriptor(plan.record), Recorded(plan))
    case Recorded(_) => At(s, w, if Stored(s.store, candidate) then Ready(plan) else Idle)
    case Ready(_) =>
      var retry := if plan.cuts || plan.previous.None? then Idle else Conflicted(plan);
      Attempt(s, w, plan.previous, candidate, owned, Cuts(plan, cutsHold), boots, Idle, retry)
    case Conflicted(_) =>
      At(s, w, if s.head == None then Emptied(plan) else if s.head == plan.previous then Resuming(plan) else Idle)
    case Emptied(_) =>
      At(s, w, if plan.previous.Some? && Stored(s.store, plan.previous.value) then Restoring(plan) else Idle)
    case Restoring(_) =>
      if plan.previous.None? then At(s, w, Idle)
      else Attempt(s, w, None, plan.previous.value, owned, None, boots, Resuming(plan), Idle)
    case Resuming(_) => Attempt(s, w, plan.previous, candidate, owned, None, boots, Idle, Idle)
  }

  function Next(s: World, step: Step): World
    requires Enabled(s, step)
  {
    match step
    case Begin(w, plan) => At(s, w, Putting(plan, 0))
    case Advance(w, owned, cutsHold, boots) => Advanced(s, w, owned, cutsHold, boots)
    case Crash(w) => At(s, w, Idle)
    case LoseHead => s.(head := None)
  }

  ghost predicate StepsTo(s: World, step: Step, t: World) {
    Enabled(s, step) && t == Next(s, step)
  }

  // The states a sequence of steps goes through.
  ghost predicate IsPath(trace: seq<World>, steps: seq<Step>) {
    |trace| == |steps| + 1 && forall i :: 0 <= i < |steps| ==> StepsTo(trace[i], steps[i], trace[i + 1])
  }

  ghost predicate IsRun(trace: seq<World>, steps: seq<Step>) {
    IsPath(trace, steps) && Init(trace[0])
  }

  // ---------------------------------------------------------------- the invariant

  // Epochs strictly grow along the predecessor chain.
  ghost predicate Ascending(p: Pointer)
    decreases p
  {
    p.digest.previous.Some? ==> p.digest.previous.value.epoch < p.epoch && Ascending(p.digest.previous.value)
  }

  ghost predicate PhaseOk(store: Store, history: set<Pointer>, phase: Phase) {
    phase.Idle? ||
    (&& PlanOk(history, phase.plan)
     && (phase.Conflicted? || phase.Emptied? || phase.Restoring? || phase.Resuming? ==> phase.plan.previous.Some?)
     && (if phase.Putting? then
           phase.done <= |phase.plan.record.refs| && HasRefs(store, phase.plan.record.refs[..phase.done])
         else
           HasRefs(store, phase.plan.record.refs) && Stored(store, PointerOf(phase.plan.record))))
  }

  ghost predicate PhasesOk(s: World) {
    forall w :: w in s.phases ==> PhaseOk(s.store, s.history, s.phases[w])
  }

  ghost predicate HistoryOk(store: Store, history: set<Pointer>) {
    forall p :: p in history ==> Durable(store, p) && Ascending(p)
  }

  ghost predicate Inv(s: World) {
    && HistoryOk(s.store, s.history)
    && PhasesOk(s)
    && (s.tip.None? ==> s.history == {})
    && (s.tip.Some? ==> s.tip.value in s.history)
    && (s.head.Some? ==> s.head == s.tip)
  }

  lemma PhaseStays(a: Store, b: Store, before: set<Pointer>, after: set<Pointer>, phase: Phase)
    requires PhaseOk(a, before, phase) && Grows(a, b) && before <= after
    ensures PhaseOk(b, after, phase)
  {
    if !phase.Idle? {
      var refs := if phase.Putting? then phase.plan.record.refs[..phase.done] else phase.plan.record.refs;
      forall i | 0 <= i < |refs| ensures HasRef(b, refs[i]) {
        assert HasRef(a, refs[i]);
      }
    }
  }

  lemma AtKeeps(s: World, w: nat, phase: Phase)
    requires Inv(s) && PhaseOk(s.store, s.history, phase)
    ensures Inv(At(s, w, phase))
  {
  }

  lemma StoreGrowthKeeps(s: World, store: Store)
    requires Inv(s) && Grows(s.store, store)
    ensures Inv(s.(store := store))
  {
    var t := s.(store := store);
    forall p | p in t.history ensures Durable(t.store, p) {
      DurableStays(s.store, store, p);
    }
    forall w | w in t.phases ensures PhaseOk(t.store, t.history, t.phases[w]) {
      PhaseStays(s.store, store, s.history, s.history, s.phases[w]);
    }
  }

  lemma WriteKeeps(s: World, w: nat, key: Key, body: Object, then_: Phase)
    requires Inv(s)
    requires var r := PutExact(s.store, key, body); r.Some? ==> PhaseOk(r.value, s.history, then_)
    ensures Inv(Write(s, w, key, body, then_))
    ensures Grows(s.store, Write(s, w, key, body, then_).store)
  {
    match PutExact(s.store, key, body)
    case None => AtKeeps(s, w, Idle);
    case Some(store) =>
      StoreGrowthKeeps(s, store);
      AtKeeps(s.(store := store), w, then_);
  }

  // Once everything is written, the candidate is durable with all its predecessors.
  lemma CandidateDurable(s: World, phase: Phase)
    requires Inv(s) && PhaseOk(s.store, s.history, phase) && !phase.Idle? && !phase.Putting?
    ensures Durable(s.store, PointerOf(phase.plan.record))
  {
    var candidate := PointerOf(phase.plan.record);
    assert candidate.digest == phase.plan.record;
  }

  lemma InstallKeeps(s: World, p: Pointer)
    requires Inv(s) && Durable(s.store, p) && Ascending(p)
    ensures Inv(Install(s, p))
  {
    var t := Install(s, p);
    forall w | w in t.phases ensures PhaseOk(t.store, t.history, t.phases[w]) {
      PhaseStays(s.store, s.store, s.history, t.history, s.phases[w]);
    }
  }

  // What a request may do to the head: nothing, or install a durable pointer that extends
  // it, or one without predecessor where there is no head.
  ghost predicate Extends(s: World, t: World) {
    || (t.head == s.head && t.tip == s.tip && t.history == s.history)
    || (t.head == None && t.tip == s.tip && t.history == s.history)
    || (&& t.head.Some? && t.tip == t.head && t.history == s.history + {t.head.value}
        && t.head.value.digest.previous == s.head)
  }

  // A pointer the request may name: durable, and tied to the checkpoint it expects.
  ghost predicate Candidate(s: World, expected: Option<Pointer>, p: Pointer) {
    && Durable(s.store, p)
    && (p.digest.previous == expected || p in s.history)
  }

  lemma AttemptKeeps(s: World, w: nat, expected: Option<Pointer>, candidate: Pointer, owned: bool, cutsHold: Option<bool>, boots: bool,
                     accepted: Phase, refused: Phase)
    requires Inv(s) && Candidate(s, expected, candidate)
    requires PhaseOk(s.store, s.history, accepted) && PhaseOk(s.store, s.history, refused)
    ensures var t := Attempt(s, w, expected, candidate, owned, cutsHold, boots, accepted, refused);
            Inv(t) && t.store == s.store && Extends(s, t)
  {
    if Cas(s.head, expected, candidate, owned, cutsHold, boots) == Published {
      assert candidate == PointerOf(candidate.digest);
      PublishedExtends(s, expected, candidate);
      InstallKeeps(s, candidate);
      PhaseStays(s.store, s.store, s.history, s.history + {candidate}, accepted);
      AtKeeps(Install(s, candidate), w, accepted);
    }
  }

  lemma PublishedExtends(s: World, expected: Option<Pointer>, candidate: Pointer)
    requires Inv(s) && Candidate(s, expected, candidate) && candidate == PointerOf(candidate.digest)
    requires s.head == expected && s.head != Some(candidate) && ValidRequest(expected, candidate)
    ensures candidate.digest.previous == s.head && Ascending(candidate)
  {
    if expected.Some? && candidate.digest.previous.Some? {
      assert Durable(s.store, candidate.digest.previous.value) && Durable(s.store, expected.value);
    }
  }

  lemma PutKeeps(s: World, w: nat, owned: bool, cutsHold: bool, boots: bool)
    requires Inv(s) && w in s.phases && s.phases[w].Putting?
    ensures Inv(Advanced(s, w, owned, cutsHold, boots))
    ensures Grows(s.store, Advanced(s, w, owned, cutsHold, boots).store)
  {
    var phase := s.phases[w];
    assert PhaseOk(s.store, s.history, phase);
    var plan, done := phase.plan, phase.done;
    var refs := plan.record.refs;
    if done < |refs| {
      var put := PutExact(s.store, ObjectKey(refs[done].name), Blob(refs[done].content));
      if put.Some? {
        PhaseStays(s.store, put.value, s.history, s.history, phase);
        assert refs[..done + 1] == refs[..done] + [refs[done]];
      }
      WriteKeeps(s, w, ObjectKey(refs[done].name), Blob(refs[done].content), Putting(plan, done + 1));
    } else {
      var put := PutExact(s.store, RecordKey(plan.record), Descriptor(plan.record));
      assert refs[..done] == refs;
      if put.Some? {
        PhaseStays(s.store, put.value, s.history, s.history, phase);
      }
      WriteKeeps(s, w, RecordKey(plan.record), Descriptor(plan.record), Recorded(plan));
    }
  }

  lemma RequestKeeps(s: World, w: nat, owned: bool, cutsHold: bool, boots: bool)
    requires Inv(s) && w in s.phases && !s.phases[w].Idle? && !s.phases[w].Putting?
    ensures Inv(Advanced(s, w, owned, cutsHold, boots))
    ensures Advanced(s, w, owned, cutsHold, boots).store == s.store
    ensures Extends(s, Advanced(s, w, owned, cutsHold, boots))
  {
    var phase := s.phases[w];
    assert PhaseOk(s.store, s.history, phase);
    var plan, candidate := phase.plan, PointerOf(phase.plan.record);
    CandidateDurable(s, phase);
    match phase
    case Ready(_) =>
      AttemptKeeps(s, w, plan.previous, candidate, owned, Cuts(plan, cutsHold), boots, Idle,
                   if plan.cuts || plan.previous.None? then Idle else Conflicted(plan));
    case Restoring(_) =>
      if plan.previous.Some? {
        AttemptKeeps(s, w, None, plan.previous.value, owned, None, boots, Resuming(plan), Idle);
      }
    case Resuming(_) => AttemptKeeps(s, w, plan.previous, candidate, owned, None, boots, Idle, Idle);
    case _ =>
  }

  lemma StepKeepsInv(s: World, step: Step)
    requires Inv(s) && Enabled(s, step)
    ensures Inv(Next(s, step)) && Grows(s.store, Next(s, step).store) && Extends(s, Next(s, step))
  {
    match step
    case Begin(w, plan) => AtKeeps(s, w, Putting(plan, 0));
    case Advance(w, owned, cutsHold, boots) =>
      if s.phases[w].Putting? {
        PutKeeps(s, w, owned, cutsHold, boots);
      } else {
        RequestKeeps(s, w, owned, cutsHold, boots);
      }
    case Crash(w) => AtKeeps(s, w, Idle);
    case LoseHead =>
  }

  lemma {:induction false} RunKeepsInv(trace: seq<World>, steps: seq<Step>, i: nat)
    requires IsRun(trace, steps) && i < |trace|
    ensures Inv(trace[i])
  {
    if i > 0 {
      RunKeepsInv(trace, steps, i - 1);
      assert StepsTo(trace[i - 1], steps[i - 1], trace[i - 1 + 1]);
      StepKeepsInv(trace[i - 1], steps[i - 1]);
    }
  }

  // ---------------------------------------------------------------- safety over whole runs

  // The head always names a durable record with all it refers to and all its predecessors,
  // with epochs falling along the chain.
  lemma HeadIsDurable(trace: seq<World>, steps: seq<Step>, i: nat)
    requires IsRun(trace, steps) && i < |trace| && trace[i].head.Some?
    ensures Durable(trace[i].store, trace[i].head.value) && Ascending(trace[i].head.value)
  {
    RunKeepsInv(trace, steps, i);
  }

  // No object is ever removed or changed, and what was once published stays durable.
  lemma PublishedStays(trace: seq<World>, steps: seq<Step>, i: nat, j: nat, p: Pointer)
    requires IsRun(trace, steps) && i <= j < |trace|
    ensures Grows(trace[i].store, trace[j].store)
    ensures p in trace[i].history ==> p in trace[j].history && Durable(trace[j].store, p)
  {
    RunGrows(trace, steps, i, j);
    RunKeepsInv(trace, steps, j);
  }

  lemma {:induction false} RunGrows(trace: seq<World>, steps: seq<Step>, i: nat, j: nat)
    requires IsRun(trace, steps) && i <= j < |trace|
    ensures Grows(trace[i].store, trace[j].store) && trace[i].history <= trace[j].history
    decreases j
  {
    if i < j {
      var n: nat := j - 1;
      RunGrows(trace, steps, i, n);
      StepGrows(trace, steps, n);
      GrowsOn(trace[i], trace[n], trace[j]);
    }
  }

  lemma GrowsOn(a: World, b: World, c: World)
    requires Grows(a.store, b.store) && Grows(b.store, c.store) && a.history <= b.history <= c.history
    ensures Grows(a.store, c.store) && a.history <= c.history
  {
  }

  lemma StepGrows(trace: seq<World>, steps: seq<Step>, n: nat)
    requires IsRun(trace, steps) && n < |steps|
    ensures Grows(trace[n].store, trace[n + 1].store) && trace[n].history <= trace[n + 1].history
  {
    RunKeepsInv(trace, steps, n);
    assert StepsTo(trace[n], steps[n], trace[n + 1]);
    StepKeepsInv(trace[n], steps[n]);
  }

  // ---------------------------------------------------------------- one lineage

  // Every checkpoint ever published is the latest one or one of its predecessors.
  ghost predicate Unforked(s: World) {
    forall p :: p in s.history ==> s.tip.Some? && p in Chain(s.tip.value)
  }

  // What a step is about to publish where there is no head: a persister restores the first
  // checkpoint it built on, or offers a checkpoint without predecessor.
  function Republishes(s: World, step: Step): Option<Pointer>
    requires Enabled(s, step)
  {
    if !step.Advance? || !step.owned || !step.boots then None
    else
      match s.phases[step.w]
      case Restoring(plan) => if plan.previous.Some? && IsRoot(plan.previous.value) then plan.previous else None
      case Ready(plan) => if plan.previous.None? && (plan.cuts ==> step.cutsHold) then Some(PointerOf(plan.record)) else None
      case _ => None
  }

  // A step strays when the head is lost and it is about to publish something else than what
  // was lost.
  predicate Strays(s: World, step: Step)
    requires Enabled(s, step)
  {
    s.head == None && s.tip.Some? && Republishes(s, step).Some? && Republishes(s, step) != s.tip
  }

  // A request on an empty head installs its candidate exactly when it expects none and is accepted.
  lemma EmptyAttempt(s: World, w: nat, expected: Option<Pointer>, candidate: Pointer, owned: bool, cutsHold: Option<bool>, boots: bool,
                     accepted: Phase, refused: Phase)
    requires s.head == None
    ensures Attempt(s, w, expected, candidate, owned, cutsHold, boots, accepted, refused).head
         == if owned && expected.None? && IsRoot(candidate) && cutsHold != Some(false) && boots then Some(candidate) else None
  {
  }

  lemma EmptyAdvance(s: World, w: nat, owned: bool, cutsHold: bool, boots: bool)
    requires s.head == None && w in s.phases && !s.phases[w].Idle? && PhaseOk(s.store, s.history, s.phases[w])
    ensures Advanced(s, w, owned, cutsHold, boots).head == Republishes(s, Advance(w, owned, cutsHold, boots))
  {
    var plan := s.phases[w].plan;
    var candidate := PointerOf(plan.record);
    match s.phases[w]
    case Ready(_) =>
      var retry := if plan.cuts || plan.previous.None? then Idle else Conflicted(plan);
      EmptyAttempt(s, w, plan.previous, candidate, owned, Cuts(plan, cutsHold), boots, Idle, retry);
    case Restoring(_) => EmptyAttempt(s, w, None, plan.previous.value, owned, None, boots, Resuming(plan), Idle);
    case Resuming(_) => EmptyAttempt(s, w, plan.previous, candidate, owned, None, boots, Idle, Idle);
    case _ =>
  }

  // On an empty head that is exactly what a step installs.
  lemma EmptyHeadTakes(s: World, step: Step)
    requires Inv(s) && Enabled(s, step) && s.head == None
    ensures Next(s, step).head == Republishes(s, step)
  {
    if step.Advance? {
      assert PhaseOk(s.store, s.history, s.phases[step.w]);
      EmptyAdvance(s, step.w, step.owned, step.cutsHold, step.boots);
    }
  }

  // A step keeps one lineage exactly when it does not stray.
  lemma ForksExactlyWhen(s: World, step: Step)
    requires Inv(s) && Unforked(s) && Enabled(s, step)
    ensures Unforked(Next(s, step)) <==> !Strays(s, step)
  {
    StepKeepsInv(s, step);
    if s.head == None {
      EmptyHeadTakes(s, step);
    }
    InstalledKeeps(s, Next(s, step));
  }

  lemma InstalledKeeps(s: World, t: World)
    requires Inv(s) && Inv(t) && Unforked(s) && Extends(s, t)
    ensures Unforked(t) <==> !(s.head == None && s.tip.Some? && t.head.Some? && t.head != s.tip)
  {
    if t.head.Some? && t.head != s.head {
      var p := t.head.value;
      assert Chain(p) == [p] + if s.head.Some? then Chain(s.head.value) else [];
      if s.head.None? && s.tip.Some? {
        assert s.tip.value in t.history;
        if s.tip == Some(p) {
          assert forall q :: q in t.history ==> q in Chain(p);
        }
      }
    }
  }

  // A lost head comes back to what was lost only when that was the first checkpoint of its
  // lineage: no step at all restores a later one.
  lemma LostHeadReturnsOnlyToFirst(s: World, step: Step)
    requires Inv(s) && Enabled(s, step) && s.head == None && s.tip.Some?
    ensures Next(s, step).head == s.tip <==> Republishes(s, step) == s.tip
    ensures !IsRoot(s.tip.value) ==> Next(s, step).head != s.tip
  {
    EmptyHeadTakes(s, step);
    if step.Advance? {
      assert PhaseOk(s.store, s.history, s.phases[step.w]);
    }
  }

  lemma InitUnforked(s: World)
    requires Init(s)
    ensures Unforked(s)
  {
  }

  predicate CarefulAt(s: World, step: Step) {
    Enabled(s, step) ==> !Strays(s, step)
  }

  // None of the first steps of a run strays.
  ghost predicate Careful(trace: seq<World>, steps: seq<Step>, n: nat)
    requires n <= |steps| < |trace|
  {
    forall i :: 0 <= i < n ==> CarefulAt(trace[i], steps[i])
  }

  lemma {:induction false} CarefulIsUnforked(trace: seq<World>, steps: seq<Step>, n: nat)
    requires IsRun(trace, steps) && n < |trace| && Careful(trace, steps, n)
    ensures Unforked(trace[n])
  {
    if n == 0 {
      InitUnforked(trace[0]);
    } else {
      CarefulIsUnforked(trace, steps, n - 1);
      RunKeepsInv(trace, steps, n - 1);
      assert StepsTo(trace[n - 1], steps[n - 1], trace[n - 1 + 1]) && CarefulAt(trace[n - 1], steps[n - 1]);
      ForksExactlyWhen(trace[n - 1], steps[n - 1]);
    }
  }

  // A run keeps one lineage in all its states exactly when no step of it strays, whatever else
  // it does: heads may be lost, persisters crash anywhere and attempts be repeated.
  lemma OneLineage(trace: seq<World>, steps: seq<Step>)
    requires IsRun(trace, steps)
    ensures (forall i :: 0 <= i < |trace| ==> Unforked(trace[i])) <==> Careful(trace, steps, |steps|)
  {
    if Careful(trace, steps, |steps|) {
      forall i | 0 <= i < |trace| ensures Unforked(trace[i]) {
        CarefulIsUnforked(trace, steps, i);
      }
    }
    if forall i :: 0 <= i < |trace| ==> Unforked(trace[i]) {
      forall i | 0 <= i < |steps| ensures CarefulAt(trace[i], steps[i]) {
        RunKeepsInv(trace, steps, i);
        assert StepsTo(trace[i], steps[i], trace[i + 1]);
        ForksExactlyWhen(trace[i], steps[i]);
      }
    }
  }

  // The persister that acts built on what is now the latest checkpoint.
  predicate HoldsTip(s: World, step: Step) {
    step.Advance? && step.w in s.phases && !s.phases[step.w].Idle? ==> s.phases[step.w].plan.previous == s.tip
  }

  // A restoration may be interrupted and rerun any number of times: as long as those that act on
  // a lost head built on the checkpoint that was lost, the run keeps one lineage.
  lemma RerunsKeepOneLineage(trace: seq<World>, steps: seq<Step>)
    requires IsRun(trace, steps)
    requires forall i :: 0 <= i < |steps| && trace[i].head == None && trace[i].tip.Some? ==> HoldsTip(trace[i], steps[i])
    ensures forall i :: 0 <= i < |trace| ==> Unforked(trace[i])
  {
    forall i | 0 <= i < |steps| ensures CarefulAt(trace[i], steps[i]) {
    }
    OneLineage(trace, steps);
  }

  // ---------------------------------------------------------------- two runs that fork

  lemma JoinPaths(a: seq<World>, x: seq<Step>, b: seq<World>, y: seq<Step>)
    requires IsPath(a, x) && IsPath(b, y) && a[|a| - 1] == b[0]
    ensures IsPath(a + b[1..], x + y) && (a + b[1..])[0] == a[0] && (a + b[1..])[|x| + |y|] == b[|b| - 1]
  {
    var trace, steps := a + b[1..], x + y;
    forall i | 0 <= i < |steps| ensures StepsTo(trace[i], steps[i], trace[i + 1]) {
      if i < |x| {
        assert trace[i] == a[i] && trace[i + 1] == a[i + 1] && StepsTo(a[i], x[i], a[i + 1]);
      } else {
        assert trace[i] == b[i - |x|] && trace[i + 1] == b[i - |x| + 1] && StepsTo(b[i - |x|], y[i - |x|], b[i - |x| + 1]);
      }
    }
  }

  ghost predicate Reaches(s: World, t: World) {
    exists trace, steps :: IsPath(trace, steps) && trace[0] == s && trace[|steps|] == t
  }

  lemma ReachesTrans(s: World, t: World, u: World)
    requires Reaches(s, t) && Reaches(t, u)
    ensures Reaches(s, u)
  {
    var a, x :| IsPath(a, x) && a[0] == s && a[|x|] == t;
    var b, y :| IsPath(b, y) && b[0] == t && b[|y|] == u;
    JoinPaths(a, x, b, y);
  }

  lemma ReachesStep(s: World, step: Step)
    requires Enabled(s, step)
    ensures Reaches(s, Next(s, step))
  {
    assert StepsTo(s, step, Next(s, step));
    assert IsPath([s, Next(s, step)], [step]);
  }

  // A plan without other objects whose record was not written yet.
  ghost predicate Fresh(s: World, plan: Plan) {
    plan.record.refs == [] && !plan.cuts && PlanOk(s.history, plan) && RecordKey(plan.record) !in s.store
  }

  function Prepared(s: World, w: nat, plan: Plan): World {
    s.(store := s.store[RecordKey(plan.record) := Descriptor(plan.record)], phases := s.phases[w := Ready(plan)])
  }

  // A persister writes its record and reads it back.
  lemma Prepare(s: World, w: nat, plan: Plan)
    requires Fresh(s, plan)
    ensures Reaches(s, Prepared(s, w, plan))
  {
    var go := Advance(w, true, true, true);
    var a := Next(s, Begin(w, plan));
    var b := Next(a, go);
    var c := Next(b, go);
    ReachesStep(s, Begin(w, plan));
    ReachesStep(a, go);
    ReachesStep(b, go);
    ReachesTrans(s, a, b);
    ReachesTrans(s, b, c);
    assert c.phases == s.phases[w := Ready(plan)];
    assert c == Prepared(s, w, plan);
  }

  // It publishes over the head it built on.
  lemma Publish(s: World, w: nat, plan: Plan)
    requires Fresh(s, plan) && s.head == plan.previous && ValidRequest(plan.previous, PointerOf(plan.record))
    requires plan.previous != Some(PointerOf(plan.record))
    ensures Reaches(s, At(Install(Prepared(s, w, plan), PointerOf(plan.record)), w, Idle))
  {
    Prepare(s, w, plan);
    ReachesStep(Prepared(s, w, plan), Advance(w, true, true, true));
    ReachesTrans(s, Prepared(s, w, plan), Next(Prepared(s, w, plan), Advance(w, true, true, true)));
  }

  // It finds the head gone and the checkpoint it built on still stored.
  lemma Discover(s: World, w: nat, plan: Plan)
    requires w in s.phases && s.phases[w] == Ready(plan) && !plan.cuts && s.head == None && plan.previous.Some?
    requires ValidRequest(plan.previous, PointerOf(plan.record)) && Stored(s.store, plan.previous.value)
    ensures Reaches(s, At(s, w, Restoring(plan)))
  {
    var go := Advance(w, true, true, true);
    var a := Next(s, go);
    var b := Next(a, go);
    var c := Next(b, go);
    assert a == At(s, w, Conflicted(plan));
    assert b == At(a, w, Emptied(plan));
    assert c == At(b, w, Restoring(plan));
    ReachesStep(s, go);
    ReachesStep(a, go);
    ReachesStep(b, go);
    ReachesTrans(s, a, b);
    ReachesTrans(s, b, c);
    assert c.phases == s.phases[w := Restoring(plan)];
  }

  // A run that ends with a straying step and with a published checkpoint no longer among the
  // predecessors of the head.
  ghost predicate ForkingRun(trace: seq<World>, steps: seq<Step>) {
    && IsRun(trace, steps) && steps != []
    && (var n := |steps| - 1;
        && StepsTo(trace[n], steps[n], trace[n + 1]) && Unforked(trace[n]) && Strays(trace[n], steps[n])
        && trace[n + 1].head.Some? && !Unforked(trace[n + 1]))
  }

  // A run that ends with a straying step of one persister, in that phase of it.
  ghost predicate ForkedBy(trace: seq<World>, steps: seq<Step>, w: nat, phase: Phase) {
    && ForkingRun(trace, steps) && w in trace[|steps| - 1].phases && trace[|steps| - 1].phases[w] == phase
    && steps[|steps| - 1].Advance? && steps[|steps| - 1].w == w
  }

  lemma StrayingRun(s: World, t: World, step: Step)
    requires Init(s) && Reaches(s, t) && Enabled(t, step) && Unforked(t) && Strays(t, step)
    ensures exists trace, steps :: ForkedBy(trace, steps, step.w, t.phases[step.w])
  {
    var a, x :| IsPath(a, x) && a[0] == s && a[|x|] == t;
    assert StepsTo(t, step, Next(t, step));
    assert IsPath([t, Next(t, step)], [step]);
    JoinPaths(a, x, [t, Next(t, step)], [step]);
    RunKeepsInv(a, x, |x|);
    ForksExactlyWhen(t, step);
    EmptyHeadTakes(t, step);
    var trace, steps := a + [t, Next(t, step)][1..], x + [step];
    assert trace[|x|] == t && trace[|x| + 1] == Next(t, step);
    assert ForkedBy(trace, steps, step.w, t.phases[step.w]);
  }

  ghost function Empty(): World {
    World(map[], None, None, {}, map[])
  }

  // A checkpoint is published, the head is lost, and a persister that starts on the empty head
  // publishes another first checkpoint.
  lemma FreshPersisterForks()
    ensures exists trace, steps, plan :: ForkedBy(trace, steps, 0, Ready(plan))
  {
    var first, other := Record(1, "a", [], None), Record(1, "b", [], None);
    var s, one, two := Empty(), Plan(None, first, false), Plan(None, other, false);
    Publish(s, 0, one);
    var a := At(Install(Prepared(s, 0, one), PointerOf(first)), 0, Idle);
    ReachesStep(a, LoseHead);
    var b := Next(a, LoseHead);
    Prepare(b, 0, two);
    var c := Prepared(b, 0, two);
    ReachesTrans(s, a, b);
    ReachesTrans(s, b, c);
    assert c.history == {PointerOf(first)} && Chain(PointerOf(first)) == [PointerOf(first)];
    StrayingRun(s, c, Advance(0, true, true, true));
  }

  function FirstRecord(): Record { Record(1, "a", [], None) }

  function SecondRecord(): Record { Record(2, "b", [], Some(PointerOf(FirstRecord()))) }

  function StalePlan(): Plan {
    Plan(Some(PointerOf(FirstRecord())), Record(2, "c", [], Some(PointerOf(FirstRecord()))), false)
  }

  // Two checkpoints are published, a persister still holds the first, and the head is lost.
  ghost function StaleWorld(): World {
    var p, q := PointerOf(FirstRecord()), PointerOf(SecondRecord());
    World(map[RecordKey(FirstRecord()) := Descriptor(FirstRecord()), RecordKey(StalePlan().record) := Descriptor(StalePlan().record),
              RecordKey(SecondRecord()) := Descriptor(SecondRecord())],
          None, Some(q), {p, q}, map[0 := Idle, 1 := Ready(StalePlan())])
  }

  lemma StaleIsReached()
    ensures Reaches(Empty(), StaleWorld())
  {
    var p := PointerOf(FirstRecord());
    var one, two := Plan(None, FirstRecord(), false), Plan(Some(p), SecondRecord(), false);
    var s := Empty();
    Publish(s, 0, one);
    var a := At(Install(Prepared(s, 0, one), p), 0, Idle);
    Prepare(a, 1, StalePlan());
    var b := Prepared(a, 1, StalePlan());
    Publish(b, 0, two);
    var c := At(Install(Prepared(b, 0, two), PointerOf(SecondRecord())), 0, Idle);
    ReachesStep(c, LoseHead);
    var d := Next(c, LoseHead);
    ReachesTrans(s, a, b);
    ReachesTrans(s, b, c);
    ReachesTrans(s, c, d);
    assert d.phases == StaleWorld().phases && d.store == StaleWorld().store && d.history == StaleWorld().history;
  }

  // A second checkpoint is published while another persister still holds the first. The head is
  // lost, that persister restores the first, and the second is a predecessor of nothing.
  lemma StalePersisterForks()
    ensures exists trace, steps, plan :: ForkedBy(trace, steps, 1, Restoring(plan))
  {
    var d, p, q := StaleWorld(), PointerOf(FirstRecord()), PointerOf(SecondRecord());
    StaleIsReached();
    Discover(d, 1, StalePlan());
    var e := At(d, 1, Restoring(StalePlan()));
    ReachesTrans(Empty(), d, e);
    assert Chain(p) == [p];
    assert Chain(q) == [q, p];
    StrayingRun(Empty(), e, Advance(1, true, true, true));
  }
}
