/**
 The dependency closure of a demanded view
 (`demand_dependency_order_from_snapshot` in crates/velorix-api/src/demand_materialization.rs):
 a depth-first traversal with an explicit stack of entering and exiting frames.
 */
module Dependencies {
  import opened Wrappers

  type ViewId = nat

  // A published input of a view, and whether the captured declaration matches the producer.
  datatype Binding = Binding(producer: ViewId, current: bool)

  datatype View = View(runtime: bool, bindings: seq<Binding>)

  type Registry = map<ViewId, View>

  datatype ClosureError = Cycle | NoRuntime | ProducerAbsent | ProducerChanged

  datatype Frame = Frame(id: ViewId, exiting: bool)

  // ---------------------------------------------------------------- graph

  ghost predicate Produces(g: Registry, consumer: ViewId, producer: ViewId) {
    consumer in g && exists i :: 0 <= i < |g[consumer].bindings| && g[consumer].bindings[i].producer == producer
  }

  ghost predicate IsPath(g: Registry, p: seq<ViewId>) {
    p != [] && forall i :: 0 <= i < |p| - 1 ==> Produces(g, p[i], p[i + 1])
  }

  ghost predicate Reachable(g: Registry, from: ViewId, to: ViewId) {
    exists p :: IsPath(g, p) && p[0] == from && p[|p| - 1] == to
  }

  // A reachable view that depends on itself.
  ghost predicate ReachableCycle(g: Registry, target: ViewId) {
    exists p :: IsPath(g, p) && |p| > 1 && p[0] == p[|p| - 1] && Reachable(g, target, p[0])
  }

  // A view that cannot be resolved: no runtime, or a producer that is absent or has changed.
  ghost predicate Broken(g: Registry, v: ViewId) {
    v !in g || !g[v].runtime
    || exists i :: 0 <= i < |g[v].bindings| && (g[v].bindings[i].producer !in g || !g[v].bindings[i].current)
  }

  lemma ReachSelf(g: Registry, v: ViewId)
    ensures Reachable(g, v, v)
  {
    assert IsPath(g, [v]) && [v][0] == v && [v][|[v]| - 1] == v;
  }

  lemma ReachStep(g: Registry, a: ViewId, b: ViewId, c: ViewId)
    requires Reachable(g, a, b) && Produces(g, b, c)
    ensures Reachable(g, a, c)
  {
    var p :| IsPath(g, p) && p[0] == a && p[|p| - 1] == b;
    var q := p + [c];
    forall i | 0 <= i < |q| - 1 ensures Produces(g, q[i], q[i + 1]) {
      if i < |p| - 1 {
        assert q[i] == p[i] && q[i + 1] == p[i + 1];
      }
    }
    assert IsPath(g, q) && q[0] == a && q[|q| - 1] == c;
  }

  // ---------------------------------------------------------------- producers of one view

  // The distinct producers of a view in ascending order.
  method ProducersOf(g: Registry, v: ViewId) returns (r: Result<seq<ViewId>, ClosureError>)
    requires v in g
    ensures r.Ok? <==> !Broken(g, v)
    ensures r.Err? ==> r.error != Cycle
    ensures r.Ok? ==>
      && (forall p :: p in r.value <==> Produces(g, v, p))
      && (forall i, j :: 0 <= i < j < |r.value| ==> r.value[i] < r.value[j])
      && (forall p :: p in r.value ==> p in g)
  {
    if !g[v].runtime {
      return Err(NoRuntime);
    }
    var bindings := g[v].bindings;
    var producers: seq<ViewId> := [];
    var i := 0;
    while i < |bindings|
      invariant 0 <= i <= |bindings|
      invariant forall j :: 0 <= j < i ==> bindings[j].producer in g && bindings[j].current
      invariant forall p :: p in producers <==> exists j :: 0 <= j < i && bindings[j].producer == p
      invariant forall a, b :: 0 <= a < b < |producers| ==> producers[a] < producers[b]
    {
      var binding := bindings[i];
      if binding.producer !in g {
        return Err(ProducerAbsent);
      }
      if !binding.current {
        return Err(ProducerChanged);
      }
      producers := InsertSorted(producers, binding.producer);
      i := i + 1;
    }
    r := Ok(producers);
  }

  method InsertSorted(s: seq<ViewId>, x: ViewId) returns (r: seq<ViewId>)
    requires forall a, b :: 0 <= a < b < |s| ==> s[a] < s[b]
    ensures forall a, b :: 0 <= a < b < |r| ==> r[a] < r[b]
    ensures forall p :: p in r <==> p in s || p == x
  {
    var k := 0;
    while k < |s| && s[k] < x
      invariant 0 <= k <= |s|
      invariant forall a :: 0 <= a < k ==> s[a] < x
    {
      k := k + 1;
    }
    if k < |s| && s[k] == x {
      return s;
    }
    assert s == s[..k] + s[k..];
    r := s[..k] + [x] + s[k..];
  }

  // ---------------------------------------------------------------- the traversal

  // The views being visited, outermost first: the exiting frames from bottom to top.
  ghost function Visiting(stack: seq<Frame>): seq<ViewId> {
    if stack == [] then []
    else
      var top := stack[|stack| - 1];
      var rest := Visiting(stack[..|stack| - 1]);
      if top.exiting then rest + [top.id] else rest
  }

  // Every frame above the first was pushed for the innermost view visited below it.
  ghost predicate Linked(g: Registry, target: ViewId, stack: seq<Frame>) {
    stack == [] ||
    (var rest, top := stack[..|stack| - 1], stack[|stack| - 1];
     && Linked(g, target, rest)
     && (if rest == [] then top.id == target
         else Visiting(rest) != [] && Produces(g, Visiting(rest)[|Visiting(rest)| - 1], top.id)))
  }

  lemma {:induction false} VisitingIsPath(g: Registry, target: ViewId, stack: seq<Frame>)
    requires Linked(g, target, stack)
    ensures var v := Visiting(stack); v != [] ==> IsPath(g, v) && v[0] == target
    decreases |stack|
  {
    if stack != [] {
      var rest, top := stack[..|stack| - 1], stack[|stack| - 1];
      VisitingIsPath(g, target, rest);
      var v, w := Visiting(rest), Visiting(stack);
      if top.exiting && v != [] {
        forall i | 0 <= i < |w| - 1 ensures Produces(g, w[i], w[i + 1]) {
          if i < |v| - 1 {
            assert w[i] == v[i] && w[i + 1] == v[i + 1];
          }
        }
      }
    }
  }

  lemma FramesReachable(g: Registry, target: ViewId, stack: seq<Frame>)
    requires Linked(g, target, stack) && stack != []
    ensures Reachable(g, target, stack[|stack| - 1].id)
  {
    var rest, top := stack[..|stack| - 1], stack[|stack| - 1];
    if rest == [] {
      ReachSelf(g, target);
    } else {
      VisitingIsPath(g, target, rest);
      var v := Visiting(rest);
      assert Reachable(g, target, v[|v| - 1]);
      ReachStep(g, target, v[|v| - 1], top.id);
    }
  }

  // Meeting a view that is being visited closes a cycle through it.
  lemma MeetingIsCycle(g: Registry, target: ViewId, rest: seq<Frame>, id: ViewId)
    requires Linked(g, target, rest + [Frame(id, false)]) && id in Visiting(rest)
    ensures ReachableCycle(g, target)
  {
    var stack := rest + [Frame(id, false)];
    assert stack[..|stack| - 1] == rest;
    VisitingIsPath(g, target, rest);
    var v := Visiting(rest);
    var q :| 0 <= q < |v| && v[q] == id;
    var p := v[q..] + [id];
    forall i | 0 <= i < |p| - 1 ensures Produces(g, p[i], p[i + 1]) {
      if i < |v| - q - 1 {
        assert p[i] == v[q + i] && p[i + 1] == v[q + i + 1];
      }
    }
    assert IsPath(g, v[..q + 1]) && v[..q + 1][0] == target && v[..q + 1][|v[..q + 1]| - 1] == id;
    assert Reachable(g, target, p[0]);
    assert IsPath(g, p) && |p| > 1 && p[0] == p[|p| - 1];
  }

  // A list in which every producer stands before its consumers.
  ghost predicate Ordered(g: Registry, order: seq<ViewId>) {
    && (forall i, j :: 0 <= i < j < |order| ==> order[i] != order[j])
    && (forall i, p :: 0 <= i < |order| && Produces(g, order[i], p) ==> p in order[..i])
    && (forall i :: 0 <= i < |order| ==> !Broken(g, order[i]))
  }

  lemma {:induction false} PathStays(g: Registry, order: seq<ViewId>, p: seq<ViewId>)
    requires Ordered(g, order) && IsPath(g, p) && p[0] in order
    ensures p[|p| - 1] in order
    ensures forall i, j :: |p| > 1 && 0 <= i < |order| && 0 <= j < |order| && order[i] == p[0] && order[j] == p[|p| - 1] ==> j < i
    decreases |p|
  {
    if |p| > 1 {
      var i :| 0 <= i < |order| && order[i] == p[0];
      assert Produces(g, p[0], p[1]);
      assert p[1] in order[..i];
      var j :| 0 <= j < i && order[j] == p[1];
      assert IsPath(g, p[1..]) by {
        forall k | 0 <= k < |p[1..]| - 1 ensures Produces(g, p[1..][k], p[1..][k + 1]) {
          assert p[1..][k] == p[k + 1] && p[1..][k + 1] == p[k + 2];
        }
      }
      PathStays(g, order, p[1..]);
    }
  }

  // An ordered list that ends with the target and is closed under production is the closure,
  // and it has no cycle.
  lemma OrderedIsClosure(g: Registry, target: ViewId, order: seq<ViewId>)
    requires Ordered(g, order) && target in order
    ensures forall v :: Reachable(g, target, v) ==> v in order
    ensures !ReachableCycle(g, target)
  {
    forall v | Reachable(g, target, v) ensures v in order {
      var p :| IsPath(g, p) && p[0] == target && p[|p| - 1] == v;
      PathStays(g, order, p);
    }
    if ReachableCycle(g, target) {
      var p :| IsPath(g, p) && |p| > 1 && p[0] == p[|p| - 1] && Reachable(g, target, p[0]);
      PathStays(g, order, p);
      assert false;
    }
  }

  // ---------------------------------------------------------------- the traversal's invariant

  ghost predicate Above(stack: seq<Frame>, i: int, p: ViewId) {
    exists j :: 0 <= i < j < |stack| && stack[j].id == p
  }

  // A frame's view is registered; one being visited is sound, and each of its producers is
  // finished or still has a frame above it.
  ghost predicate FrameOk(g: Registry, stack: seq<Frame>, visiting: set<ViewId>, order: seq<ViewId>, i: int)
    requires 0 <= i < |stack|
  {
    && stack[i].id in g
    && (stack[i].exiting ==>
          && stack[i].id in visiting && !Broken(g, stack[i].id)
          && forall p :: Produces(g, stack[i].id, p) ==> p in order || Above(stack, i, p))
  }

  ghost predicate FramesOk(g: Registry, stack: seq<Frame>, visiting: set<ViewId>, order: seq<ViewId>) {
    forall i :: 0 <= i < |stack| ==> FrameOk(g, stack, visiting, order, i)
  }

  // The views being visited are those of the exiting frames, each once, and none is finished.
  ghost predicate VisitingOk(stack: seq<Frame>, visiting: set<ViewId>, order: seq<ViewId>) {
    && (forall v :: v in visiting ==> v in Visiting(stack) && v !in order)
    && (forall i, j :: 0 <= i < j < |Visiting(stack)| ==> Visiting(stack)[i] != Visiting(stack)[j])
  }

  ghost predicate OrderOk(g: Registry, target: ViewId, order: seq<ViewId>) {
    Ordered(g, order) && forall i :: 0 <= i < |order| ==> Reachable(g, target, order[i])
  }

  ghost predicate EndsOk(target: ViewId, stack: seq<Frame>, order: seq<ViewId>) {
    && (stack != [] ==> stack[0].id == target && target !in order && (!stack[0].exiting ==> |stack| == 1))
    && (stack == [] ==> order != [] && order[|order| - 1] == target)
  }

  ghost predicate TraversalOk(g: Registry, target: ViewId, stack: seq<Frame>, visiting: set<ViewId>, order: seq<ViewId>) {
    && Linked(g, target, stack)
    && FramesOk(g, stack, visiting, order)
    && VisitingOk(stack, visiting, order)
    && OrderOk(g, target, order)
    && EndsOk(target, stack, order)
  }

  // Dropping the top frame keeps the frames below, if its view is finished.
  lemma PopFrames(g: Registry, rest: seq<Frame>, top: Frame, visiting: set<ViewId>, order: seq<ViewId>,
                  visiting': set<ViewId>, order': seq<ViewId>)
    requires FramesOk(g, rest + [top], visiting, order)
    requires forall v :: v in order || v == top.id ==> v in order'
    requires forall i :: 0 <= i < |rest| && rest[i].exiting && rest[i].id in visiting ==> rest[i].id in visiting'
    ensures FramesOk(g, rest, visiting', order')
  {
    var stack := rest + [top];
    forall i | 0 <= i < |rest| ensures FrameOk(g, rest, visiting', order', i) {
      assert stack[i] == rest[i] && FrameOk(g, stack, visiting, order, i);
      forall p | rest[i].exiting && Produces(g, rest[i].id, p) ensures p in order' || Above(rest, i, p) {
        if p !in order' {
          var j :| 0 <= i < j < |stack| && stack[j].id == p;
          assert rest[j] == stack[j];
        }
      }
    }
  }

  lemma PopLinked(g: Registry, target: ViewId, rest: seq<Frame>, top: Frame)
    requires Linked(g, target, rest + [top])
    ensures Linked(g, target, rest)
    ensures Visiting(rest + [top]) == if top.exiting then Visiting(rest) + [top.id] else Visiting(rest)
  {
    var stack := rest + [top];
    assert stack[..|stack| - 1] == rest && stack[|stack| - 1] == top;
  }

  // Popping a view that is finished already.
  lemma SkipStep(g: Registry, target: ViewId, rest: seq<Frame>, id: ViewId, visiting: set<ViewId>, order: seq<ViewId>)
    requires TraversalOk(g, target, rest + [Frame(id, false)], visiting, order) && id in order
    ensures TraversalOk(g, target, rest, visiting, order)
  {
    PopLinked(g, target, rest, Frame(id, false));
    PopFrames(g, rest, Frame(id, false), visiting, order, visiting, order);
    assert rest != [] && rest[0] == (rest + [Frame(id, false)])[0];
  }

  lemma {:induction false} ExitingIsVisiting(stack: seq<Frame>, i: nat)
    requires i < |stack| && stack[i].exiting
    ensures stack[i].id in Visiting(stack)
    decreases |stack|
  {
    if i < |stack| - 1 {
      assert stack[..|stack| - 1][i] == stack[i];
      ExitingIsVisiting(stack[..|stack| - 1], i);
    }
  }

  // A view all of whose producers are finished may be appended.
  lemma Finish(g: Registry, target: ViewId, order: seq<ViewId>, id: ViewId)
    requires OrderOk(g, target, order) && id !in order && !Broken(g, id) && Reachable(g, target, id)
    requires forall p :: Produces(g, id, p) ==> p in order
    ensures OrderOk(g, target, order + [id])
  {
    var order' := order + [id];
    forall i, p | 0 <= i < |order'| && Produces(g, order'[i], p) ensures p in order'[..i] {
      if i < |order| {
        assert order'[..i] == order[..i] && order'[i] == order[i];
      } else {
        assert order'[..i] == order;
      }
    }
  }

  // Popping the exiting frame of a view: all its producers are finished by then.
  lemma ExitStep(g: Registry, target: ViewId, rest: seq<Frame>, id: ViewId, visiting: set<ViewId>, order: seq<ViewId>)
    requires TraversalOk(g, target, rest + [Frame(id, true)], visiting, order)
    ensures id !in order && id in visiting
    ensures TraversalOk(g, target, rest, visiting - {id}, order + [id])
  {
    var stack := rest + [Frame(id, true)];
    PopLinked(g, target, rest, Frame(id, true));
    var v := Visiting(stack);
    assert v[|v| - 1] == id && v[..|v| - 1] == Visiting(rest);
    assert FrameOk(g, stack, visiting, order, |rest|);
    forall i | 0 <= i < |rest| && rest[i].exiting ensures rest[i].id != id {
      ExitingIsVisiting(rest, i);
    }
    PopFrames(g, rest, Frame(id, true), visiting, order, visiting - {id}, order + [id]);
    FramesReachable(g, target, stack);
    forall p | Produces(g, id, p) ensures p in order {
    }
    Finish(g, target, order, id);
    assert rest != [] ==> rest[0] == stack[0];
  }

  // Pushing producer frames above the view being visited.
  lemma {:induction false} LinkedPush(g: Registry, target: ViewId, base: seq<Frame>, frames: seq<Frame>)
    requires Linked(g, target, base) && Visiting(base) != []
    requires forall i :: 0 <= i < |frames| ==>
               !frames[i].exiting && Produces(g, Visiting(base)[|Visiting(base)| - 1], frames[i].id)
    ensures Linked(g, target, base + frames) && Visiting(base + frames) == Visiting(base)
    decreases |frames|
  {
    if frames == [] {
      assert base + frames == base;
    } else {
      var front := frames[..|frames| - 1];
      LinkedPush(g, target, base, front);
      var stack := base + frames;
      assert stack[..|stack| - 1] == base + front && stack[|stack| - 1] == frames[|frames| - 1];
    }
  }

  ghost predicate ProducerFrames(g: Registry, id: ViewId, frames: seq<Frame>) {
    && (forall i :: 0 <= i < |frames| ==> !frames[i].exiting && Produces(g, id, frames[i].id) && frames[i].id in g)
    && (forall p :: Produces(g, id, p) ==> exists i :: 0 <= i < |frames| && frames[i].id == p)
  }

  lemma EnterFrames(g: Registry, rest: seq<Frame>, id: ViewId, visiting: set<ViewId>, order: seq<ViewId>, frames: seq<Frame>)
    requires FramesOk(g, rest + [Frame(id, false)], visiting, order)
    requires id in g && !Broken(g, id) && ProducerFrames(g, id, frames)
    ensures FramesOk(g, rest + [Frame(id, true)] + frames, visiting + {id}, order)
  {
    var was, stack := rest + [Frame(id, false)], rest + [Frame(id, true)] + frames;
    forall i | 0 <= i < |stack| ensures FrameOk(g, stack, visiting + {id}, order, i) {
      if i < |rest| {
        assert stack[i] == was[i] && FrameOk(g, was, visiting, order, i);
        forall p | stack[i].exiting && Produces(g, stack[i].id, p) ensures p in order || Above(stack, i, p) {
          if p !in order {
            var j :| 0 <= i < j < |was| && was[j].id == p;
            assert stack[j].id == was[j].id;
          }
        }
      } else if i == |rest| {
        forall p | Produces(g, id, p) ensures Above(stack, i, p) {
          var k :| 0 <= k < |frames| && frames[k].id == p;
          assert stack[|rest| + 1 + k] == frames[k];
        }
      } else {
        assert stack[i] == frames[i - |rest| - 1];
      }
    }
  }

  // Entering a view: its frame becomes an exiting one and its producers go above it.
  lemma EnterStep(g: Registry, target: ViewId, rest: seq<Frame>, id: ViewId, visiting: set<ViewId>, order: seq<ViewId>,
                  frames: seq<Frame>)
    requires TraversalOk(g, target, rest + [Frame(id, false)], visiting, order)
    requires id !in Visiting(rest) && id !in order && id in g && !Broken(g, id) && ProducerFrames(g, id, frames)
    ensures TraversalOk(g, target, rest + [Frame(id, true)] + frames, visiting + {id}, order)
  {
    var was, base := rest + [Frame(id, false)], rest + [Frame(id, true)];
    PopLinked(g, target, rest, Frame(id, false));
    EnterLinked(g, target, rest, id);
    LinkedPush(g, target, base, frames);
    EnterFrames(g, rest, id, visiting, order, frames);
    VisitMore(was, base + frames, visiting, order, id);
    assert (base + frames)[0] == if rest == [] then Frame(id, true) else was[0];
  }

  lemma EnterLinked(g: Registry, target: ViewId, rest: seq<Frame>, id: ViewId)
    requires Linked(g, target, rest + [Frame(id, false)])
    ensures Linked(g, target, rest + [Frame(id, true)])
    ensures Visiting(rest + [Frame(id, true)]) == Visiting(rest) + [id]
  {
    var was, base := rest + [Frame(id, false)], rest + [Frame(id, true)];
    assert was[..|was| - 1] == rest && base[..|base| - 1] == rest && base[|base| - 1] == Frame(id, true);
  }

  lemma VisitMore(was: seq<Frame>, stack: seq<Frame>, visiting: set<ViewId>, order: seq<ViewId>, id: ViewId)
    requires VisitingOk(was, visiting, order) && id !in order && id !in Visiting(was)
    requires Visiting(stack) == Visiting(was) + [id]
    ensures VisitingOk(stack, visiting + {id}, order)
  {
  }

  method PushProducers(base: seq<Frame>, producers: seq<ViewId>) returns (stack: seq<Frame>, ghost frames: seq<Frame>)
    ensures stack == base + frames
    ensures |frames| == |producers| && forall i :: 0 <= i < |frames| ==> frames[i] == Frame(producers[|producers| - 1 - i], false)
  {
    stack, frames := base, [];
    var j := |producers|;
    while j > 0
      invariant 0 <= j <= |producers| && |frames| == |producers| - j
      invariant stack == base + frames
      invariant forall i :: 0 <= i < |frames| ==> frames[i] == Frame(producers[|producers| - 1 - i], false)
    {
      j := j - 1;
      frames := frames + [Frame(producers[j], false)];
      stack := stack + [Frame(producers[j], false)];
    }
  }

  lemma PushedAreProducers(g: Registry, id: ViewId, producers: seq<ViewId>, frames: seq<Frame>)
    requires forall p :: p in producers <==> Produces(g, id, p)
    requires forall p :: p in producers ==> p in g
    requires |frames| == |producers| && forall i :: 0 <= i < |frames| ==> frames[i] == Frame(producers[|producers| - 1 - i], false)
    ensures ProducerFrames(g, id, frames)
  {
    forall p | Produces(g, id, p) ensures exists i :: 0 <= i < |frames| && frames[i].id == p {
      var k :| 0 <= k < |producers| && producers[k] == p;
      assert frames[|producers| - 1 - k].id == p;
    }
  }

  // Visits one view for the first time.
  method Enter(g: Registry, target: ViewId, rest: seq<Frame>, id: ViewId, ghost visiting: set<ViewId>, ghost order: seq<ViewId>)
    returns (r: Result<seq<Frame>, ClosureError>)
    requires TraversalOk(g, target, rest + [Frame(id, false)], visiting, order)
    requires id in g && id !in visiting && id !in order
    ensures r.Ok? ==> TraversalOk(g, target, r.value, visiting + {id}, order)
    ensures r.Err? ==> r.error != Cycle && Broken(g, id)
  {
    var producers := ProducersOf(g, id);
    if producers.Err? {
      return Err(producers.error);
    }
    var stack;
    ghost var frames;
    stack, frames := PushProducers(rest + [Frame(id, true)], producers.value);
    PushedAreProducers(g, id, producers.value, frames);
    VisitingIsTracked(g, target, rest, Frame(id, false), visiting, order, id);
    EnterStep(g, target, rest, id, visiting, order, frames);
    r := Ok(stack);
  }

  lemma VisitingIsTracked(g: Registry, target: ViewId, rest: seq<Frame>, top: Frame, visiting: set<ViewId>, order: seq<ViewId>,
                          v: ViewId)
    requires TraversalOk(g, target, rest + [top], visiting, order) && !top.exiting
    ensures v in visiting <==> v in Visiting(rest)
  {
    var stack := rest + [top];
    PopLinked(g, target, rest, top);
    if v in Visiting(rest) {
      VisitingMembers(rest, v);
      var i :| 0 <= i < |rest| && rest[i].exiting && rest[i].id == v;
      assert stack[i] == rest[i] && FrameOk(g, stack, visiting, order, i);
    }
  }

  lemma {:induction false} VisitingMembers(stack: seq<Frame>, v: ViewId)
    requires v in Visiting(stack)
    ensures exists i :: 0 <= i < |stack| && stack[i].exiting && stack[i].id == v
    decreases |stack|
  {
    var rest, top := stack[..|stack| - 1], stack[|stack| - 1];
    if v in Visiting(rest) {
      VisitingMembers(rest, v);
      var i :| 0 <= i < |rest| && rest[i].exiting && rest[i].id == v;
      assert stack[i] == rest[i];
    }
  }

  // What a resolved closure is: every reachable view once, producers before their consumers,
  // the target last.
  ghost predicate Closure(g: Registry, target: ViewId, order: seq<ViewId>) {
    && Ordered(g, order) && order != [] && order[|order| - 1] == target
    && forall v :: v in order <==> Reachable(g, target, v)
  }

  ghost predicate Resolvable(g: Registry, target: ViewId) {
    !ReachableCycle(g, target) && forall v :: Reachable(g, target, v) ==> !Broken(g, v)
  }

  lemma Resolved(g: Registry, target: ViewId, order: seq<ViewId>)
    requires TraversalOk(g, target, [], {}, order)
    ensures Closure(g, target, order) && Resolvable(g, target)
  {
    OrderedIsClosure(g, target, order);
  }

  // Resolves the requested view's transitive producers. It succeeds exactly when no reachable
  // view is broken and none depends on itself; a shared producer is no cycle.
  method DependencyOrder(g: Registry, target: ViewId) returns (r: Result<seq<ViewId>, ClosureError>)
    requires target in g
    ensures r.Ok? <==> Resolvable(g, target)
    ensures r.Ok? ==> Closure(g, target, r.value)
    ensures r.Err? && r.error == Cycle ==> ReachableCycle(g, target)
    ensures r.Err? && r.error != Cycle ==> exists v :: Reachable(g, target, v) && Broken(g, v)
  {
    var stack := [Frame(target, false)];
    var visiting: set<ViewId> := {};
    var complete: set<ViewId> := {};
    var order: seq<ViewId> := [];
    assert stack[..0] == [];
    assert Linked(g, target, []);
    ghost var entered: set<ViewId> := {};
    while stack != []
      invariant TraversalOk(g, target, stack, visiting, order)
      invariant forall v :: v in complete <==> v in order
      invariant entered == visiting + complete
      decreases g.Keys - entered, |stack|
    {
      var rest, top := stack[..|stack| - 1], stack[|stack| - 1];
      assert stack == rest + [Frame(top.id, top.exiting)];
      if top.exiting {
        ExitStep(g, target, rest, top.id, visiting, order);
        visiting := visiting - {top.id};
        if top.id !in complete {
          complete := complete + {top.id};
          order := order + [top.id];
        }
        stack := rest;
      } else if top.id in complete {
        SkipStep(g, target, rest, top.id, visiting, order);
        stack := rest;
      } else if top.id in visiting {
        VisitingIsTracked(g, target, rest, top, visiting, order, top.id);
        MeetingIsCycle(g, target, rest, top.id);
        return Err(Cycle);
      } else {
        FramesReachable(g, target, stack);
        assert FrameOk(g, stack, visiting, order, |rest|);
        var entering := Enter(g, target, rest, top.id, visiting, order);
        if entering.Err? {
          return Err(entering.error);
        }
        stack := entering.value;
        visiting := visiting + {top.id};
        assert top.id in g.Keys - entered;
        entered := entered + {top.id};
      }
    }
    assert visiting == {};
    Resolved(g, target, order);
    r := Ok(order);
  }
}
