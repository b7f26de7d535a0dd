/**
 MainThreadDispatcher: a process-wide FIFO of deferred actions, drained on
 the frame thread, and the lazily bound singleton component that owns it.

 The concurrent queue is modelled sequentially as a `seq`. An action is an
 opaque id; what running it does, as far as the queue can tell, is the list
 of `Enqueue` calls it makes (`None` standing for a null delegate).
 */
module Dispatcher {

  datatype Option<T> = None | Some(value: T)

  /** An opaque delegate. */
  type Action = nat

  /** The `Enqueue` calls an action makes while it runs, in call order. */
  type Behaviour = Action -> seq<Option<Action>>

  // ---------------------------------------------------------------------
  // The queue
  // ---------------------------------------------------------------------

  /** The non-null delegates of a list of `Enqueue` calls, in call order. */
  function Present(calls: seq<Option<Action>>): (r: seq<Action>)
    ensures |r| <= |calls|
  {
    if |calls| == 0 then []
    else (if calls[0].Some? then [calls[0].value] else []) + Present(calls[1..])
  }

  /** `Enqueue`: a null delegate is ignored; any other is appended at the
      tail, and the actions already queued keep their places. */
  function Enqueue(queue: seq<Action>, action: Option<Action>): (r: seq<Action>)
    ensures action.None? ==> r == queue
    ensures action.Some? ==> |r| == |queue| + 1 && r[|queue|] == action.value
    ensures r[..|queue|] == queue
  {
    match action
    case None => queue
    case Some(a) => queue + [a]
  }

  /** Several `Enqueue` calls one after another. */
  function EnqueueAll(queue: seq<Action>, calls: seq<Option<Action>>): (r: seq<Action>)
    ensures r == queue + Present(calls)
    decreases |calls|
  {
    if |calls| == 0 then queue
    else
      var q1 := Enqueue(queue, calls[0]);
      assert Present(calls) == Present(calls[..1]) + Present(calls[1..]);
      EnqueueAll(q1, calls[1..])
  }

  /** Everything the actions in `ran`, run in that order, put on the queue. */
  function Spawned(ran: seq<Action>, behaviour: Behaviour): seq<Action>
  {
    if |ran| == 0 then [] else Present(behaviour(ran[0])) + Spawned(ran[1..], behaviour)
  }

  lemma {:induction false} SpawnedAppend(a: seq<Action>, b: seq<Action>, behaviour: Behaviour)
    ensures Spawned(a + b, behaviour) == Spawned(a, behaviour) + Spawned(b, behaviour)
    decreases |a|
  {
    if |a| == 0 {
      assert a + b == b;
    } else {
      assert (a + b)[1..] == a[1..] + b;
      SpawnedAppend(a[1..], b, behaviour);
    }
  }

  /** Splitting the run at position `i`. */
  lemma {:induction false} SpawnedSplit(ran: seq<Action>, i: nat, behaviour: Behaviour)
    requires i < |ran|
    ensures Spawned(ran, behaviour)
            == Spawned(ran[..i], behaviour) + Present(behaviour(ran[i])) + Spawned(ran[i + 1..], behaviour)
  {
    assert ran == (ran[..i] + [ran[i]]) + ran[i + 1..];
    SpawnedAppend(ran[..i] + [ran[i]], ran[i + 1..], behaviour);
    SpawnedAppend(ran[..i], [ran[i]], behaviour);
    assert [ran[i]][1..] == [];
  }

  /** The outcome of one `Update`: the actions run, in order, and what is
      still queued when it stopped. */
  datatype Drained = Drained(ran: seq<Action>, pending: seq<Action>)

  /** `Update`'s drain loop: dequeue the oldest action and run it, until
      `TryDequeue` finds the queue empty. Actions may enqueue more actions,
      which the same loop then picks up, so the loop need not end; `fuel`
      bounds how many actions this model runs. */
  function Drain(queue: seq<Action>, behaviour: Behaviour, fuel: nat): (r: Drained)
    // it stops only on an empty queue or when the bound is reached
    ensures r.pending == [] || |r.ran| == fuel
    ensures |r.ran| <= fuel
    // what ran, followed by what is still queued, is the original queue
    // followed by everything the run actions enqueued: nothing lost,
    // nothing duplicated, nothing reordered
    ensures r.ran + r.pending == queue + Spawned(r.ran, behaviour)
    // the queue was never empty when an action was dequeued
    ensures forall i :: 0 <= i < |r.ran| ==> i < |queue| + |Spawned(r.ran[..i], behaviour)|
    decreases fuel
  {
    if |queue| == 0 || fuel == 0 then Drained([], queue)
    else
      var a := queue[0];
      var rest := Drain(EnqueueAll(queue[1..], behaviour(a)), behaviour, fuel - 1);
      var own := Present(behaviour(a));
      DrainStepKeepsLedger(queue, own, rest.ran, rest.pending, behaviour);
      DrainStepKeepsNonEmpty(queue, own, rest.ran, behaviour);
      Drained([a] + rest.ran, rest.pending)
  }

  /** One dequeue-and-run step keeps the ledger of `Drain`. */
  lemma DrainStepKeepsLedger(queue: seq<Action>, own: seq<Action>, ran: seq<Action>, pending: seq<Action>,
                             behaviour: Behaviour)
    requires |queue| > 0 && own == Present(behaviour(queue[0]))
    requires ran + pending == (queue[1..] + own) + Spawned(ran, behaviour)
    ensures ([queue[0]] + ran) + pending == queue + Spawned([queue[0]] + ran, behaviour)
  {
    var a := queue[0];
    assert ([a] + ran)[1..] == ran;
    assert Spawned([a] + ran, behaviour) == own + Spawned(ran, behaviour);
    calc {
      ([a] + ran) + pending;
      [a] + (ran + pending);
      [a] + ((queue[1..] + own) + Spawned(ran, behaviour));
      ([a] + queue[1..]) + (own + Spawned(ran, behaviour));
      { assert queue == [a] + queue[1..]; }
      queue + Spawned([a] + ran, behaviour);
    }
  }

  /** One dequeue-and-run step keeps "never dequeued from an empty queue". */
  lemma DrainStepKeepsNonEmpty(queue: seq<Action>, own: seq<Action>, ran: seq<Action>, behaviour: Behaviour)
    requires |queue| > 0 && own == Present(behaviour(queue[0]))
    requires forall i :: 0 <= i < |ran| ==> i < |queue[1..] + own| + |Spawned(ran[..i], behaviour)|
    ensures forall i :: 0 <= i < |[queue[0]] + ran| ==> i < |queue| + |Spawned(([queue[0]] + ran)[..i], behaviour)|
  {
    var a := queue[0];
    forall i | 0 <= i < |[a] + ran|
      ensures i < |queue| + |Spawned(([a] + ran)[..i], behaviour)|
    {
      if i > 0 {
        assert ([a] + ran)[..i] == [a] + ran[..i - 1];
        assert ([a] + ran[..i - 1])[1..] == ran[..i - 1];
        assert Spawned(([a] + ran)[..i], behaviour) == own + Spawned(ran[..i - 1], behaviour);
      }
    }
  }

  /** The loop ran to completion: the queue was observed empty. */
  predicate Completed(r: Drained) { r.pending == [] }

  /** After a completed `Update` the run actions are exactly the actions
      queued at the start, in their order, followed by everything those
      actions enqueued, in the order it was enqueued. */
  lemma DrainCompletedRunsAll(queue: seq<Action>, behaviour: Behaviour, fuel: nat)
    requires Completed(Drain(queue, behaviour, fuel))
    ensures Drain(queue, behaviour, fuel).ran == queue + Spawned(Drain(queue, behaviour, fuel).ran, behaviour)
    ensures Drain(queue, behaviour, fuel).ran[..|queue|] == queue
  {
    var r := Drain(queue, behaviour, fuel);
    assert r.ran + r.pending == r.ran;
  }

  /** FIFO: however far a drain gets, the actions it runs start with the
      actions that were queued when it began, in exactly that order. */
  lemma DrainFifo(queue: seq<Action>, behaviour: Behaviour, fuel: nat)
    ensures var r := Drain(queue, behaviour, fuel);
            if |r.ran| <= |queue| then r.ran == queue[..|r.ran|] else r.ran[..|queue|] == queue
  {
    var r := Drain(queue, behaviour, fuel);
    var all := r.ran + r.pending;
    if |r.ran| <= |queue| {
      assert r.ran == all[..|r.ran|];
      assert all[..|r.ran|] == queue[..|r.ran|];
    } else {
      assert r.ran[..|queue|] == all[..|queue|];
    }
  }

  /** Re-entrancy: in a completed drain, every action enqueued by the
      action at position `i` runs later in the same drain, exactly once,
      at a position after `i` and after everything queued before it. */
  lemma {:induction false} DrainRunsReentrantActions(queue: seq<Action>, behaviour: Behaviour, fuel: nat, i: nat, j: nat)
    requires Completed(Drain(queue, behaviour, fuel))
    requires i < |Drain(queue, behaviour, fuel).ran|
    requires j < |Present(behaviour(Drain(queue, behaviour, fuel).ran[i]))|
    ensures var r := Drain(queue, behaviour, fuel);
            var k := |queue| + |Spawned(r.ran[..i], behaviour)| + j;
            i < k < |r.ran| && r.ran[k] == Present(behaviour(r.ran[i]))[j]
  {
    var ran := Drain(queue, behaviour, fuel).ran;
    DrainCompletedRunsAll(queue, behaviour, fuel);
    RunPosition(queue, ran, behaviour, i, j);
  }

  /** The position argument behind `DrainRunsReentrantActions`, on plain sequences. */
  lemma {:induction false} RunPosition(queue: seq<Action>, ran: seq<Action>, behaviour: Behaviour, i: nat, j: nat)
    requires ran == queue + Spawned(ran, behaviour)
    requires i < |ran| && i < |queue| + |Spawned(ran[..i], behaviour)|
    requires j < |Present(behaviour(ran[i]))|
    ensures var k := |queue| + |Spawned(ran[..i], behaviour)| + j;
            i < k < |ran| && ran[k] == Present(behaviour(ran[i]))[j]
  {
    var own := Present(behaviour(ran[i]));
    var before := Spawned(ran[..i], behaviour);
    var after := Spawned(ran[i + 1..], behaviour);
    SpawnedSplit(ran, i, behaviour);
    IndexInConcat(ran, queue, before, own, after, j);
  }

  lemma IndexInConcat(s: seq<Action>, a: seq<Action>, b: seq<Action>, c: seq<Action>, d: seq<Action>, j: nat)
    requires s == a + (b + c + d)
    requires j < |c|
    ensures |a| + |b| + j < |s| && s[|a| + |b| + j] == c[j]
  {
    assert s[|a| + |b| + j] == (b + c + d)[|b| + j];
  }

  /** The fuel is only a bound: once a drain completes, more fuel changes
      nothing. */
  lemma {:induction false} DrainFuelIrrelevant(queue: seq<Action>, behaviour: Behaviour, fuel: nat, more: nat)
    requires Completed(Drain(queue, behaviour, fuel))
    requires fuel <= more
    ensures Drain(queue, behaviour, more) == Drain(queue, behaviour, fuel)
    decreases fuel
  {
    if |queue| == 0 || fuel == 0 {
    } else {
      DrainFuelIrrelevant(EnqueueAll(queue[1..], behaviour(queue[0])), behaviour, fuel - 1, more - 1);
    }
  }

  /** Without re-entrant enqueues, one drain with enough fuel runs exactly
      the queued actions, in order, and leaves the queue empty. */
  lemma {:induction false} DrainPlain(queue: seq<Action>, behaviour: Behaviour, fuel: nat)
    requires forall a :: behaviour(a) == []
    requires |queue| <= fuel
    ensures Drain(queue, behaviour, fuel) == Drained(queue, [])
    decreases |queue|
  {
    if |queue| == 0 {
    } else {
      assert EnqueueAll(queue[1..], behaviour(queue[0])) == queue[1..];
      DrainPlain(queue[1..], behaviour, fuel - 1);
    }
  }

  // ---------------------------------------------------------------------
  // The singleton binding
  // ---------------------------------------------------------------------

  /** A dispatcher component in the scene. */
  type Component = nat

  /** The static `_instance` and `_isInitialized` fields. */
  datatype Binding = Binding(instance: Option<Component>, initialized: bool)

  const Unbound := Binding(None, false)

  /** Every transition keeps "initialised exactly when an instance is bound". */
  predicate Valid(b: Binding) { b.initialized <==> b.instance.Some? }

  /** `Initialize`: nothing to do once initialised; otherwise reuse the
      component the scene search `found`, or else the component `created`
      on a fresh game object, and mark the binding initialised. */
  function Initialize(b: Binding, found: Option<Component>, created: Component): (r: Binding)
    ensures r.initialized
    ensures Valid(b) ==> Valid(r)
    ensures b.initialized ==> r == b
    ensures !b.initialized && found.Some? ==> r.instance == found
    ensures !b.initialized && found.None? ==> r.instance == Some(created)
  {
    if b.initialized then b
    else
      var inst := match found case Some(c) => c case None => created;
      Binding(Some(inst), true)
  }

  datatype Accessed = Accessed(binding: Binding, instance: Option<Component>)

  /** The `Instance` getter: initialise on first use, then hand out `_instance`. */
  function Instance(b: Binding, found: Option<Component>, created: Component): (r: Accessed)
    ensures r.binding.initialized
    ensures r.instance == r.binding.instance
    ensures Valid(b) ==> Valid(r.binding) && r.instance.Some?
    // once initialised, the getter changes nothing
    ensures b.initialized ==> r.binding == b
    // the first use binds the found component, or else the created one
    ensures !b.initialized ==> r.instance == Some(match found case Some(c) => c case None => created)
  {
    var b1 := if !b.initialized then Initialize(b, found, created) else b;
    Accessed(b1, b1.instance)
  }

  /** Once the getter has been used, later uses, whatever the scene holds,
      return the same component and leave the binding alone. */
  lemma InstanceStable(b: Binding, found: Option<Component>, created: Component,
                       found2: Option<Component>, created2: Component)
    requires Valid(b)
    ensures var first := Instance(b, found, created);
            var second := Instance(first.binding, found2, created2);
            second == first
  {
  }

  datatype Awoken = Awoken(binding: Binding, destroyed: bool)

  /** `Awake` of component `self`: the first component to wake becomes the
      singleton; any other component waking once one is bound destroys
      its game object and leaves the binding as it was. */
  function Awake(b: Binding, self: Component): (r: Awoken)
    ensures b.instance.None? ==> r.binding.instance == Some(self) && r.binding.initialized && !r.destroyed
    ensures b.instance.Some? ==> r.binding == b
    ensures r.destroyed <==> b.instance.Some? && b.instance.value != self
    ensures Valid(b) ==> Valid(r.binding)
  {
    if b.instance.None? then Awoken(Binding(Some(self), true), false)
    else Awoken(b, b.instance.value != self)
  }

  /** The binding-layer events the engine and the callers can cause. */
  datatype Event = Access(found: Option<Component>, created: Component) | Wake(self: Component)

  /** Replays `events` and collects the components destroyed on waking. */
  function Replay(b: Binding, events: seq<Event>): (r: (Binding, seq<Component>))
    decreases |events|
  {
    if |events| == 0 then (b, [])
    else
      match events[0]
      case Access(found, created) => Replay(Instance(b, found, created).binding, events[1..])
      case Wake(self) =>
        var w := Awake(b, self);
        var rest := Replay(w.binding, events[1..]);
        (rest.0, (if w.destroyed then [self] else []) + rest.1)
  }

  /** Uninitialised -> Initialised is one way: once bound, no sequence of
      accesses and wake-ups changes the singleton or un-initialises it,
      and every other component that wakes is destroyed. */
  lemma {:induction false} ReplayKeepsSingleton(b: Binding, events: seq<Event>)
    requires Valid(b) && b.initialized
    ensures Replay(b, events).0 == b
    ensures forall c :: c in Replay(b, events).1 ==> Some(c) != b.instance
    ensures forall k :: 0 <= k < |events| && events[k].Wake? && Some(events[k].self) != b.instance ==>
              events[k].self in Replay(b, events).1
    decreases |events|
  {
    if |events| > 0 {
      ReplayKeepsSingleton(b, events[1..]);
      assert forall k :: 1 <= k < |events| ==> events[k] == events[1..][k - 1];
    }
  }

  /** From the unbound start, the first event fixes the singleton for good:
      an access binds the found or created component, a wake-up binds the
      component that woke. */
  lemma FirstEventBinds(e: Event, rest: seq<Event>)
    ensures var bound := match e
                         case Access(found, created) => (match found case Some(c) => c case None => created)
                         case Wake(self) => self;
            Replay(Unbound, [e] + rest).0 == Binding(Some(bound), true)
  {
    var b1 := match e
              case Access(found, created) => Instance(Unbound, found, created).binding
              case Wake(self) => Awake(Unbound, self).binding;
    assert ([e] + rest)[1..] == rest;
    ReplayKeepsSingleton(b1, rest);
  }
}
