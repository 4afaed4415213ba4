/** The connection registry and the command router (`src/downstream.rs`,
    `src/command.rs`), and every interleaving of the handlers that use them. The
    atomic actions are the counter increment and each section under a lock. */
module Registry {
  import opened Prelude
  import Commands

  /** What either map holds for a charge point: a generation, and whose it is
      (a handler for the cancellation token, an inbox for the command sender). */
  datatype Slot<T> = Slot(generation: nat, owner: T)

  type Slots<T> = map<string, Slot<T>>

  /** Removal guarded by the generation. */
  function RemoveOwn<T>(slots: Slots<T>, id: string, generation: nat): Slots<T> {
    if id in slots && slots[id].generation == generation then slots - {id} else slots
  }

  /** Whom a registration displaces. */
  function Displaces(slots: Slots<nat>, id: string): set<nat> {
    if id in slots then {slots[id].owner} else {}
  }

  // ---- the shared objects ----

  class ConnectionRegistry {
    var counter: nat
    var connections: Slots<nat>
    var cancelled: set<nat>

    constructor ()
      ensures counter == 0 && connections == map[] && cancelled == {}
    {
      counter, connections, cancelled := 0, map[], {};
    }

    /** Drawn before the lock is taken. */
    method DrawGeneration() returns (generation: nat)
      modifies this`counter
      ensures generation == old(counter) && counter == old(counter) + 1
    {
      generation := counter;
      counter := counter + 1;
    }

    /** Register a connection; whoever it displaces is cancelled. */
    method Register(id: string, slot: Slot<nat>)
      modifies this`connections, this`cancelled
      ensures connections == old(connections)[id := slot]
      ensures cancelled == old(cancelled) + Displaces(old(connections), id)
    {
      if id in connections {
        cancelled := cancelled + {connections[id].owner};
      }
      connections := connections[id := slot];
    }

    /** The two in sequence, as one handler performs them. Other handlers may act in
        between; `Proceed` below takes them as separate steps. */
    method RegisterConnection(id: string, handler: nat) returns (generation: nat)
      modifies this
      ensures generation == old(counter) && counter == old(counter) + 1
      ensures connections == old(connections)[id := Slot(generation, handler)]
      ensures cancelled == old(cancelled) + Displaces(old(connections), id)
    {
      generation := DrawGeneration();
      Register(id, Slot(generation, handler));
    }

    /** Deregister only what is still this generation's. */
    method Deregister(id: string, generation: nat) returns (removed: bool)
      modifies this`connections
      ensures connections == RemoveOwn(old(connections), id, generation)
      ensures removed <==> id in old(connections) && old(connections)[id].generation == generation
    {
      removed := id in connections && connections[id].generation == generation;
      if removed {
        connections := connections - {id};
      }
    }
  }

  datatype DispatchError = NotConnected | QueueFull

  /** The receiving end of a session's command channel. */
  class Inbox {
    var waiting: seq<Commands.Request>
    var closed: bool
    const capacity: nat

    constructor (capacity: nat)
      ensures waiting == [] && !closed && this.capacity == capacity
    {
      waiting, closed := [], false;
      this.capacity := capacity;
    }
  }

  class CommandRouter {
    var inner: Slots<Inbox>

    constructor ()
      ensures inner == map[]
    {
      inner := map[];
    }

    method Register(id: string, generation: nat, tx: Inbox)
      modifies this
      ensures inner == old(inner)[id := Slot(generation, tx)]
    {
      inner := inner[id := Slot(generation, tx)];
    }

    method Deregister(id: string, generation: nat) returns (removed: bool)
      modifies this
      ensures inner == RemoveOwn(old(inner), id, generation)
      ensures removed <==> id in old(inner) && old(inner)[id].generation == generation
    {
      removed := id in inner && inner[id].generation == generation;
      if removed {
        inner := inner - {id};
      }
    }

    /** Either the request is now the last one in the session's inbox, or nothing
        changed and the caller learns why. */
    method Dispatch(id: string, request: Commands.Request) returns (error: Option<DispatchError>)
      modifies if id in inner then {inner[id].owner} else {}
      ensures error == Some(DispatchError.NotConnected) <==> id !in inner || old(inner[id].owner.closed)
      ensures error == Some(QueueFull) <==>
              id in inner && !old(inner[id].owner.closed) && |old(inner[id].owner.waiting)| >= inner[id].owner.capacity
      ensures id in inner ==> inner[id].owner.closed == old(inner[id].owner.closed)
      ensures id in inner ==>
                inner[id].owner.waiting == old(inner[id].owner.waiting) + (if error.None? then [request] else [])
    {
      if id !in inner {
        return Some(DispatchError.NotConnected);
      }
      var tx := inner[id].owner;
      if tx.closed {
        return Some(DispatchError.NotConnected);
      }
      if |tx.waiting| >= tx.capacity {
        return Some(QueueFull);
      }
      tx.waiting := tx.waiting + [request];
      error := None;
    }
  }

  // ---- handlers under interleaving ----

  /** How far `handle_connection` has come. `Routed` is a running session. */
  datatype Progress = Arrived | Drawn | Registered | Routed | Unrouted | Finished

  datatype Handler = Handler(id: string, progress: Progress, generation: nat)

  /** `displaced` and `routedInOrder` are logs: who was displaced, and which
      handlers registered with the router in what order. */
  datatype State = State(
    counter: nat, connections: Slots<nat>, router: Slots<nat>, cancelled: set<nat>,
    handlers: map<nat, Handler>, displaced: set<nat>, routedInOrder: seq<nat>)

  const START := State(0, map[], map[], {}, map[], {}, [])

  datatype Event = Connect(handler: nat, id: string) | Advance(handler: nat)

  function Proceed(s: State, n: nat): State
    requires n in s.handlers
  {
    var h := s.handlers[n];
    match h.progress
    case Arrived =>
      s.(counter := s.counter + 1, handlers := s.handlers[n := Handler(h.id, Drawn, s.counter)])
    case Drawn =>
      var out := Displaces(s.connections, h.id);
      s.(connections := s.connections[h.id := Slot(h.generation, n)],
         displaced := s.displaced + out, cancelled := s.cancelled + out,
         handlers := s.handlers[n := h.(progress := Registered)])
    case Registered =>
      s.(router := s.router[h.id := Slot(h.generation, n)], routedInOrder := s.routedInOrder + [n],
         handlers := s.handlers[n := h.(progress := Routed)])
    case Routed =>
      s.(router := RemoveOwn(s.router, h.id, h.generation), handlers := s.handlers[n := h.(progress := Unrouted)])
    case Unrouted =>
      s.(connections := RemoveOwn(s.connections, h.id, h.generation),
         handlers := s.handlers[n := h.(progress := Finished)])
    case Finished => s
  }

  function Step(s: State, e: Event): State {
    match e
    case Connect(n, id) =>
      if n in s.handlers then s else s.(handlers := s.handlers[n := Handler(id, Arrived, 0)])
    case Advance(n) => if n in s.handlers then Proceed(s, n) else s
  }

  function Run(s: State, events: seq<Event>): State {
    if events == [] then s else Step(Run(s, events[..|events| - 1]), events[|events| - 1])
  }

  predicate HasGeneration(h: Handler) {
    !h.progress.Arrived?
  }

  /** Registered with the registry and not yet deregistered from it. */
  predicate InRegistry(h: Handler) {
    h.progress.Registered? || h.progress.Routed? || h.progress.Unrouted?
  }

  predicate Live(s: State, n: nat) {
    n in s.handlers && InRegistry(s.handlers[n]) && n !in s.displaced
  }

  function LastRouted(s: State, order: seq<nat>, id: string): Option<nat> {
    if order == [] then None
    else
      var n := order[|order| - 1];
      if n in s.handlers && s.handlers[n].id == id then Some(n) else LastRouted(s, order[..|order| - 1], id)
  }

  predicate GenerationsDistinct(s: State) {
    && (forall n :: n in s.handlers && HasGeneration(s.handlers[n]) ==> s.handlers[n].generation < s.counter)
    && (forall m, n :: m in s.handlers && n in s.handlers && m != n
                       && HasGeneration(s.handlers[m]) && HasGeneration(s.handlers[n])
                       ==> s.handlers[m].generation != s.handlers[n].generation)
  }

  predicate Owns(s: State, slots: Slots<nat>, id: string) {
    && id in slots && slots[id].owner in s.handlers
    && s.handlers[slots[id].owner].id == id
    && s.handlers[slots[id].owner].generation == slots[id].generation
  }

  predicate RegistryInv(s: State) {
    && GenerationsDistinct(s)
    && (forall id :: id in s.connections ==> Owns(s, s.connections, id) && Live(s, s.connections[id].owner))
    && (forall n :: n in s.handlers && Live(s, n) ==>
          s.handlers[n].id in s.connections && s.connections[s.handlers[n].id].owner == n)
    && s.displaced == s.cancelled
    && (forall n :: n in s.displaced ==>
          n in s.handlers && HasGeneration(s.handlers[n]) && !s.handlers[n].progress.Drawn?)
  }

  predicate RouterInv(s: State) {
    && (forall id :: id in s.router ==> Owns(s, s.router, id) && s.handlers[s.router[id].owner].progress.Routed?)
    && (forall n :: n in s.handlers && s.handlers[n].progress.Routed? ==> n in s.routedInOrder)
    && (forall n :: n in s.routedInOrder ==>
          n in s.handlers && (s.handlers[n].progress.Routed? || Past(s.handlers[n])))
    && (forall id :: id in s.router ==> LastRouted(s, s.routedInOrder, id) == Some(s.router[id].owner))
  }

  predicate RouterFollows(s: State) {
    forall n :: n in s.handlers && s.handlers[n].progress.Routed?
                && LastRouted(s, s.routedInOrder, s.handlers[n].id) == Some(n)
         ==> s.handlers[n].id in s.router && s.router[s.handlers[n].id].owner == n
  }

  predicate Inv(s: State) {
    RegistryInv(s) && RouterInv(s) && RouterFollows(s)
  }

  lemma StepKeepsRegistry(s: State, e: Event)
    requires RegistryInv(s)
    ensures RegistryInv(Step(s, e))
  {
    if e.Advance? && e.handler in s.handlers && s.handlers[e.handler].progress.Drawn? {
      RegisterKeeps(s, e.handler);
    } else if e.Advance? && e.handler in s.handlers && s.handlers[e.handler].progress.Unrouted? {
      DeregisterKeeps(s, e.handler);
    } else {
      GenerationsStayDistinct(s, e);
      ElsewhereRegistry(s, e);
      RegistryUntouched(s, Step(s, e));
    }
  }

  lemma GenerationsStayDistinct(s: State, e: Event)
    requires GenerationsDistinct(s)
    ensures GenerationsDistinct(Step(s, e))
  {}

  /** Registry and logs untouched, and no handler enters or leaves the registry. */
  predicate SameRegistry(s: State, t: State) {
    && t.connections == s.connections && t.displaced == s.displaced && t.cancelled == s.cancelled
    && (forall n :: n in s.handlers ==> n in t.handlers && t.handlers[n].id == s.handlers[n].id)
    && (forall n :: n in t.handlers && InRegistry(t.handlers[n]) ==> n in s.handlers && InRegistry(s.handlers[n]))
    && (forall n :: n in s.handlers && InRegistry(s.handlers[n]) ==>
                      InRegistry(t.handlers[n]) && t.handlers[n].generation == s.handlers[n].generation)
    && (forall n :: n in s.handlers && s.handlers[n].progress.Finished? ==> t.handlers[n].progress.Finished?)
  }

  lemma ElsewhereRegistry(s: State, e: Event)
    requires e.Advance? && e.handler in s.handlers ==>
               !s.handlers[e.handler].progress.Drawn? && !s.handlers[e.handler].progress.Unrouted?
    ensures SameRegistry(s, Step(s, e))
  {
    var t := Step(s, e);
    if t != s {
      OneHandlerMoves(s, t, e.handler, t.handlers[e.handler]);
    }
  }

  /** One handler connects, or moves without entering or leaving the registry. */
  lemma OneHandlerMoves(s: State, t: State, n: nat, h: Handler)
    requires t.connections == s.connections && t.displaced == s.displaced && t.cancelled == s.cancelled
    requires t.handlers == s.handlers[n := h]
    requires if n in s.handlers then
               && h.id == s.handlers[n].id && InRegistry(h) == InRegistry(s.handlers[n])
               && (InRegistry(h) ==> h.generation == s.handlers[n].generation)
               && (s.handlers[n].progress.Finished? ==> h.progress.Finished?)
             else !InRegistry(h)
    ensures SameRegistry(s, t)
  {}

  lemma RegistryUntouched(s: State, t: State)
    requires RegistryInv(s) && SameRegistry(s, t) && GenerationsDistinct(t)
    ensures RegistryInv(t)
  {
    forall id | id in t.connections ensures Owns(t, t.connections, id) && Live(t, t.connections[id].owner) {
      assert Owns(s, s.connections, id) && Live(s, s.connections[id].owner);
    }
    forall n | n in t.handlers && Live(t, n)
      ensures t.handlers[n].id in t.connections && t.connections[t.handlers[n].id].owner == n
    {
      assert Live(s, n);
    }
  }

  lemma RegisterKeeps(s: State, n: nat)
    requires RegistryInv(s) && n in s.handlers && s.handlers[n].progress.Drawn?
    ensures RegistryInv(Proceed(s, n))
  {
    var t := Proceed(s, n);
    var id := s.handlers[n].id;
    forall m | m in t.handlers && Live(t, m)
      ensures t.handlers[m].id in t.connections && t.connections[t.handlers[m].id].owner == m
    {
      if m != n {
        assert Live(s, m);
      }
    }
    forall x | x in t.connections ensures Owns(t, t.connections, x) && Live(t, t.connections[x].owner) {
      if x != id {
        assert Owns(s, s.connections, x) && Live(s, s.connections[x].owner);
        assert id in s.connections ==> Owns(s, s.connections, id);
      }
    }
  }

  lemma DeregisterKeeps(s: State, n: nat)
    requires RegistryInv(s) && n in s.handlers && s.handlers[n].progress.Unrouted?
    ensures RegistryInv(Proceed(s, n))
  {
    var t := Proceed(s, n);
    forall m | m in t.handlers && Live(t, m)
      ensures t.handlers[m].id in t.connections && t.connections[t.handlers[m].id].owner == m
    {
      assert m != n && Live(s, m);
      assert Owns(s, s.connections, s.handlers[m].id);
    }
    forall x | x in t.connections ensures Owns(t, t.connections, x) && Live(t, t.connections[x].owner) {
      assert Owns(s, s.connections, x) && Live(s, s.connections[x].owner);
    }
  }

  /** Who registered last depends only on ids, which never change. */
  lemma {:induction false} LastRoutedCarries(s: State, t: State, order: seq<nat>, id: string)
    requires forall n :: n in order ==> n in s.handlers && n in t.handlers && t.handlers[n].id == s.handlers[n].id
    ensures LastRouted(s, order, id) == LastRouted(t, order, id)
    ensures LastRouted(s, order, id).Some? ==> LastRouted(s, order, id).value in order
                                               && s.handlers[LastRouted(s, order, id).value].id == id
  {
    if order != [] {
      assert order[|order| - 1] in order;
      LastRoutedCarries(s, t, order[..|order| - 1], id);
    }
  }

  /** Router and log untouched, and no handler starts or stops being routed. */
  predicate SameRoutes(s: State, t: State) {
    && t.router == s.router && t.routedInOrder == s.routedInOrder
    && (forall n :: n in s.handlers ==> n in t.handlers && t.handlers[n].id == s.handlers[n].id)
    && (forall n :: n in t.handlers && t.handlers[n].progress.Routed? ==>
          n in s.handlers && s.handlers[n] == t.handlers[n])
    && (forall n :: n in s.handlers && s.handlers[n].progress.Routed? ==> t.handlers[n] == s.handlers[n])
    && (forall n :: n in s.handlers && Past(s.handlers[n]) ==> Past(t.handlers[n]))
  }

  lemma ElsewhereRouter(s: State, e: Event)
    requires e.Advance? && e.handler in s.handlers ==>
               !s.handlers[e.handler].progress.Registered? && !s.handlers[e.handler].progress.Routed?
    ensures SameRoutes(s, Step(s, e))
  {
    var t := Step(s, e);
    if t != s {
      OneHandlerPasses(s, t, e.handler, t.handlers[e.handler]);
    }
  }

  predicate Past(h: Handler) {
    h.progress.Unrouted? || h.progress.Finished?
  }

  /** One handler connects, or moves without starting or stopping to be routed. */
  lemma OneHandlerPasses(s: State, t: State, n: nat, h: Handler)
    requires t.router == s.router && t.routedInOrder == s.routedInOrder && t.handlers == s.handlers[n := h]
    requires !h.progress.Routed?
    requires n in s.handlers ==>
               h.id == s.handlers[n].id && !s.handlers[n].progress.Routed? && (Past(s.handlers[n]) ==> Past(h))
    ensures SameRoutes(s, t)
  {}

  lemma RouterUntouched(s: State, t: State)
    requires RouterInv(s) && RouterFollows(s) && SameRoutes(s, t)
    ensures RouterInv(t) && RouterFollows(t)
  {
    forall id ensures LastRouted(s, s.routedInOrder, id) == LastRouted(t, t.routedInOrder, id) {
      LastRoutedCarries(s, t, s.routedInOrder, id);
    }
    forall id | id in t.router ensures Owns(t, t.router, id) && t.handlers[t.router[id].owner].progress.Routed? {
      assert Owns(s, s.router, id);
    }
  }

  lemma RouteKeeps(s: State, n: nat)
    requires RouterInv(s) && RouterFollows(s)
    requires n in s.handlers && s.handlers[n].progress.Registered?
    ensures RouterInv(Proceed(s, n)) && RouterFollows(Proceed(s, n))
  {
    var t := Proceed(s, n);
    assert t.routedInOrder[..|t.routedInOrder| - 1] == s.routedInOrder;
    forall id
      ensures LastRouted(t, t.routedInOrder, id) ==
              if id == s.handlers[n].id then Some(n) else LastRouted(s, s.routedInOrder, id)
    {
      LastRoutedCarries(s, t, s.routedInOrder, id);
    }
    forall id | id in t.router ensures Owns(t, t.router, id) && t.handlers[t.router[id].owner].progress.Routed? {
      if id != s.handlers[n].id {
        assert Owns(s, s.router, id);
      }
    }
  }

  lemma StepKeepsRouter(s: State, e: Event)
    requires GenerationsDistinct(s) && RouterInv(s) && RouterFollows(s)
    ensures RouterInv(Step(s, e)) && RouterFollows(Step(s, e))
  {
    if e.Advance? && e.handler in s.handlers && s.handlers[e.handler].progress.Registered? {
      RouteKeeps(s, e.handler);
    } else if e.Advance? && e.handler in s.handlers && s.handlers[e.handler].progress.Routed? {
      UnrouteKeeps(s, e.handler);
    } else {
      ElsewhereRouter(s, e);
      RouterUntouched(s, Step(s, e));
    }
  }

  lemma UnrouteKeeps(s: State, n: nat)
    requires GenerationsDistinct(s) && RouterInv(s) && RouterFollows(s)
    requires n in s.handlers && s.handlers[n].progress.Routed?
    ensures RouterInv(Proceed(s, n)) && RouterFollows(Proceed(s, n))
  {
    UnroutingKeepsInv(s, n);
    UnroutingFollows(s, n);
  }

  lemma OrderCarries(s: State, n: nat)
    requires RouterInv(s) && n in s.handlers
    ensures forall id :: LastRouted(s, s.routedInOrder, id) == LastRouted(Proceed(s, n), s.routedInOrder, id)
  {
    forall id ensures LastRouted(s, s.routedInOrder, id) == LastRouted(Proceed(s, n), s.routedInOrder, id) {
      LastRoutedCarries(s, Proceed(s, n), s.routedInOrder, id);
    }
  }

  lemma UnroutingKeepsInv(s: State, n: nat)
    requires GenerationsDistinct(s) && RouterInv(s)
    requires n in s.handlers && s.handlers[n].progress.Routed?
    ensures RouterInv(Proceed(s, n))
  {
    var t := Proceed(s, n);
    OrderCarries(s, n);
    forall id | id in t.router
      ensures Owns(t, t.router, id) && t.handlers[t.router[id].owner].progress.Routed?
    {
      assert Owns(s, s.router, id);
    }
  }

  lemma UnroutingFollows(s: State, n: nat)
    requires GenerationsDistinct(s) && RouterInv(s) && RouterFollows(s)
    requires n in s.handlers && s.handlers[n].progress.Routed?
    ensures RouterFollows(Proceed(s, n))
  {
    var t := Proceed(s, n);
    OrderCarries(s, n);
    forall m | m in t.handlers && t.handlers[m].progress.Routed?
               && LastRouted(t, t.routedInOrder, t.handlers[m].id) == Some(m)
      ensures t.handlers[m].id in t.router && t.router[t.handlers[m].id].owner == m
    {
      assert m != n;
      assert Owns(s, s.router, s.handlers[m].id);
      assert s.router[s.handlers[m].id].generation != s.handlers[n].generation;
    }
  }

  lemma {:induction false} RunKeeps(events: seq<Event>)
    ensures Inv(Run(START, events))
  {
    if events != [] {
      var s := Run(START, events[..|events| - 1]);
      RunKeeps(events[..|events| - 1]);
      StepKeepsRegistry(s, events[|events| - 1]);
      StepKeepsRouter(s, events[|events| - 1]);
    }
  }

  // ---- main results ----

  /** At most one registered session per charge point is neither displaced nor
      deregistered, and it is exactly the one in the map. */
  lemma OneLiveSessionPerChargePoint(events: seq<Event>, n: nat)
    requires n in Run(START, events).handlers
    ensures var s := Run(START, events);
            var id := s.handlers[n].id;
            Live(s, n) <==> id in s.connections && s.connections[id].owner == n
    ensures var s := Run(START, events);
            forall m :: m in s.handlers && Live(s, m) && Live(s, n) && s.handlers[m].id == s.handlers[n].id ==> m == n
  {
    RunKeeps(events);
    var s := Run(START, events);
    var id := s.handlers[n].id;
    assert id in s.connections ==> Owns(s, s.connections, id) && Live(s, s.connections[id].owner);
  }

  /** Exactly the displaced sessions have been cancelled, so no live one is; and no two
      handlers share a generation. */
  lemma DisplacedAreCancelled(events: seq<Event>, n: nat, m: nat)
    ensures var s := Run(START, events);
            (n in s.displaced <==> n in s.cancelled) && (Live(s, n) ==> n !in s.cancelled)
    ensures var s := Run(START, events);
            && m in s.handlers && n in s.handlers && m != n
            && HasGeneration(s.handlers[m]) && HasGeneration(s.handlers[n]) ==>
              s.handlers[m].generation != s.handlers[n].generation
  {
    RunKeeps(events);
  }

  lemma UnroutingRemovesOnlyItsOwn(s: State, n: nat, id: string)
    requires GenerationsDistinct(s) && RouterInv(s) && n in s.handlers && s.handlers[n].progress.Routed?
    ensures var t := Proceed(s, n);
            && t.connections == s.connections
            && (id in s.router && s.router[id].owner != n ==> id in t.router && t.router[id] == s.router[id])
            && (id in t.router ==> t.router[id].owner != n)
  {
    assert id in s.router ==> Owns(s, s.router, id);
  }

  lemma DeregisteringRemovesOnlyItsOwn(s: State, n: nat, id: string)
    requires RegistryInv(s) && n in s.handlers && s.handlers[n].progress.Unrouted?
    ensures var t := Proceed(s, n);
            && t.router == s.router
            && (id in s.connections && s.connections[id].owner != n ==>
                  id in t.connections && t.connections[id] == s.connections[id])
            && (id in t.connections ==> t.connections[id].owner != n)
  {
    assert id in s.connections ==> Owns(s, s.connections, id) && Live(s, s.connections[id].owner);
  }

  /** No handler's cleanup removes an entry that is not its own, from either map;
      its own registry entry is gone once it has finished. */
  lemma CleanupRemovesOnlyItsOwn(events: seq<Event>, n: nat, id: string)
    requires var s := Run(START, events);
             n in s.handlers && (s.handlers[n].progress.Routed? || s.handlers[n].progress.Unrouted?)
    ensures var s := Run(START, events);
            var t := Step(s, Advance(n));
            && (id in s.connections && s.connections[id].owner != n ==>
                  id in t.connections && t.connections[id] == s.connections[id])
            && (id in s.router && s.router[id].owner != n ==> id in t.router && t.router[id] == s.router[id])
            && (s.handlers[n].progress.Unrouted? && id in t.connections ==> t.connections[id].owner != n)
            && (s.handlers[n].progress.Routed? && id in t.router ==> t.router[id].owner != n)
  {
    RunKeeps(events);
    var s := Run(START, events);
    if s.handlers[n].progress.Routed? {
      UnroutingRemovesOnlyItsOwn(s, n, id);
    } else {
      DeregisteringRemovesOnlyItsOwn(s, n, id);
    }
  }

  /** A running session can be reached through the router exactly when no other
      handler for its charge point registered with the router after it. */
  lemma RouterReachesLastRegistrant(events: seq<Event>, n: nat)
    requires var s := Run(START, events); n in s.handlers && s.handlers[n].progress.Routed?
    ensures var s := Run(START, events);
            var id := s.handlers[n].id;
            (id in s.router && s.router[id].owner == n) <==> LastRouted(s, s.routedInOrder, id) == Some(n)
  {
    RunKeeps(events);
  }

  /** Registry and router are locked separately, so a displaced handler may still
      register with the router after its successor did. Here handler 1 does, and
      once it has cleaned up, the live session of handler 2 has no entry. */
  lemma LiveSessionCanLoseItsRoute(id: string)
    ensures var s := Run(START, [Connect(1, id), Connect(2, id), Advance(1), Advance(2),
                                 Advance(1), Advance(2), Advance(2), Advance(1), Advance(1)]);
            Live(s, 2) && s.handlers[2].id == id && s.handlers[2].progress.Routed? && id !in s.router
  {
    BothDrawn(id);
    var drawn := [Connect(1, id), Connect(2, id), Advance(1), Advance(2)];
    var both := drawn + [Advance(1)] + [Advance(2)];
    RunOfSnoc(drawn, Advance(1));
    RunOfSnoc(drawn + [Advance(1)], Advance(2));
    RunOfSnoc(both, Advance(2));
    RunOfSnoc(both + [Advance(2)], Advance(1));
    RunOfSnoc(both + [Advance(2)] + [Advance(1)], Advance(1));
    assert both + [Advance(2)] + [Advance(1)] + [Advance(1)]
        == [Connect(1, id), Connect(2, id), Advance(1), Advance(2),
            Advance(1), Advance(2), Advance(2), Advance(1), Advance(1)];
  }

  lemma BothDrawn(id: string)
    ensures Run(START, [Connect(1, id), Connect(2, id), Advance(1), Advance(2)])
         == START.(counter := 2, handlers := map[1 := Handler(id, Drawn, 0), 2 := Handler(id, Drawn, 1)])
  {
    RunOfSnoc([], Connect(1, id));
    RunOfSnoc([Connect(1, id)], Connect(2, id));
    RunOfSnoc([Connect(1, id), Connect(2, id)], Advance(1));
    RunOfSnoc([Connect(1, id), Connect(2, id), Advance(1)], Advance(2));
    assert [] + [Connect(1, id)] == [Connect(1, id)];
    assert [Connect(1, id)] + [Connect(2, id)] == [Connect(1, id), Connect(2, id)];
    assert [Connect(1, id), Connect(2, id)] + [Advance(1)] == [Connect(1, id), Connect(2, id), Advance(1)];
    assert [Connect(1, id), Connect(2, id), Advance(1)] + [Advance(2)]
        == [Connect(1, id), Connect(2, id), Advance(1), Advance(2)];
  }

  lemma RunOfSnoc(events: seq<Event>, e: Event)
    ensures Run(START, events + [e]) == Step(Run(START, events), e)
  {
    assert (events + [e])[..|events|] == events;
  }
}
