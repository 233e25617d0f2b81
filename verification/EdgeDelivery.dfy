/** Exact edge delivery: a port is a coalescing queue over the raw sequence of rising edges, and its queue can
    overflow iff it is shorter than the number of keys that can be registered. */
module EdgeDelivery {
  import opened Common
  import opened EventPorts

  // ---------------------------------------------------------------- the reference machine

  /** A watched target with the level last seen, unmasked. */
  datatype Watch = Watch(target: Target, requested: Signals, key: nat, level: Signals)

  /** Requested bits that rose at one moment. */
  datatype Edge = Edge(key: nat, signals: Signals)

  /** The reference machine keeps every undelivered edge separately, in the order in which they occurred. */
  datatype Reference = Reference(watches: seq<Watch>, edges: seq<Edge>)

  function WatchKey(w: Watch): nat { w.key }

  /** The edges of watch `w` when its target shows `current`. */
  function EdgeOf(w: Watch, target: Target, current: Signals): seq<Edge> {
    var rising := current * w.requested - w.level;
    if w.target == target && rising != {} then [Edge(w.key, rising)] else []
  }

  function EdgesFrom(ws: seq<Watch>, target: Target, current: Signals, i: nat): seq<Edge>
    requires i <= |ws|
    decreases |ws| - i
  {
    if i == |ws| then [] else EdgeOf(ws[i], target, current) + EdgesFrom(ws, target, current, i + 1)
  }

  function Seen(w: Watch, target: Target, current: Signals): Watch {
    if w.target == target then w.(level := current) else w
  }

  function RefObserve(r: Reference, target: Target, current: Signals): Reference {
    Reference(seq(|r.watches|, i requires 0 <= i < |r.watches| => Seen(r.watches[i], target, current)),
              r.edges + EdgesFrom(r.watches, target, current, 0))
  }

  function RefAdd(r: Reference, target: Target, requested: Signals, key: nat, current: Signals): Reference {
    Reference(r.watches + [Watch(target, requested, key, current)],
              r.edges + if current * requested == {} then [] else [Edge(key, current * requested)])
  }

  /** Edges of other keys. */
  function Others(edges: seq<Edge>, key: nat): (r: seq<Edge>)
    ensures |r| <= |edges|
  {
    if edges == [] then []
    else if edges[0].key == key then Others(edges[1..], key)
    else [edges[0]] + Others(edges[1..], key)
  }

  /** All undelivered bits of a key. */
  function Pending(edges: seq<Edge>, key: nat): Signals {
    if edges == [] then {}
    else if edges[0].key == key then edges[0].signals + Pending(edges[1..], key)
    else Pending(edges[1..], key)
  }

  function RefRemove(r: Reference, key: nat): Reference {
    match IndexOf(r.watches, WatchKey, key)
    case None => r
    case Some(i) => Reference(RemoveAt(r.watches, i), Others(r.edges, key))
  }

  /** Delivery takes the key of the oldest edge together with all its undelivered bits. */
  function RefPop(r: Reference): (Reference, Option<Event>) {
    if r.edges == [] then (r, None)
    else
      var key := r.edges[0].key;
      (r.(edges := Others(r.edges, key)), Some(Event(key, Pending(r.edges, key))))
  }

  // ---------------------------------------------------------------- coalescing

  /** One event per key, by first undelivered edge. */
  function Coalesced(edges: seq<Edge>): seq<Event>
    decreases |edges|
  {
    if edges == [] then []
    else
      [Event(edges[0].key, Pending(edges, edges[0].key))] + Coalesced(Others(edges, edges[0].key))
  }

  lemma {:induction false} OthersPush(edges: seq<Edge>, e: Edge, key: nat)
    ensures Others(edges + [e], key) == if e.key == key then Others(edges, key) else Others(edges, key) + [e]
  {
    if edges == [] {
      assert (edges + [e])[1..] == [];
    } else {
      OthersPush(edges[1..], e, key);
      assert (edges + [e])[1..] == edges[1..] + [e];
    }
  }

  lemma {:induction false} PendingPush(edges: seq<Edge>, e: Edge, key: nat)
    ensures Pending(edges + [e], key) == if e.key == key then Pending(edges, key) + e.signals else Pending(edges, key)
  {
    if edges == [] {
      assert (edges + [e])[1..] == [];
    } else {
      PendingPush(edges[1..], e, key);
      assert (edges + [e])[1..] == edges[1..] + [e];
    }
  }

  /** What the queue does with one more edge. */
  function Merged(events: seq<Event>, e: Edge): seq<Event> {
    match IndexOf(events, EventKey, e.key)
    case Some(i) => events[i := Event(e.key, events[i].signals + e.signals)]
    case None => events + [Event(e.key, e.signals)]
  }

  lemma MergedBehind(head: Event, rest: seq<Event>, e: Edge)
    requires head.key != e.key
    ensures Merged([head] + rest, e) == [head] + Merged(rest, e)
  {
    var events := [head] + rest;
    var i := IndexOf(rest, EventKey, e.key);
    if i.Some? {
      assert events[i.value + 1] == rest[i.value];
      assert IndexOf(events, EventKey, e.key) == Some(i.value + 1) by {
        var k := IndexOf(events, EventKey, e.key).value;
        assert k > 0 && EventKey(rest[k - 1]) == e.key;
      }
    } else {
      assert forall j :: 1 <= j < |events| ==> EventKey(events[j]) == EventKey(rest[j - 1]);
    }
  }

  /** Queueing an edge coalesces it with the undelivered edges of its key. */
  lemma {:induction false} CoalescedPush(edges: seq<Edge>, e: Edge)
    ensures Coalesced(edges + [e]) == Merged(Coalesced(edges), e)
    decreases |edges|
  {
    hide Merged;
    if edges == [] {
      assert edges + [e] == [e] && [e][1..] == [] && Others([e], e.key) == [] && Pending([e], e.key) == e.signals;
      MergedNone(e);
    } else {
      var key := edges[0].key;
      var rest := Others(edges, key);
      OthersPush(edges, e, key);
      PendingPush(edges, e, key);
      assert (edges + [e])[0] == edges[0];
      if e.key == key {
        MergedHead(Event(key, Pending(edges, key)), Coalesced(rest), e);
      } else {
        CoalescedPush(rest, e);
        MergedBehind(Event(key, Pending(edges, key)), Coalesced(rest), e);
      }
    }
  }

  lemma MergedNone(e: Edge)
    ensures Merged([], e) == [Event(e.key, e.signals)]
  {
  }

  lemma MergedHead(head: Event, rest: seq<Event>, e: Edge)
    requires head.key == e.key
    ensures Merged([head] + rest, e) == [Event(e.key, head.signals + e.signals)] + rest
  {
  }

  lemma {:induction false} OthersCommute(edges: seq<Edge>, a: nat, b: nat)
    ensures Others(Others(edges, a), b) == Others(Others(edges, b), a)
    ensures a != b ==> Pending(Others(edges, a), b) == Pending(edges, b)
  {
    if edges != [] {
      OthersCommute(edges[1..], a, b);
      var tail := edges[1..];
      if edges[0].key != a {
        assert (([edges[0]] + Others(tail, a))[1..]) == Others(tail, a);
      }
      if edges[0].key != b {
        assert (([edges[0]] + Others(tail, b))[1..]) == Others(tail, b);
      }
    }
  }

  lemma {:induction false} OthersTwice(edges: seq<Edge>, key: nat)
    ensures Others(Others(edges, key), key) == Others(edges, key)
  {
    if edges != [] {
      OthersTwice(edges[1..], key);
      if edges[0].key != key { assert ([edges[0]] + Others(edges[1..], key))[1..] == Others(edges[1..], key); }
    }
  }

  /** Dropping a key's edges drops its event. */
  lemma {:induction false} CoalescedDrop(edges: seq<Edge>, key: nat)
    ensures Coalesced(Others(edges, key)) == WithoutKey(Coalesced(edges), key)
    decreases |edges|
  {
    if edges != [] {
      var head := edges[0].key;
      var rest := Others(edges, head);
      CoalescedDrop(rest, key);
      WithoutKeyFront(Event(head, Pending(edges, head)), Coalesced(rest), key);
      if head == key {
        OthersTwice(edges, key);
      } else {
        OthersCommute(edges, head, key);
        var kept := Others(edges, key);
        assert kept[0] == edges[0];
        OthersCommute(edges, key, head);
      }
    }
  }

  lemma {:induction false} WithoutKeyFront(head: Event, rest: seq<Event>, key: nat)
    ensures WithoutKey([head] + rest, key) == (if head.key == key then [] else [head]) + WithoutKey(rest, key)
    decreases |rest|
  {
    var events := [head] + rest;
    if rest == [] {
      assert events[..0] == [];
    } else {
      assert events[..|events| - 1] == [head] + rest[..|rest| - 1];
      WithoutKeyFront(head, rest[..|rest| - 1], key);
    }
  }

  // ---------------------------------------------------------------- refinement

  /** The port remembers of each level what it was asked for, and of the edges their coalescing. */
  ghost predicate Refines(p: Port, r: Reference) {
    && |p.registrations| == |r.watches|
    && (forall i :: 0 <= i < |r.watches| ==> p.registrations[i] == Masked(r.watches[i]))
    && p.events == Coalesced(r.edges)
  }

  function Masked(w: Watch): Registration {
    Registration(w.target, w.requested, w.key, w.level * w.requested)
  }

  lemma QueueIsMerge(events: seq<Event>, capacity: nat, e: Edge)
    requires QueueEvent(events, capacity, e.key, e.signals).Some?
    ensures QueueEvent(events, capacity, e.key, e.signals).value == Merged(events, e)
  {
  }

  lemma AddRefines(p: Port, r: Reference, target: Target, requested: Signals, key: nat, current: Signals)
    requires Refines(p, r) && Add(p, target, requested, key, current).1.Ok?
    ensures Refines(Add(p, target, requested, key, current).0, RefAdd(r, target, requested, key, current))
  {
    hide QueueEvent, Merged, Coalesced;
    var observed := current * requested;
    if observed == {} {
      assert r.edges + [] == r.edges;
    } else {
      QueueIsMerge(p.events, p.eventCapacity, Edge(key, observed));
      CoalescedPush(r.edges, Edge(key, observed));
    }
  }

  lemma RemoveRefines(p: Port, r: Reference, key: nat)
    requires PortInv(p) && Refines(p, r)
    ensures Refines(Remove(p, key).0, RefRemove(r, key))
  {
    hide Coalesced, WithoutKey;
    assert forall i :: 0 <= i < |r.watches| ==> KeyOf(p.registrations[i]) == WatchKey(r.watches[i]);
    assert IndexOf(p.registrations, KeyOf, key) == IndexOf(r.watches, WatchKey, key);
    CoalescedDrop(r.edges, key);
  }

  /** Delivery hands over the key whose undelivered edge is oldest, with every bit that rose since. */
  lemma PopRefines(p: Port, r: Reference)
    requires Refines(p, r)
    ensures Refines(PopEvent(p).0, RefPop(r).0) && PopEvent(p).1 == RefPop(r).1
  {
  }

  /** The registrations before `i` have seen `current`; the edges of the others are still to come. */
  lemma {:induction false} ObserveRefines(p: Port, r: Reference, edges: seq<Edge>, target: Target, current: Signals,
      i: nat)
    requires i <= |r.watches| == |p.registrations| && p.events == Coalesced(edges)
    requires forall j :: 0 <= j < i ==> p.registrations[j] == Masked(Seen(r.watches[j], target, current))
    requires forall j :: i <= j < |r.watches| ==> p.registrations[j] == Masked(r.watches[j])
    requires ObserveFrom(p, target, current, i).1.None?
    ensures var p' := ObserveFrom(p, target, current, i).0;
            && |p'.registrations| == |r.watches|
            && (forall j :: 0 <= j < |r.watches| ==> p'.registrations[j] == Masked(Seen(r.watches[j], target, current)))
            && p'.events == Coalesced(edges + EdgesFrom(r.watches, target, current, i))
    decreases |r.watches| - i
  {
    hide Coalesced, QueueEvent, Merged;
    if i == |r.watches| {
      assert edges + [] == edges;
    } else {
      var w, reg := r.watches[i], p.registrations[i];
      var found := EdgeOf(w, target, current);
      assert edges + (found + EdgesFrom(r.watches, target, current, i + 1)) ==
          edges + found + EdgesFrom(r.watches, target, current, i + 1);
      if w.target != target {
        assert edges + found == edges;
        ObserveRefines(p, r, edges, target, current, i + 1);
      } else {
        var asserted := current * reg.requested;
        var rising := asserted - reg.observed;
        assert rising == current * w.requested - w.level;
        var queued := if rising == {} then Some(p.events) else QueueEvent(p.events, p.eventCapacity, reg.key, rising);
        if rising == {} {
          assert edges + found == edges;
        } else {
          QueueIsMerge(p.events, p.eventCapacity, Edge(w.key, rising));
          CoalescedPush(edges, Edge(w.key, rising));
          assert found == [Edge(w.key, rising)];
        }
        ObserveRefines(p.(registrations := p.registrations[i := reg.(observed := asserted)], events := queued.value),
                       r, edges + found, target, current, i + 1);
      }
    }
  }

  // ---------------------------------------------------------------- runs

  datatype Op =
    | Register(target: Target, requested: Signals, key: nat, current: Signals)
    | Unregister(key: nat)
    | Level(target: Target, current: Signals)
    | Deliver

  function Next(p: Port, op: Op): Port {
    match op
    case Register(target, requested, key, current) => Add(p, target, requested, key, current).0
    case Unregister(key) => Remove(p, key).0
    case Level(target, current) => Observe(p, target, current).0
    case Deliver => PopEvent(p).0
  }

  /** The reference machine takes the same steps; a registration refused by the port does not happen. */
  function RefNext(p: Port, r: Reference, op: Op): Reference {
    match op
    case Register(target, requested, key, current) =>
      if Add(p, target, requested, key, current).1.Ok? then RefAdd(r, target, requested, key, current) else r
    case Unregister(key) => RefRemove(r, key)
    case Level(target, current) => RefObserve(r, target, current)
    case Deliver => RefPop(r).0
  }

  predicate Overflows(p: Port, op: Op) {
    match op
    case Register(target, requested, key, current) => Add(p, target, requested, key, current).1 == Err(EventQueueFull)
    case Level(target, current) => Observe(p, target, current).1.Some?
    case _ => false
  }

  function Run(p: Port, ops: seq<Op>): Port
    decreases |ops|
  {
    if ops == [] then p else Run(Next(p, ops[0]), ops[1..])
  }

  function RefRun(p: Port, r: Reference, ops: seq<Op>): Reference
    decreases |ops|
  {
    if ops == [] then r else RefRun(Next(p, ops[0]), RefNext(p, r, ops[0]), ops[1..])
  }

  lemma CapacitiesStay(p: Port, op: Op)
    ensures var p' := Next(p, op);
            p'.registrationCapacity == p.registrationCapacity && p'.eventCapacity == p.eventCapacity
                && p'.maximumKey == p.maximumKey
  {
    if op.Level? { ObserveCapacities(p, op.target, op.current, 0); }
  }

  lemma {:induction false} ObserveCapacities(p: Port, target: Target, current: Signals, i: nat)
    requires i <= |p.registrations|
    ensures var p' := ObserveFrom(p, target, current, i).0;
            p' == p.(registrations := p'.registrations, events := p'.events)
    decreases |p.registrations| - i
  {
    hide QueueEvent;
    if i < |p.registrations| {
      var reg := p.registrations[i];
      if reg.target != target {
        ObserveCapacities(p, target, current, i + 1);
      } else {
        var asserted := current * reg.requested;
        var rising := asserted - reg.observed;
        var queued := if rising == {} then Some(p.events) else QueueEvent(p.events, p.eventCapacity, reg.key, rising);
        if queued.Some? {
          ObserveCapacities(p.(registrations := p.registrations[i := reg.(observed := asserted)],
              events := queued.value),
                            target, current, i + 1);
        }
      }
    }
  }

  lemma StepRefines(p: Port, r: Reference, op: Op)
    requires PortInv(p) && Refines(p, r) && MaxEvents(p) <= p.eventCapacity
    ensures !Overflows(p, op) && PortInv(Next(p, op)) && Refines(Next(p, op), RefNext(p, r, op))
  {
    hide PortInv, Add, ObserveFrom, Remove;
    match op
    case Register(target, requested, key, current) =>
      AddKeeps(p, target, requested, key, current);
      if Add(p, target, requested, key, current).1.Ok? { AddRefines(p, r, target, requested, key, current); }
    case Unregister(key) =>
      RemoveKeeps(p, key);
      RemoveRefines(p, r, key);
    case Level(target, current) =>
      ObserveKeeps(p, target, current, 0);
      ObserveRefines(p, r, r.edges, target, current, 0);
    case Deliver =>
      PopKeeps(p);
      PopRefines(p, r);
  }

  /** With a queue as long as the number of keys that can be registered, no run overflows, and the port always
      shows the coalescing of the edges that the reference machine has not delivered. */
  lemma {:induction false} RunsDeliverEdges(p: Port, r: Reference, ops: seq<Op>, last: Op)
    requires PortInv(p) && Refines(p, r) && MaxEvents(p) <= p.eventCapacity
    ensures !Overflows(Run(p, ops), last) && PortInv(Run(p, ops)) && Refines(Run(p, ops), RefRun(p, r, ops))
    decreases |ops|
  {
    if ops == [] {
      StepRefines(p, r, last);
    } else {
      StepRefines(p, r, ops[0]);
      CapacitiesStay(p, ops[0]);
      RunsDeliverEdges(Next(p, ops[0]), RefNext(p, r, ops[0]), ops[1..], last);
    }
  }

  // ---------------------------------------------------------------- the capacity condition is exact

  function Empty(registrations: nat, events: nat, maximumKey: nat): Port {
    Port(registrations, events, maximumKey, [], [])
  }

  const LEVEL: Signals := {0}
  const WATCHED: Target := Target(1, 1)

  /** Registrations under the keys 0 to `n - 1`, each with its bit already set. */
  function Fill(n: nat): seq<Op> {
    seq(n, k requires 0 <= k < n => Register(WATCHED, LEVEL, k, LEVEL))
  }

  /** The port after `n` such registrations. */
  function Filled(p: Port, n: nat): Port {
    p.(registrations := seq(n, k requires 0 <= k < n => Registration(WATCHED, LEVEL, k, LEVEL)),
        events := seq(n, k requires 0 <= k < n => Event(k, LEVEL)))
  }

  lemma FillOne(p: Port, n: nat)
    requires n < p.registrationCapacity && n <= p.maximumKey
    ensures Add(Filled(p, n), WATCHED, LEVEL, n, LEVEL) ==
            if n < p.eventCapacity then (Filled(p, n + 1), Ok(())) else (Filled(p, n), Err(EventQueueFull))
  {
    var q := Filled(p, n);
    assert LEVEL * LEVEL == LEVEL && LEVEL != {};
    assert forall i :: 0 <= i < n ==> KeyOf(q.registrations[i]) == i && EventKey(q.events[i]) == i;
    assert q.registrations + [Registration(WATCHED, LEVEL, n, LEVEL)] == Filled(p, n + 1).registrations;
    assert q.events + [Event(n, LEVEL)] == Filled(p, n + 1).events;
  }

  lemma {:induction false} FillRuns(p: Port, k: nat, n: nat)
    requires k <= n <= p.eventCapacity && n <= p.registrationCapacity && n <= p.maximumKey + 1
    ensures Run(Filled(p, k), Fill(n)[k..]) == Filled(p, n)
    decreases n - k
  {
    if k < n {
      FillOne(p, k);
      assert Fill(n)[k..][1..] == Fill(n)[k + 1..] && Fill(n)[k..][0] == Register(WATCHED, LEVEL, k, LEVEL);
      FillRuns(p, k + 1, n);
    } else {
      assert Fill(n)[k..] == [];
    }
  }

  /** A queue can overflow in some run iff it is shorter than the number of keys that can be registered. */
  lemma OverflowIffTooShort(registrations: nat, events: nat, maximumKey: nat)
    ensures var p := Empty(registrations, events, maximumKey);
            (exists ops, last :: Overflows(Run(p, ops), last)) <==> events < MaxEvents(p)
  {
    var p := Empty(registrations, events, maximumKey);
    if events < MaxEvents(p) {
      FillRuns(p, 0, events);
      assert Filled(p, 0) == p && Fill(events)[0..] == Fill(events);
      FillOne(p, events);
      assert Overflows(Run(p, Fill(events)), Register(WATCHED, LEVEL, events, LEVEL));
    } else {
      forall ops: seq<Op>, last: Op ensures !Overflows(Run(p, ops), last) {
        RunsDeliverEdges(p, Reference([], []), ops, last);
      }
    }
  }
}
