/** Edge-triggered event ports (kernel/src/event_port.rs), as functions on values. Signals are sets of bit
    numbers (kernel/src/object.rs). */
module EventPorts {
  import opened Common

  type Signals = set<nat>

  datatype Target = Target(id: nat, kind: nat)

  datatype Registration = Registration(target: Target, requested: Signals, key: nat, observed: Signals)

  datatype Event = Event(key: nat, signals: Signals)

  datatype Port = Port(registrationCapacity: nat, eventCapacity: nat, maximumKey: nat,
                       registrations: seq<Registration>, events: seq<Event>)

  datatype PortError =
    InvalidTarget | InvalidSignals | InvalidKey | DuplicateKey | Full | EventQueueFull | UnknownKey

  function KeyOf(r: Registration): nat { r.key }

  function EventKey(e: Event): nat { e.key }

  /** The new queue, or nothing when a new event finds no room. */
  function QueueEvent(events: seq<Event>, capacity: nat, key: nat, signals: Signals): Option<seq<Event>> {
    match IndexOf(events, EventKey, key)
    case Some(i) => Some(events[i := Event(key, events[i].signals + signals)])
    case None => if |events| >= capacity then None else Some(events + [Event(key, signals)])
  }

  function Add(p: Port, target: Target, requested: Signals, key: nat, current: Signals): (Port, Result<(), PortError>) {
    if target.id == 0 || target.kind == 0 then (p, Err(InvalidTarget))
    else if requested == {} then (p, Err(InvalidSignals))
    else if key > p.maximumKey then (p, Err(InvalidKey))
    else if IndexOf(p.registrations, KeyOf, key).Some? then (p, Err(DuplicateKey))
    else if |p.registrations| >= p.registrationCapacity then (p, Err(Full))
    else
      var observed := current * requested;
      var queued := if observed == {} then Some(p.events) else QueueEvent(p.events, p.eventCapacity, key, observed);
      if queued.None? then (p, Err(EventQueueFull))
      else
        (p.(registrations := p.registrations + [Registration(target, requested, key, observed)],
            events := queued.value), Ok(()))
  }

  /** `events.retain(|e| e.key != key)`. */
  function WithoutKey(events: seq<Event>, key: nat): seq<Event> {
    if events == [] then []
    else
      var last := events[|events| - 1];
      WithoutKey(events[..|events| - 1], key) + if last.key == key then [] else [last]
  }

  function Remove(p: Port, key: nat): (Port, Result<Registration, PortError>) {
    match IndexOf(p.registrations, KeyOf, key)
    case None => (p, Err(UnknownKey))
    case Some(i) =>
      (p.(registrations := RemoveAt(p.registrations, i), events := WithoutKey(p.events, key)), Ok(p.registrations[i]))
  }

  /** The loop of `observe` from registration number `i` on; a full queue stops it there. */
  function ObserveFrom(p: Port, target: Target, current: Signals, i: nat): (Port, Option<PortError>)
    requires i <= |p.registrations|
    decreases |p.registrations| - i
  {
    if i == |p.registrations| then (p, None)
    else if p.registrations[i].target != target then ObserveFrom(p, target, current, i + 1)
    else
      var r := p.registrations[i];
      var asserted := current * r.requested;
      var rising := asserted - r.observed;
      var queued := if rising == {} then Some(p.events) else QueueEvent(p.events, p.eventCapacity, r.key, rising);
      if queued.None? then (p, Some(EventQueueFull))
      else
        ObserveFrom(p.(registrations := p.registrations[i := r.(observed := asserted)], events := queued.value),
            target, current, i + 1)
  }

  function Observe(p: Port, target: Target, current: Signals): (Port, Option<PortError>) {
    ObserveFrom(p, target, current, 0)
  }

  function PopEvent(p: Port): (Port, Option<Event>) {
    if p.events == [] then (p, None) else (p.(events := p.events[1..]), Some(p.events[0]))
  }

  // ---------------------------------------------------------------- the invariant

  function MaxEvents(p: Port): nat {
    if p.registrationCapacity <= p.maximumKey then p.registrationCapacity else p.maximumKey + 1
  }

  ghost predicate PortInv(p: Port) {
    && Unique(p.registrations, KeyOf) && |p.registrations| <= p.registrationCapacity
    && (forall i :: 0 <= i < |p.registrations| ==> p.registrations[i].key <= p.maximumKey)
    && Unique(p.events, EventKey)
    && (forall i :: 0 <= i < |p.events| ==> Lookup(p.registrations, KeyOf, p.events[i].key).Some?)
  }

  function EventKeys(events: seq<Event>): seq<nat> {
    seq(|events|, i requires 0 <= i < |events| => events[i].key)
  }

  /** Registered keys are distinct and bounded, so there are no more than the key space allows. */
  lemma RegistrationBound(p: Port)
    requires PortInv(p)
    ensures |p.registrations| <= MaxEvents(p)
  {
    var keys: seq<nat> := seq(|p.registrations|, i requires 0 <= i < |p.registrations| => p.registrations[i].key);
    var all: seq<nat> := seq(p.maximumKey + 1, i requires 0 <= i <= p.maximumKey => i);
    forall i, j | 0 <= i < j < |keys| ensures Id(keys[i]) != Id(keys[j]) {
      assert KeyOf(p.registrations[i]) != KeyOf(p.registrations[j]);
    }
    forall x | x in keys ensures Lookup(all, Id, x).Some? {
      assert Id(all[x]) == x;
    }
    Pigeonhole(keys, all, Id);
  }

  /** A registered key without an event leaves room in a queue as long as the registrations. */
  lemma RoomForEvent(p: Port, key: nat)
    requires PortInv(p) && Lookup(p.registrations, KeyOf, key).Some? && IndexOf(p.events, EventKey, key).None?
    ensures |p.events| < |p.registrations|
  {
    var keys := EventKeys(p.events) + [key];
    forall i, j | 0 <= i < j < |keys| ensures Id(keys[i]) != Id(keys[j]) {
      if j < |p.events| { assert EventKey(p.events[i]) != EventKey(p.events[j]); }
          else { assert EventKey(p.events[i]) != key; }
    }
    Pigeonhole(keys, p.registrations, KeyOf);
  }

  /** Queueing an event for a registered key keeps the invariant and, given enough room, never fails. */
  lemma QueueEventKeeps(p: Port, key: nat, signals: Signals)
    requires PortInv(p) && Lookup(p.registrations, KeyOf, key).Some?
    ensures var queued := QueueEvent(p.events, p.eventCapacity, key, signals);
            && (queued.Some? ==> PortInv(p.(events := queued.value)))
            && (MaxEvents(p) <= p.eventCapacity ==> queued.Some?)
  {
    var queued := QueueEvent(p.events, p.eventCapacity, key, signals);
    RegistrationBound(p);
    if IndexOf(p.events, EventKey, key).Some? {
      var i := IndexOf(p.events, EventKey, key).value;
      LookupSet(p.events, EventKey, i, Event(key, p.events[i].signals + signals));
    } else {
      RoomForEvent(p, key);
      LookupPush(p.events, EventKey, Event(key, signals));
    }
  }

  lemma AddKeeps(p: Port, target: Target, requested: Signals, key: nat, current: Signals)
    requires PortInv(p)
    ensures var r := Add(p, target, requested, key, current);
            && PortInv(r.0) && (r.1.Err? ==> r.0 == p)
            && (MaxEvents(p) <= p.eventCapacity ==> r.1 != Err(EventQueueFull))
  {
    hide QueueEvent, PortInv, IndexOf, Lookup;
    if IndexOf(p.registrations, KeyOf, key).None? && key <= p.maximumKey && |p.registrations| < p.registrationCapacity {
      var reg := Registration(target, requested, key, current * requested);
      RegisteredKeeps(p, reg);
      QueueEventKeeps(p.(registrations := p.registrations + [reg]), key, current * requested);
    }
  }

  lemma RegisteredKeeps(p: Port, reg: Registration)
    requires PortInv(p) && IndexOf(p.registrations, KeyOf, reg.key).None?
    requires reg.key <= p.maximumKey && |p.registrations| < p.registrationCapacity
    ensures var p' := p.(registrations := p.registrations + [reg]);
            PortInv(p') && Lookup(p'.registrations, KeyOf, reg.key).Some?
  {
    LookupPush(p.registrations, KeyOf, reg);
  }

  lemma {:induction false} ObserveKeeps(p: Port, target: Target, current: Signals, i: nat)
    requires PortInv(p) && i <= |p.registrations|
    ensures var r := ObserveFrom(p, target, current, i);
            PortInv(r.0) && (MaxEvents(p) <= p.eventCapacity ==> r.1.None?)
    decreases |p.registrations| - i
  {
    if i < |p.registrations| {
      var reg := p.registrations[i];
      if reg.target != target {
        ObserveKeeps(p, target, current, i + 1);
      } else {
        var asserted := current * reg.requested;
        var rising := asserted - reg.observed;
        var reg' := reg.(observed := asserted);
        LookupSet(p.registrations, KeyOf, i, reg');
        UniqueIndex(p.registrations, KeyOf, i);
        QueueEventKeeps(p, reg.key, rising);
        var queued := if rising == {} then Some(p.events) else QueueEvent(p.events, p.eventCapacity, reg.key, rising);
        if queued.Some? {
          ObserveKeeps(p.(registrations := p.registrations[i := reg'], events := queued.value), target, current, i + 1);
        }
      }
    }
  }

  lemma {:induction false} WithoutKeyMeaning(events: seq<Event>, key: nat)
    requires Unique(events, EventKey)
    ensures Unique(WithoutKey(events, key), EventKey)
    ensures forall e :: e in WithoutKey(events, key) <==> e in events && e.key != key
  {
    if events != [] {
      var front, last := events[..|events| - 1], events[|events| - 1];
      WithoutKeyMeaning(front, key);
      assert events == front + [last];
      var kept := WithoutKey(front, key);
      forall i | 0 <= i < |kept| ensures EventKey(kept[i]) != EventKey(last) {
        assert kept[i] in front;
        var m :| 0 <= m < |front| && front[m] == kept[i];
        assert EventKey(events[m]) != EventKey(events[|front|]);
      }
    }
  }

  lemma RemoveKeeps(p: Port, key: nat)
    requires PortInv(p)
    ensures PortInv(Remove(p, key).0)
  {
    var r := Remove(p, key);
    if r.1.Ok? {
      var i := IndexOf(p.registrations, KeyOf, key).value;
      LookupRemove(p.registrations, KeyOf, i);
      WithoutKeyMeaning(p.events, key);
      forall j | 0 <= j < |r.0.events| ensures Lookup(r.0.registrations, KeyOf, r.0.events[j].key).Some? {
        assert r.0.events[j] in p.events;
        var m :| 0 <= m < |p.events| && p.events[m] == r.0.events[j];
      }
    }
  }

  lemma PopKeeps(p: Port)
    requires PortInv(p)
    ensures PortInv(PopEvent(p).0)
  {
  }
}
