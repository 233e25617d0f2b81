/** The mutable event port (`State` in kernel/src/event_port.rs), proved against the operations on values. */
module EventPort {
  import opened Common
  import opened EventPorts
  import P = EventPorts

  class State {
    const registrationCapacity: nat
    const eventCapacity: nat
    const maximumKey: nat
    var registrations: seq<Registration>
    var events: seq<Event>

    function Value(): Port
      reads this
    {
      Port(registrationCapacity, eventCapacity, maximumKey, registrations, events)
    }

    ghost predicate Valid()
      reads this
    {
      PortInv(Value())
    }

    constructor (registrationCapacity: nat, eventCapacity: nat, maximumKey: nat)
      ensures Valid() && Value() == Port(registrationCapacity, eventCapacity, maximumKey, [], [])
    {
      this.registrationCapacity, this.eventCapacity, this.maximumKey := registrationCapacity, eventCapacity, maximumKey;
      registrations, events := [], [];
    }

    method Add(target: Target, requested: Signals, key: nat, current: Signals) returns (r: Result<(), PortError>)
      requires Valid()
      modifies this
      ensures Valid() && (Value(), r) == P.Add(old(Value()), target, requested, key, current)
      ensures MaxEvents(Value()) <= eventCapacity ==> r != Err(EventQueueFull)
    {
      AddKeeps(Value(), target, requested, key, current);
      if target.id == 0 || target.kind == 0 { return Err(InvalidTarget); }
      if requested == {} { return Err(InvalidSignals); }
      if key > maximumKey { return Err(InvalidKey); }
      if IndexOf(registrations, KeyOf, key).Some? { return Err(DuplicateKey); }
      if |registrations| >= registrationCapacity { return Err(Full); }
      var observed := current * requested;
      if observed != {} {
        var queued := Queue(key, observed);
        if !queued { return Err(EventQueueFull); }
      }
      registrations := registrations + [Registration(target, requested, key, observed)];
      r := Ok(());
    }

    method Remove(key: nat) returns (r: Result<Registration, PortError>)
      requires Valid()
      modifies this
      ensures Valid() && (Value(), r) == P.Remove(old(Value()), key)
    {
      RemoveKeeps(Value(), key);
      var found := IndexOf(registrations, KeyOf, key);
      if found.None? { return Err(UnknownKey); }
      r := Ok(registrations[found.value]);
      registrations := RemoveAt(registrations, found.value);
      events := WithoutKey(events, key);
    }

    method Observe(target: Target, current: Signals) returns (failed: Option<PortError>)
      requires Valid()
      modifies this
      ensures Valid() && (Value(), failed) == P.Observe(old(Value()), target, current)
      ensures MaxEvents(Value()) <= eventCapacity ==> failed.None?
    {
      ObserveKeeps(Value(), target, current, 0);
      ghost var p := Value();
      var i := 0;
      while i < |registrations|
        invariant 0 <= i <= |registrations|
        invariant ObserveFrom(p, target, current, 0) == ObserveFrom(Value(), target, current, i)
        decreases |registrations| - i
      {
        var registration := registrations[i];
        if registration.target == target {
          var asserted := current * registration.requested;
          var rising := asserted - registration.observed;
          if rising != {} {
            var queued := Queue(registration.key, rising);
            if !queued { return Some(EventQueueFull); }
          }
          registrations := registrations[i := registration.(observed := asserted)];
        }
        i := i + 1;
      }
      failed := None;
    }

    method Queue(key: nat, signals: Signals) returns (queued: bool)
      modifies this`events
      ensures var q := QueueEvent(old(events), eventCapacity, key, signals);
              queued == q.Some? && events == if queued then q.value else old(events)
    {
      var found := IndexOf(events, EventKey, key);
      if found.Some? {
        events := events[found.value := Event(key, events[found.value].signals + signals)];
        return true;
      }
      if |events| >= eventCapacity { return false; }
      events := events + [Event(key, signals)];
      queued := true;
    }

    method PopEvent() returns (e: Option<Event>)
      requires Valid()
      modifies this`events
      ensures Valid() && (Value(), e) == P.PopEvent(old(Value()))
    {
      PopKeeps(Value());
      if events == [] { return None; }
      e := Some(events[0]);
      events := events[1..];
    }
  }
}
