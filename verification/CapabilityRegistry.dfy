/** The mutable capability registry (`CapabilityRegistry` in kernel/src/capability.rs), proved against the
    operations on values. */
module CapabilityRegistry {
  import opened Common
  import opened Capabilities
  import C = Capabilities
  import opened CapabilityInvariant
  import opened CapabilitySafety

  class CapabilityRegistry {
    var nextObject: nat
    var holders: seq<Holder>
    var objects: seq<Object>

    function State(): Registry
      reads this
    {
      Registry(nextObject, holders, objects)
    }

    ghost predicate Valid()
      reads this
    {
      RegInv(State())
    }

    constructor ()
      ensures Valid() && State() == Registry(1, [], [])
    {
      nextObject, holders, objects := 1, [], [];
    }

    method EnsureProcess(p: nat) returns (failed: Option<CapabilityError>)
      modifies this`holders
      ensures (State(), failed) == C.EnsureProcess(old(State()), p)
      ensures old(Valid()) ==> Valid()
    {
      ghost var r := State();
      if IndexOf(holders, ProcessId, p).Some? {
        failed := None;
      } else if |holders| >= MAX_CAPABILITY_PROCESSES {
        failed := Some(ProcessLimit);
      } else {
        holders := holders + [Holder(p, [])];
        failed := None;
      }
      if RegInv(r) { EnsureSafe(r, p); }
    }

    method RemoveProcess(p: nat) returns (r: Result<(), CapabilityError>)
      requires Valid()
      modifies this
      ensures Valid() && (State(), r) == C.RemoveProcess(old(State()), p)
    {
      RemoveProcessSafe(State(), p);
      var found := IndexOf(holders, ProcessId, p);
      if found.None? { return Err(InvalidProcess); }
      holders := SwapRemove(holders, found.value);
      CollectUnnamed();
      r := Ok(());
    }

    method CreateObject(p: nat, ty: ObjectType, rights: Rights) returns (r: Result<Metadata, CapabilityError>)
      requires Valid()
      modifies this
      ensures Valid() && (State(), r) == C.CreateObject(old(State()), p, ty, rights)
    {
      CreateObjectSafe(State(), p, ty, rights);
      if !ValidRights(ty, rights) { return Err(InvalidRights); }
      var failed := EnsureProcess(p);
      if failed.Some? { return Err(failed.value); }
      if |objects| >= MAX_CAPABILITY_OBJECTS { return Err(ObjectLimit); }
      if nextObject == 0 || nextObject == U64_MAX { return Err(ObjectIdExhausted); }
      var id := nextObject;
      nextObject := id + 1;
      ghost var before := objects;
      objects := objects + [Object(id, ty, false)];
      ghost var pushed := objects;
      r := Install(p, Entry(id, ty, rights));
      InstallKeepsObjects(Registry(id + 1, old(C.EnsureProcess(State(), p).0.holders), pushed), p,
          Entry(id, ty, rights));
      if r.Err? {
        objects := objects[..|objects| - 1];
        assert objects == before;
      }
    }

    method Duplicate(p: nat, source: Handle, requested: Rights) returns (r: Result<Metadata, CapabilityError>)
      requires Valid()
      modifies this
      ensures Valid() && (State(), r) == C.Duplicate(old(State()), p, source, requested)
    {
      DuplicateSafe(State(), p, source, requested);
      var found := LookUp(State(), p, source);
      if found.Err? { return found; }
      var entry := found.value.entry;
      if DUPLICATE !in entry.rights { return Err(RightsMissing); }
      if !(requested <= entry.rights) { return Err(RightsEscalation); }
      r := Install(p, entry.(rights := requested));
    }

    /** A failed installation leaves the source handle intact; closing it afterwards cannot fail. */
    method Transfer(p: nat, source: Handle, target: nat, requested: Rights)
        returns (r: Result<Metadata, CapabilityError>)
      requires Valid()
      modifies this
      ensures Valid() && (State(), r) == C.Transfer(old(State()), p, source, target, requested)
    {
      hide RegInv, C.Install, C.Close, C.LookUp, Safe;
      TransferSafe(State(), p, source, target, requested);
      SafeMeans(State(), C.Transfer(State(), p, source, target, requested).0);
      var found := LookUp(State(), p, source);
      if found.Err? { return found; }
      var entry := found.value.entry;
      if TRANSFER !in entry.rights { return Err(RightsMissing); }
      if !(requested <= entry.rights) { return Err(RightsEscalation); }
      r := Install(target, entry.(rights := requested));
      if r.Err? { return; }
      var closed := Close(p, source);
      if closed.Err? { return Err(closed.error); }
    }

    method Reduce(p: nat, h: Handle, requested: Rights) returns (r: Result<Metadata, CapabilityError>)
      requires Valid()
      modifies this`holders
      ensures Valid() && (State(), r) == C.Reduce(old(State()), p, h, requested)
    {
      ReduceSafe(State(), p, h, requested);
      var found := ValidateHandle(State(), p, h);
      if found.Err? { return Err(found.error); }
      var (i, j) := found.value;
      var slot := holders[i].slots[j];
      if slot.entry.None? { return Err(InvalidHandle); }
      if !(requested <= slot.entry.value.rights) { return Err(RightsEscalation); }
      var entry := slot.entry.value.(rights := requested);
      holders := holders[i := holders[i].(slots := holders[i].slots[j := slot.(entry := Some(entry))])];
      r := Ok(Metadata(h, entry));
    }

    method Close(p: nat, h: Handle) returns (r: Result<(), CapabilityError>)
      modifies this
      ensures (State(), r) == C.Close(old(State()), p, h)
    {
      var found := ValidateHandle(State(), p, h);
      if found.Err? { return Err(found.error); }
      var (i, j) := found.value;
      var slot := holders[i].slots[j];
      if slot.entry.None? { return Err(InvalidHandle); }
      var next := if slot.generation < U32_MAX then slot.generation + 1 else 0;
      holders := holders[i := holders[i].(slots := holders[i].slots[j := Slot(next, None)])];
      CollectUnnamed();
      r := Ok(());
    }

    method Revoke(o: nat) returns (r: Result<(), CapabilityError>)
      requires Valid()
      modifies this`objects
      ensures Valid() && (State(), r) == C.Revoke(old(State()), o)
    {
      RevokeSafe(State(), o);
      var found := IndexOf(objects, ObjectId, o);
      if found.None? { return Err(ObjectNotFound); }
      objects := objects[found.value := objects[found.value].(revoked := true)];
      r := Ok(());
    }

    method Install(p: nat, entry: Entry) returns (r: Result<Metadata, CapabilityError>)
      modifies this`holders
      ensures (State(), r) == C.Install(old(State()), p, entry)
    {
      if !ValidRights(entry.ty, entry.rights) { return Err(InvalidRights); }
      var found := Lookup(objects, ObjectId, entry.obj);
      if found.None? { return Err(ObjectNotFound); }
      if found.value.revoked { return Err(Revoked); }
      if found.value.ty != entry.ty { return Err(TypeMismatch); }
      var failed := EnsureProcess(p);
      if failed.Some? { return Err(failed.value); }
      var at := IndexOf(holders, ProcessId, p);
      if at.None? { return Err(InvalidProcess); }
      var slots := holders[at.value].slots;
      var free := FreeSlot(slots, 0);
      var h: Handle;
      if free.Some? {
        h := Handle(free.value, slots[free.value].generation);
        slots := slots[free.value := slots[free.value].(entry := Some(entry))];
      } else {
        if |slots| >= MAX_CAPABILITY_SLOTS { return Err(HandleLimit); }
        h := Handle(|slots|, 1);
        slots := slots + [Slot(1, Some(entry))];
      }
      holders := holders[at.value := holders[at.value].(slots := slots)];
      r := Ok(Metadata(h, entry));
    }

    /** `retain` over the objects, from the first to the last. */
    method CollectUnnamed()
      modifies this`objects
      ensures State() == Collect(old(State()))
    {
      var kept: seq<Object> := [];
      var i := 0;
      while i < |objects|
        invariant objects == old(objects) && 0 <= i <= |objects| && kept == KeepNamed(objects[..i], holders)
      {
        assert objects[..i + 1][..i] == objects[..i];
        if Named(holders, objects[i].id) { kept := kept + [objects[i]]; }
        i := i + 1;
      }
      assert objects[..i] == objects;
      objects := kept;
    }
  }

  lemma SafeMeans(r: Registry, r': Registry)
    ensures Safe(r, r', None, None) ==> RegInv(r')
  {
  }

  lemma InstallKeepsObjects(r: Registry, p: nat, entry: Entry)
    ensures C.Install(r, p, entry).0.objects == r.objects
  {
  }
}
