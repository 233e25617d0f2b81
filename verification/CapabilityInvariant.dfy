/** What every capability operation keeps: entries agree with their objects in type and rights, and an object
    is registered iff some handle names it. */
module CapabilityInvariant {
  import opened Common
  import opened Capabilities

  // ---------------------------------------------------------------- slots and handle counts

  function SlotAt(holders: seq<Holder>, p: nat, j: nat): Option<Slot> {
    match Lookup(holders, ProcessId, p)
    case None => None
    case Some(h) => if j < |h.slots| then Some(h.slots[j]) else None
  }

  predicate HasProcess(holders: seq<Holder>, p: nat) {
    Lookup(holders, ProcessId, p).Some?
  }

  function Occurs(o: nat): Slot -> nat {
    (slot: Slot) => if slot.entry.Some? && slot.entry.value.obj == o then 1 else 0
  }

  function Holds(o: nat): Holder -> nat {
    (h: Holder) => Sum(h.slots, Occurs(o))
  }

  /** The number of handles naming object `o`, over all processes. */
  function HandleCount(holders: seq<Holder>, o: nat): nat {
    Sum(holders, Holds(o))
  }

  predicate Registered(objects: seq<Object>, o: nat) {
    Lookup(objects, ObjectId, o).Some?
  }

  // ---------------------------------------------------------------- the invariant

  /** An entry agrees with the registered object it names. */
  predicate EntryOk(objects: seq<Object>, slot: Slot) {
    slot.entry.Some? ==>
      && slot.generation != 0
      && Registered(objects, slot.entry.value.obj)
      && Lookup(objects, ObjectId, slot.entry.value.obj).value.ty == slot.entry.value.ty
      && slot.entry.value.rights <= AllowedRights(slot.entry.value.ty)
  }

  ghost predicate HoldersOk(holders: seq<Holder>) {
    && Unique(holders, ProcessId) && |holders| <= MAX_CAPABILITY_PROCESSES
    && forall i :: 0 <= i < |holders| ==> |holders[i].slots| <= MAX_CAPABILITY_SLOTS
  }

  ghost predicate Sound(r: Registry) {
    && HoldersOk(r.holders) && Unique(r.objects, ObjectId)
    && (forall o: nat :: Registered(r.objects, o) ==> o < r.nextObject)
    && (forall p, j :: SlotAt(r.holders, p, j).Some? ==> EntryOk(r.objects, SlotAt(r.holders, p, j).value))
  }

  ghost predicate RegInv(r: Registry) {
    Sound(r) && forall o :: Registered(r.objects, o) <==> HandleCount(r.holders, o) > 0
  }

  // ---------------------------------------------------------------- one holder changes

  lemma ReplaceHolder(holders: seq<Holder>, i: nat, holder: Holder)
    requires HoldersOk(holders) && i < |holders| && holder.process == holders[i].process
    requires |holder.slots| <= MAX_CAPABILITY_SLOTS
    ensures var holders' := holders[i := holder];
            && HoldersOk(holders')
            && (forall o ::
                HandleCount(holders', o) ==
                HandleCount(holders, o) - Holds(o)(holders[i]) + Holds(o)(holder))
            && (forall p :: HasProcess(holders', p) <==> HasProcess(holders, p))
            && (forall p: nat, j: nat :: SlotAt(holders', p, j) ==
                  if p == holder.process then (if j < |holder.slots| then Some(holder.slots[j]) else None)
                  else SlotAt(holders, p, j))
            && (forall j: nat :: SlotAt(holders, holder.process, j) ==
                  if j < |holders[i].slots| then Some(holders[i].slots[j]) else None)
  {
    LookupSet(holders, ProcessId, i, holder);
    UniqueIndex(holders, ProcessId, i);
    forall o
      ensures HandleCount(holders[i := holder], o) == HandleCount(holders, o) - Holds(o)(holders[i]) + Holds(o)(holder)
    {
      SumSet(holders, Holds(o), i, holder);
    }
  }

  /** Slot `j0` of process `p0` now holds `slot`; every other slot of every process is as before. */
  ghost predicate Reslotted(holders: seq<Holder>, holders': seq<Holder>, p0: nat, j0: nat, slot: Slot) {
    forall p, j :: SlotAt(holders', p, j) == if p == p0 && j == j0 then Some(slot) else SlotAt(holders, p, j)
  }

  lemma SetSlotEffect(r: Registry, i: nat, j: nat, slot: Slot)
    requires HoldersOk(r.holders) && i < |r.holders| && j < |r.holders[i].slots|
    ensures var r' := SetSlot(r, i, j, slot); var p := r.holders[i].process;
            && HoldersOk(r'.holders) && Reslotted(r.holders, r'.holders, p, j, slot)
            && SlotAt(r.holders, p, j) == Some(r.holders[i].slots[j])
            && (forall q :: HasProcess(r'.holders, q) <==> HasProcess(r.holders, q))
            && (forall o :: HandleCount(r'.holders, o) ==
                  HandleCount(r.holders, o) - Occurs(o)(r.holders[i].slots[j]) + Occurs(o)(slot))
  {
    var holder := r.holders[i].(slots := r.holders[i].slots[j := slot]);
    ReplaceHolder(r.holders, i, holder);
    forall o ensures Holds(o)(holder) == Holds(o)(r.holders[i]) - Occurs(o)(r.holders[i].slots[j]) + Occurs(o)(slot) {
      SumSet(r.holders[i].slots, Occurs(o), j, slot);
    }
  }

  lemma EnsureEffect(r: Registry, p: nat)
    requires HoldersOk(r.holders)
    ensures var ensured := EnsureProcess(r, p); var r' := ensured.0;
            && HoldersOk(r'.holders) && r' == r.(holders := r'.holders)
            && (ensured.1.Some? ==> r' == r && ensured.1.value == ProcessLimit)
            && (ensured.1.Some? <==> !HasProcess(r.holders, p) && |r.holders| >= MAX_CAPABILITY_PROCESSES)
            && (ensured.1.None? ==> HasProcess(r'.holders, p))
            && (HasProcess(r.holders, p) ==> r' == r)
            && (forall q :: HasProcess(r.holders, q) ==> HasProcess(r'.holders, q))
            && (forall q, j :: SlotAt(r'.holders, q, j) == SlotAt(r.holders, q, j))
            && (forall o :: HandleCount(r'.holders, o) == HandleCount(r.holders, o))
            && (!HasProcess(r.holders, p) && ensured.1.None? ==>
                Lookup(r'.holders, ProcessId, p) == Some(Holder(p, [])))
  {
    if !HasProcess(r.holders, p) {
      LookupPush(r.holders, ProcessId, Holder(p, []));
      forall o ensures HandleCount(r.holders + [Holder(p, [])], o) == HandleCount(r.holders, o) {
        SumPush(r.holders, Holds(o), Holder(p, []));
      }
    }
  }

  lemma OccupyEffect(slots: seq<Slot>, entry: Entry)
    requires |slots| <= MAX_CAPABILITY_SLOTS && Occupy(slots, entry).Some?
    ensures var (slots', h) := Occupy(slots, entry).value;
            && |slots'| <= MAX_CAPABILITY_SLOTS && h.slot < |slots'| && h.slot <= |slots| && h.generation != 0
            && slots'[h.slot] == Slot(h.generation, Some(entry))
            && |slots'| == (if h.slot == |slots| then |slots| + 1 else |slots|)
            && (h.slot < |slots| ==> slots[h.slot] == Slot(h.generation, None))
            && (h.slot == |slots| ==> h.generation == 1)
            && (forall j :: 0 <= j < |slots| && j != h.slot ==> slots'[j] == slots[j])
            && (forall o :: Sum(slots', Occurs(o)) == Sum(slots, Occurs(o)) + if o == entry.obj then 1 else 0)
  {
    var (slots', h) := Occupy(slots, entry).value;
    forall o ensures Sum(slots', Occurs(o)) == Sum(slots, Occurs(o)) + if o == entry.obj then 1 else 0 {
      if h.slot < |slots| && FreeSlot(slots, 0).Some? {
        SumSet(slots, Occurs(o), h.slot, slots'[h.slot]);
      } else {
        SumPush(slots, Occurs(o), Slot(1, Some(entry)));
      }
    }
  }

  // ---------------------------------------------------------------- installing a handle

  /** A new handle: its slot was absent, or empty with this same generation. */
  ghost predicate NewHandle(holders: seq<Holder>, holders': seq<Holder>, p: nat, h: Handle, entry: Entry) {
    && h.generation != 0 && HasProcess(holders', p)
    && (forall q :: HasProcess(holders, q) ==> HasProcess(holders', q))
    && Reslotted(holders, holders', p, h.slot, Slot(h.generation, Some(entry)))
    && (SlotAt(holders, p, h.slot) == None || SlotAt(holders, p, h.slot) == Some(Slot(h.generation, None)))
    && (forall o :: HandleCount(holders', o) == HandleCount(holders, o) + if o == entry.obj then 1 else 0)
  }

  lemma InstallHolder(r: Registry, p: nat, entry: Entry)
    requires HoldersOk(r.holders) && HasProcess(r.holders, p)
    ensures var i := IndexOf(r.holders, ProcessId, p).value; var put := Occupy(r.holders[i].slots, entry);
            put.Some? ==>
              var holders' := r.holders[i := r.holders[i].(slots := put.value.0)];
              HoldersOk(holders') && NewHandle(r.holders, holders', p, put.value.1, entry)
  {
    var i := IndexOf(r.holders, ProcessId, p).value;
    var put := Occupy(r.holders[i].slots, entry);
    if put.Some? {
      hide Occupy;
      OccupyEffect(r.holders[i].slots, entry);
      ReplaceHolder(r.holders, i, r.holders[i].(slots := put.value.0));
    }
  }

  /** A new slot can be had, or an empty one whose generation is not exhausted. */
  predicate SlotsFree(slots: seq<Slot>) {
    |slots| < MAX_CAPABILITY_SLOTS || exists j :: 0 <= j < |slots| && slots[j].entry.None? && slots[j].generation != 0
  }

  lemma OccupyIff(slots: seq<Slot>, entry: Entry)
    ensures Occupy(slots, entry).Some? <==> SlotsFree(slots)
  {
  }

  /** Process `p` can take one handle more, being registered on the way if it is not. */
  predicate HasRoom(holders: seq<Holder>, p: nat) {
    if HasProcess(holders, p) then SlotsFree(Lookup(holders, ProcessId, p).value.slots)
    else |holders| < MAX_CAPABILITY_PROCESSES
  }

  lemma RoomAfterEnsure(r: Registry, p: nat)
    requires HoldersOk(r.holders)
    ensures HasRoom(r.holders, p) <==>
            EnsureProcess(r, p).1.None? && HasRoom(EnsureProcess(r, p).0.holders, p)
  {
    hide SlotAt, HandleCount, EnsureProcess;
    EnsureEffect(r, p);
  }

  /** Installation succeeds exactly for a live object of the right type, valid rights and a process with room,
      and adds one handle; a refusal changes nothing. */
  lemma InstallEffect(r: Registry, p: nat, entry: Entry)
    requires Sound(r)
    ensures var installed := Install(r, p, entry); var r' := installed.0;
            && Sound(r') && (installed.1.Err? ==> r' == r)
            && (installed.1.Ok? <==>
                  && ValidRights(entry.ty, entry.rights) && HasRoom(r.holders, p)
                  && Lookup(r.objects, ObjectId, entry.obj) == Some(Object(entry.obj, entry.ty, false)))
            && (installed.1.Ok? ==>
                  && installed.1.value.entry == entry
                  && r' == r.(holders := r'.holders)
                  && NewHandle(r.holders, r'.holders, p, installed.1.value.handle, entry))
  {
    hide Occupy, EnsureProcess, SlotAt, HandleCount, NewHandle, HoldersOk, EntryOk, SlotsFree;
    EnsureEffect(r, p);
    RoomAfterEnsure(r, p);
    var r1 := EnsureProcess(r, p).0;
    if EnsureProcess(r, p).1.None? {
      InstallHolder(r1, p, entry);
      OccupyIff(Lookup(r1.holders, ProcessId, p).value.slots, entry);
      var r' := Install(r, p, entry).0;
      if Install(r, p, entry).1.Ok? {
        NewHandleAfter(r.holders, r1.holders, r'.holders, p, Install(r, p, entry).1.value.handle, entry);
        NewHandleSound(r, r', p, Install(r, p, entry).1.value.handle, entry);
      } else if !HasProcess(r.holders, p) {
        assert Occupy([], entry).Some? by { OccupyEmpty(entry); }
      }
    }
  }

  lemma OccupyEmpty(entry: Entry)
    ensures Occupy([], entry).Some?
  {
  }

  lemma NewHandleAfter(holders: seq<Holder>, holders1: seq<Holder>, holders': seq<Holder>, p: nat, h: Handle,
      entry: Entry)
    requires NewHandle(holders1, holders', p, h, entry)
    requires forall q :: HasProcess(holders, q) ==> HasProcess(holders1, q)
    requires forall q, j :: SlotAt(holders1, q, j) == SlotAt(holders, q, j)
    requires forall o :: HandleCount(holders1, o) == HandleCount(holders, o)
    ensures NewHandle(holders, holders', p, h, entry)
  {
  }

  lemma NewHandleSound(r: Registry, r': Registry, p: nat, h: Handle, entry: Entry)
    requires Sound(r) && HoldersOk(r'.holders) && r' == r.(holders := r'.holders)
    requires NewHandle(r.holders, r'.holders, p, h, entry) && ValidRights(entry.ty, entry.rights)
    requires Lookup(r.objects, ObjectId, entry.obj) == Some(Object(entry.obj, entry.ty, false))
    ensures Sound(r')
  {
  }

  // ---------------------------------------------------------------- collecting objects

  lemma NamesIsCount(slots: seq<Slot>, o: nat)
    ensures Names(slots, o) <==> Sum(slots, Occurs(o)) > 0
  {
  }

  lemma NamedIsCount(holders: seq<Holder>, o: nat)
    ensures Named(holders, o) <==> HandleCount(holders, o) > 0
  {
    forall i | 0 <= i < |holders| ensures Names(holders[i].slots, o) <==> Holds(o)(holders[i]) > 0 {
      NamesIsCount(holders[i].slots, o);
    }
    if Named(holders, o) {
      var i :| 0 <= i < |holders| && Names(holders[i].slots, o);
      SumSet(holders, Holds(o), i, holders[i]);
    } else {
      SumBound(holders, Holds(o), 0);
    }
  }

  lemma {:induction false} KeepNamedEffect(objects: seq<Object>, holders: seq<Holder>)
    requires Unique(objects, ObjectId)
    ensures Unique(KeepNamed(objects, holders), ObjectId)
    ensures forall x :: x in KeepNamed(objects, holders) <==> x in objects && Named(holders, x.id)
  {
    if objects != [] {
      var front, last := objects[..|objects| - 1], objects[|objects| - 1];
      KeepNamedEffect(front, holders);
      assert objects == front + [last];
      var kept := KeepNamed(front, holders);
      forall i | 0 <= i < |kept| ensures ObjectId(kept[i]) != ObjectId(last) {
        assert kept[i] in front;
        var m :| 0 <= m < |front| && front[m] == kept[i];
        assert ObjectId(objects[m]) != ObjectId(objects[|front|]);
      }
    }
  }

  lemma KeptLookup(objects: seq<Object>, holders: seq<Holder>, o: nat)
    requires Unique(objects, ObjectId)
    ensures Lookup(KeepNamed(objects, holders), ObjectId, o) ==
            if HandleCount(holders, o) > 0 then Lookup(objects, ObjectId, o) else None
  {
    hide KeepNamed, Named, HandleCount;
    KeepNamedEffect(objects, holders);
    NamedIsCount(holders, o);
    var kept := KeepNamed(objects, holders);
    var was, now := Lookup(objects, ObjectId, o), Lookup(kept, ObjectId, o);
    if now.Some? { LookupMember(objects, ObjectId, now.value); }
    if was.Some? && was.value in kept { LookupMember(kept, ObjectId, was.value); }
  }

  /** Collection leaves exactly the objects that some handle names. */
  lemma CollectEffect(r: Registry)
    requires Sound(r)
    ensures RegInv(Collect(r))
    ensures forall o :: Lookup(Collect(r).objects, ObjectId, o) ==
                        if HandleCount(r.holders, o) > 0 then Lookup(r.objects, ObjectId, o) else None
  {
    hide HandleCount, KeepNamed, HoldersOk, SlotAt;
    KeepNamedEffect(r.objects, r.holders);
    forall o ensures Lookup(Collect(r).objects, ObjectId, o) ==
                     if HandleCount(r.holders, o) > 0 then Lookup(r.objects, ObjectId, o) else None {
      KeptLookup(r.objects, r.holders, o);
    }
    forall p: nat, j: nat | SlotAt(r.holders, p, j).Some?
      ensures EntryOk(Collect(r).objects, SlotAt(r.holders, p, j).value)
    {
      var slot := SlotAt(r.holders, p, j).value;
      if slot.entry.Some? { EntryIsCounted(r.holders, p, j); }
    }
    forall o: nat
      ensures Registered(Collect(r).objects, o) <==> HandleCount(r.holders, o) > 0
      ensures Registered(Collect(r).objects, o) ==> o < r.nextObject
    {
      assert Registered(Collect(r).objects, o) ==> Registered(r.objects, o);
      if HandleCount(r.holders, o) > 0 { CountedIsRegistered(r, o); }
    }
  }

  lemma EntryIsCounted(holders: seq<Holder>, p: nat, j: nat)
    requires SlotAt(holders, p, j).Some? && SlotAt(holders, p, j).value.entry.Some?
    ensures HandleCount(holders, SlotAt(holders, p, j).value.entry.value.obj) > 0
  {
    var i := IndexOf(holders, ProcessId, p).value;
    var o := holders[i].slots[j].entry.value.obj;
    SumSet(holders[i].slots, Occurs(o), j, holders[i].slots[j]);
    SumSet(holders, Holds(o), i, holders[i]);
  }

  lemma CountedIsRegistered(r: Registry, o: nat)
    requires Sound(r) && HandleCount(r.holders, o) > 0
    ensures Registered(r.objects, o)
  {
    NamedIsCount(r.holders, o);
    var i :| 0 <= i < |r.holders| && Names(r.holders[i].slots, o);
    var j :| 0 <= j < |r.holders[i].slots| && r.holders[i].slots[j].entry.Some?
        && r.holders[i].slots[j].entry.value.obj == o;
    UniqueIndex(r.holders, ProcessId, i);
    assert SlotAt(r.holders, r.holders[i].process, j) == Some(r.holders[i].slots[j]);
  }
}
