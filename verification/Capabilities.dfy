/** Generation-checked capability handles over kernel objects (kernel/src/capability.rs), as functions on
    values. Rights are sets of bit numbers (kernel/src/object.rs). */
module Capabilities {
  import opened Common

  const MAX_CAPABILITY_PROCESSES: nat := 64
  const MAX_CAPABILITY_SLOTS: nat := 128
  const MAX_CAPABILITY_OBJECTS: nat := 256
  // ---------------------------------------------------------------- rights

  type Rights = set<nat>

  const INSPECT: nat := 0
  const DUPLICATE: nat := 1
  const TRANSFER: nat := 2
  const WAIT: nat := 3
  const SIGNAL: nat := 4
  const READ: nat := 5
  const WRITE: nat := 6
  const MAP: nat := 7
  const SET_PROPERTY: nat := 9
  const MANAGE: nat := 10
  const BASIC: Rights := {INSPECT, DUPLICATE, TRANSFER, WAIT}

  datatype ObjectType =
    Process | Thread | AddressSpace | Job | Channel | Notification | Event | SharedMemory | Timer | EventPort | Device

  function AllowedRights(ty: ObjectType): Rights {
    match ty
    case Process => {INSPECT, DUPLICATE, TRANSFER, WAIT, SIGNAL, MANAGE}
    case Thread => {INSPECT, DUPLICATE, TRANSFER, WAIT, SIGNAL, MANAGE}
    case AddressSpace => {INSPECT, DUPLICATE, TRANSFER, MAP, MANAGE}
    case Job => BASIC + {SIGNAL, MANAGE}
    case Channel => BASIC + {READ, WRITE, SIGNAL}
    case Notification => BASIC + {SIGNAL}
    case Event => BASIC + {SIGNAL}
    case SharedMemory => BASIC + {READ, WRITE, MAP}
    case Timer => BASIC + {SET_PROPERTY}
    case EventPort => BASIC + {SIGNAL, SET_PROPERTY}
    case Device => BASIC + {READ, WRITE, MAP, MANAGE}
  }

  predicate ValidRights(ty: ObjectType, rights: Rights) {
    rights != {} && rights <= AllowedRights(ty)
  }

  // ---------------------------------------------------------------- the registry

  /** A handle names a slot and the generation of its use; generation 0 is never valid. */
  datatype Handle = Handle(slot: nat, generation: nat)

  /** The 64-bit form of a handle: 16 bits of slot below 32 bits of generation. */
  function Raw(h: Handle): nat {
    h.generation * 0x1_0000 + h.slot
  }

  function FromRaw(raw: nat): Option<Handle> {
    var generation := raw / 0x1_0000 % 0x1_0000_0000;
    if generation == 0 then None else Some(Handle(raw % 0x1_0000, generation))
  }

  lemma LowBits(high: nat, low: nat)
    requires low < 0x1_0000
    ensures (high * 0x1_0000 + low) / 0x1_0000 == high && (high * 0x1_0000 + low) % 0x1_0000 == low
  {
  }

  lemma LowWord(high: nat, low: nat)
    requires low < 0x1_0000_0000
    ensures (high * 0x1_0000_0000 + low) % 0x1_0000_0000 == low
  {
  }

  /** Unpacking inverts packing, and the bits above the generation are ignored. */
  lemma HandleRoundTrip(h: Handle, high: nat)
    requires h.slot <= 0xFFFF && 0 < h.generation <= U32_MAX
    ensures FromRaw((high * 0x1_0000_0000 + h.generation) * 0x1_0000 + h.slot) == Some(h)
    ensures FromRaw(Raw(h)) == Some(h)
  {
    LowBits(high * 0x1_0000_0000 + h.generation, h.slot);
    LowWord(high, h.generation);
    LowBits(h.generation, h.slot);
    LowWord(0, h.generation);
  }

  datatype Entry = Entry(obj: nat, ty: ObjectType, rights: Rights)

  datatype Slot = Slot(generation: nat, entry: Option<Entry>)

  datatype Holder = Holder(process: nat, slots: seq<Slot>)

  datatype Object = Object(id: nat, ty: ObjectType, revoked: bool)

  datatype Registry = Registry(nextObject: nat, holders: seq<Holder>, objects: seq<Object>)

  datatype Metadata = Metadata(handle: Handle, entry: Entry)

  datatype CapabilityError =
    | ProcessLimit | ObjectLimit | HandleLimit | ObjectIdExhausted | InvalidProcess | InvalidHandle | StaleHandle
    | ObjectNotFound | Revoked | TypeMismatch | RightsMissing | RightsEscalation | InvalidRights

  function ProcessId(h: Holder): nat { h.process }

  function ObjectId(o: Object): nat { o.id }

  // ---------------------------------------------------------------- handles

  /** `validate_handle`: the positions of holder and slot. */
  function ValidateHandle(r: Registry, p: nat, h: Handle): (v: Result<(nat, nat), CapabilityError>)
    ensures v.Ok? ==> v.value.0 < |r.holders| && v.value.1 < |r.holders[v.value.0].slots|
  {
    match IndexOf(r.holders, ProcessId, p)
    case None => Err(InvalidProcess)
    case Some(i) =>
      if h.slot >= |r.holders[i].slots| then Err(InvalidHandle)
      else if r.holders[i].slots[h.slot].generation != h.generation then Err(StaleHandle)
      else Ok((i, h.slot))
  }

  function LookUp(r: Registry, p: nat, h: Handle): Result<Metadata, CapabilityError> {
    match ValidateHandle(r, p, h)
    case Err(error) => Err(error)
    case Ok(at) =>
      match r.holders[at.0].slots[at.1].entry
      case None => Err(InvalidHandle)
      case Some(entry) =>
        match Lookup(r.objects, ObjectId, entry.obj)
        case None => Err(ObjectNotFound)
        case Some(o) =>
          if o.revoked then Err(Revoked) else if o.ty != entry.ty then Err(TypeMismatch) else Ok(Metadata(h, entry))
  }

  function SetSlot(r: Registry, i: nat, j: nat, slot: Slot): Registry
    requires i < |r.holders| && j < |r.holders[i].slots|
  {
    r.(holders := r.holders[i := r.holders[i].(slots := r.holders[i].slots[j := slot])])
  }

  // ---------------------------------------------------------------- processes and objects

  function EnsureProcess(r: Registry, p: nat): (Registry, Option<CapabilityError>) {
    if IndexOf(r.holders, ProcessId, p).Some? then (r, None)
    else if |r.holders| >= MAX_CAPABILITY_PROCESSES then (r, Some(ProcessLimit))
    else (r.(holders := r.holders + [Holder(p, [])]), None)
  }

  predicate Names(slots: seq<Slot>, o: nat) {
    exists j :: 0 <= j < |slots| && slots[j].entry.Some? && slots[j].entry.value.obj == o
  }

  predicate Named(holders: seq<Holder>, o: nat) {
    exists i :: 0 <= i < |holders| && Names(holders[i].slots, o)
  }

  /** `objects.retain(..)`: objects that some handle names, in their order. */
  function KeepNamed(objects: seq<Object>, holders: seq<Holder>): seq<Object> {
    if objects == [] then []
    else
      var last := objects[|objects| - 1];
      KeepNamed(objects[..|objects| - 1], holders) + if Named(holders, last.id) then [last] else []
  }

  function Collect(r: Registry): Registry {
    r.(objects := KeepNamed(r.objects, r.holders))
  }

  function RemoveProcess(r: Registry, p: nat): (Registry, Result<(), CapabilityError>) {
    match IndexOf(r.holders, ProcessId, p)
    case None => (r, Err(InvalidProcess))
    case Some(i) => (Collect(r.(holders := SwapRemove(r.holders, i))), Ok(()))
  }

  /** The first empty slot whose generation is not exhausted, from position `j` on. */
  function FreeSlot(slots: seq<Slot>, j: nat): (f: Option<nat>)
    requires j <= |slots|
    ensures f.Some? ==> j <= f.value < |slots| && slots[f.value].entry.None? && slots[f.value].generation != 0
    ensures f.None? ==> forall k :: j <= k < |slots| ==> slots[k].entry.Some? || slots[k].generation == 0
    decreases |slots| - j
  {
    if j == |slots| then None
    else if slots[j].entry.None? && slots[j].generation != 0 then Some(j)
    else FreeSlot(slots, j + 1)
  }

  /** Put an entry into a free slot, or a new one. */
  function Occupy(slots: seq<Slot>, entry: Entry): Option<(seq<Slot>, Handle)> {
    match FreeSlot(slots, 0)
    case Some(j) => Some((slots[j := slots[j].(entry := Some(entry))], Handle(j, slots[j].generation)))
    case None =>
      if |slots| >= MAX_CAPABILITY_SLOTS then None else Some((slots + [Slot(1, Some(entry))], Handle(|slots|, 1)))
  }

  function Install(r: Registry, p: nat, entry: Entry): (Registry, Result<Metadata, CapabilityError>) {
    if !ValidRights(entry.ty, entry.rights) then (r, Err(InvalidRights))
    else
      match Lookup(r.objects, ObjectId, entry.obj)
      case None => (r, Err(ObjectNotFound))
      case Some(o) =>
        if o.revoked then (r, Err(Revoked))
        else if o.ty != entry.ty then (r, Err(TypeMismatch))
        else
          var ensured := EnsureProcess(r, p);
          if ensured.1.Some? then (r, Err(ensured.1.value))
          else
            match IndexOf(ensured.0.holders, ProcessId, p)
            case None => (ensured.0, Err(InvalidProcess))
            case Some(i) =>
              var holder := ensured.0.holders[i];
              match Occupy(holder.slots, entry)
              case None => (ensured.0, Err(HandleLimit))
              case Some(put) =>
                (ensured.0.(holders := ensured.0.holders[i := holder.(slots := put.0)]), Ok(Metadata(put.1, entry)))
  }

  // ---------------------------------------------------------------- operations

  function CreateObject(r: Registry, p: nat, ty: ObjectType, rights: Rights)
      : (Registry, Result<Metadata, CapabilityError>) {
    if !ValidRights(ty, rights) then (r, Err(InvalidRights))
    else
      var ensured := EnsureProcess(r, p);
      if ensured.1.Some? then (ensured.0, Err(ensured.1.value))
      else
        var r1 := ensured.0;
        if |r1.objects| >= MAX_CAPABILITY_OBJECTS then (r1, Err(ObjectLimit))
        else if r1.nextObject == 0 || r1.nextObject == U64_MAX then (r1, Err(ObjectIdExhausted))
        else
          var id := r1.nextObject;
          var r2 := r1.(nextObject := id + 1, objects := r1.objects + [Object(id, ty, false)]);
          var installed := Install(r2, p, Entry(id, ty, rights));
          if installed.1.Ok? then installed
          else (installed.0.(objects := r1.objects), installed.1)
  }

  function Duplicate(r: Registry, p: nat, source: Handle, requested: Rights)
      : (Registry, Result<Metadata, CapabilityError>) {
    var found := LookUp(r, p, source);
    if found.Err? then (r, found)
    else
      var entry := found.value.entry;
      if DUPLICATE !in entry.rights then (r, Err(RightsMissing))
      else if !(requested <= entry.rights) then (r, Err(RightsEscalation))
      else Install(r, p, entry.(rights := requested))
  }

  function Close(r: Registry, p: nat, h: Handle): (Registry, Result<(), CapabilityError>) {
    match ValidateHandle(r, p, h)
    case Err(error) => (r, Err(error))
    case Ok(at) =>
      var slot := r.holders[at.0].slots[at.1];
      if slot.entry.None? then (r, Err(InvalidHandle))
      else
        var next := if slot.generation < U32_MAX then slot.generation + 1 else 0;
        (Collect(SetSlot(r, at.0, at.1, Slot(next, None))), Ok(()))
  }

  function Transfer(r: Registry, p: nat, source: Handle, target: nat, requested: Rights)
      : (Registry, Result<Metadata, CapabilityError>) {
    var found := LookUp(r, p, source);
    if found.Err? then (r, found)
    else
      var entry := found.value.entry;
      if TRANSFER !in entry.rights then (r, Err(RightsMissing))
      else if !(requested <= entry.rights) then (r, Err(RightsEscalation))
      else
        var installed := Install(r, target, entry.(rights := requested));
        if installed.1.Err? then installed
        else
          var closed := Close(installed.0, p, source);
          if closed.1.Err? then (closed.0, Err(closed.1.error)) else (closed.0, installed.1)
  }

  function Reduce(r: Registry, p: nat, h: Handle, requested: Rights): (Registry, Result<Metadata, CapabilityError>) {
    match ValidateHandle(r, p, h)
    case Err(error) => (r, Err(error))
    case Ok(at) =>
      var slot := r.holders[at.0].slots[at.1];
      if slot.entry.None? then (r, Err(InvalidHandle))
      else if !(requested <= slot.entry.value.rights) then (r, Err(RightsEscalation))
      else
        var entry := slot.entry.value.(rights := requested);
        (SetSlot(r, at.0, at.1, slot.(entry := Some(entry))), Ok(Metadata(h, entry)))
  }

  function Revoke(r: Registry, o: nat): (Registry, Result<(), CapabilityError>) {
    match IndexOf(r.objects, ObjectId, o)
    case None => (r, Err(ObjectNotFound))
    case Some(i) => (r.(objects := r.objects[i := r.objects[i].(revoked := true)]), Ok(()))
  }
}
