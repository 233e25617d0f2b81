/** Whole runs of capability operations: attenuation, final revocation, and when a closed handle can come back. */
module CapabilityRuns {
  import opened Common
  import C = Capabilities
  import opened CapabilityInvariant
  import opened CapabilitySafety

  datatype Op =
    | Ensure(process: nat)
    | Remove(process: nat)
    | Create(process: nat, ty: C.ObjectType, rights: C.Rights)
    | Duplicate(process: nat, handle: C.Handle, rights: C.Rights)
    | Transfer(process: nat, handle: C.Handle, target: nat, rights: C.Rights)
    | Reduce(process: nat, handle: C.Handle, rights: C.Rights)
    | Close(process: nat, handle: C.Handle)
    | Revoke(obj: nat)

  function Next(r: C.Registry, op: Op): C.Registry {
    match op
    case Ensure(p) => C.EnsureProcess(r, p).0
    case Remove(p) => C.RemoveProcess(r, p).0
    case Create(p, ty, rights) => C.CreateObject(r, p, ty, rights).0
    case Duplicate(p, h, rights) => C.Duplicate(r, p, h, rights).0
    case Transfer(p, h, target, rights) => C.Transfer(r, p, h, target, rights).0
    case Reduce(p, h, rights) => C.Reduce(r, p, h, rights).0
    case Close(p, h) => C.Close(r, p, h).0
    case Revoke(o) => C.Revoke(r, o).0
  }

  function Run(r: C.Registry, ops: seq<Op>): C.Registry
    decreases |ops|
  {
    if ops == [] then r else Run(Next(r, ops[0]), ops[1..])
  }

  /** The entry of an object created by this step. */
  function Granted(r: C.Registry, op: Op): Option<C.Entry> {
    if op.Create? && C.CreateObject(r, op.process, op.ty, op.rights).1.Ok?
    then Some(C.CreateObject(r, op.process, op.ty, op.rights).1.value.entry)
    else None
  }

  function Removed(op: Op): Option<nat> {
    if op.Remove? then Some(op.process) else None
  }

  lemma StepSafe(r: C.Registry, op: Op)
    requires RegInv(r)
    ensures Safe(r, Next(r, op), Removed(op), Granted(r, op))
  {
    hide Safe, RegInv, C.EnsureProcess, C.RemoveProcess, C.CreateObject, C.Duplicate, C.Transfer, C.Reduce, C.Close,
        C.Revoke;
    match op
    case Ensure(p) => EnsureSafe(r, p);
    case Remove(p) => RemoveProcessSafe(r, p);
    case Create(p, ty, rights) => CreateObjectSafe(r, p, ty, rights);
    case Duplicate(p, h, rights) => DuplicateSafe(r, p, h, rights);
    case Transfer(p, h, target, rights) => TransferSafe(r, p, h, target, rights);
    case Reduce(p, h, rights) => ReduceSafe(r, p, h, rights);
    case Close(p, h) => CloseSafe(r, p, h);
    case Revoke(o) => RevokeSafe(r, o);
  }

  // ---------------------------------------------------------------- attenuation

  type Grants = map<nat, C.Rights>

  /** Every handle's rights are among those granted when its object was created. */
  ghost predicate Authority(r: C.Registry, grants: Grants) {
    && (forall o: nat :: o in grants ==> o < r.nextObject)
    && forall p, j :: SlotAt(r.holders, p, j).Some? && SlotAt(r.holders, p, j).value.entry.Some? ==>
         && SlotAt(r.holders, p, j).value.entry.value.obj in grants
         && SlotAt(r.holders, p, j).value.entry.value.rights <= grants[SlotAt(r.holders, p, j).value.entry.value.obj]
  }

  function NextGrants(r: C.Registry, op: Op, grants: Grants): Grants {
    match Granted(r, op)
    case None => grants
    case Some(entry) => grants[entry.obj := entry.rights]
  }

  function RunGrants(r: C.Registry, ops: seq<Op>, grants: Grants): Grants
    decreases |ops|
  {
    if ops == [] then grants else RunGrants(Next(r, ops[0]), ops[1..], NextGrants(r, ops[0], grants))
  }

  lemma StepAuthority(r: C.Registry, op: Op, grants: Grants)
    requires RegInv(r) && Authority(r, grants)
    ensures Authority(Next(r, op), NextGrants(r, op, grants))
  {
    hide RegInv, SlotAt, Next, C.CreateObject;
    StepSafe(r, op);
    var r', grants' := Next(r, op), NextGrants(r, op, grants);
    if op.Create? {
      CreateObjectSafe(r, op.process, op.ty, op.rights);
      NextCreate(r, op);
    }
    forall p': nat, j': nat | SlotAt(r'.holders, p', j').Some? && SlotAt(r'.holders, p', j').value.entry.Some?
      ensures var e := SlotAt(r'.holders, p', j').value.entry.value; e.obj in grants' && e.rights <= grants'[e.obj]
    {
      var e := SlotAt(r'.holders, p', j').value.entry.value;
      if Granted(r, op) != Some(e) {
        var p, j :| Carries(SlotAt(r.holders, p, j), e.obj)
            && e.rights <= SlotAt(r.holders, p, j).value.entry.value.rights;
        assert e.obj in grants;
      }
    }
  }

  lemma NextCreate(r: C.Registry, op: Op)
    requires op.Create?
    ensures Next(r, op) == C.CreateObject(r, op.process, op.ty, op.rights).0
  {
  }

  /** Over every run the registry stays exact, and no handle ever carries a right that was not granted at
      its object's creation or is not allowed for its type. */
  lemma {:induction false} AuthorityOnlyShrinks(r: C.Registry, ops: seq<Op>, grants: Grants)
    requires RegInv(r) && Authority(r, grants)
    ensures RegInv(Run(r, ops)) && Authority(Run(r, ops), RunGrants(r, ops, grants))
    decreases |ops|
  {
    if ops != [] {
      StepSafe(r, ops[0]);
      StepAuthority(r, ops[0], grants);
      AuthorityOnlyShrinks(Next(r, ops[0]), ops[1..], NextGrants(r, ops[0], grants));
    }
  }

  lemma InitialAuthority()
    ensures RegInv(C.Registry(1, [], [])) && Authority(C.Registry(1, [], []), map[])
  {
  }

  // ---------------------------------------------------------------- revocation

  /** The object existed and is revoked, or gone. */
  ghost predicate Dead(r: C.Registry, o: nat) {
    o < r.nextObject && (Registered(r.objects, o) ==> Lookup(r.objects, C.ObjectId, o).value.revoked)
  }

  lemma RevokedIsDead(r: C.Registry, o: nat)
    requires RegInv(r) && C.Revoke(r, o).1.Ok?
    ensures Dead(C.Revoke(r, o).0, o)
  {
    RevokeSafe(r, o);
    assert Registered(r.objects, o);
  }

  /** Once an object is revoked, no run of operations makes any lookup of it succeed. */
  lemma {:induction false} RevocationIsFinal(r: C.Registry, o: nat, ops: seq<Op>)
    requires RegInv(r) && Dead(r, o)
    ensures Dead(Run(r, ops), o)
    ensures forall p, h :: C.LookUp(Run(r, ops), p, h).Ok? ==> C.LookUp(Run(r, ops), p, h).value.entry.obj != o
    decreases |ops|
  {
    if ops == [] {
      forall p: nat, h | C.LookUp(r, p, h).Ok? ensures C.LookUp(r, p, h).value.entry.obj != o {
        LookUpMeaning(r, p, h);
        EntryIsCounted(r.holders, p, h.slot);
      }
    } else {
      StepSafe(r, ops[0]);
      RevocationIsFinal(Next(r, ops[0]), o, ops[1..]);
    }
  }

  // ---------------------------------------------------------------- closed handles

  /** The slot of the handle has moved past its generation, or is retired. */
  ghost predicate Outdated(r: C.Registry, p: nat, h: C.Handle) {
    && SlotAt(r.holders, p, h.slot).Some? && h.generation != 0
    && (SlotAt(r.holders, p, h.slot).value.generation == 0
        || h.generation < SlotAt(r.holders, p, h.slot).value.generation)
  }

  lemma ClosedIsOutdated(r: C.Registry, p: nat, h: C.Handle)
    requires RegInv(r) && C.Close(r, p, h).1.Ok?
    ensures Outdated(C.Close(r, p, h).0, p, h)
  {
    CloseEffect(r, p, h);
    assert EntryOk(r.objects, SlotAt(r.holders, p, h.slot).value);
    assert SlotAt(C.Close(r, p, h).0.holders, p, h.slot) == Some(Spent(h));
  }

  /** A closed handle is refused as stale by every operation, through any reuse of its slot and past the
      exhaustion of its generations, as long as its process is not removed. */
  lemma {:induction false} ClosedHandlesStayClosed(r: C.Registry, p: nat, h: C.Handle, ops: seq<Op>)
    requires RegInv(r) && Outdated(r, p, h) && Remove(p) !in ops
    ensures var r' := Run(r, ops);
            && Outdated(r', p, h) && C.LookUp(r', p, h) == Err(C.StaleHandle)
            && C.ValidateHandle(r', p, h) == Err(C.StaleHandle)
    decreases |ops|
  {
    if ops == [] {
      ValidateMeaning(r, p, h);
    } else {
      StepSafe(r, ops[0]);
      assert Removed(ops[0]) != Some(p);
      ClosedHandlesStayClosed(Next(r, ops[0]), p, h, ops[1..]);
    }
  }

  /** Every call keeps a closed handle outdated, except exactly the removal of its process. */
  lemma OutdatedIffNotRemoved(r: C.Registry, p: nat, h: C.Handle, op: Op)
    requires RegInv(r) && Outdated(r, p, h)
    ensures Outdated(Next(r, op), p, h) <==> op != Remove(p)
  {
    hide HandleCount;
    if op == Remove(p) {
      SlotHasProcess(r.holders, p, h.slot);
      RemoveProcessSafe(r, p);
    } else {
      StepSafe(r, op);
      assert Removed(op) != Some(p);
    }
  }

  /** Removal restarts the generations: the first handle a registered-again process gets is always the same. */
  lemma RemovalRestartsGenerations(r: C.Registry, p: nat, ty: C.ObjectType, rights: C.Rights)
    requires RegInv(r) && HasProcess(r.holders, p)
    requires C.CreateObject(C.RemoveProcess(r, p).0, p, ty, rights).1.Ok?
    ensures var made := C.CreateObject(C.RemoveProcess(r, p).0, p, ty, rights);
            made.1.value.handle == C.Handle(0, 1) && C.LookUp(made.0, p, C.Handle(0, 1)) == made.1
  {
    hide C.RemoveProcess;
    RemoveProcessSafe(r, p);
    FirstHandle(C.RemoveProcess(r, p).0, p, ty, rights);
  }

  lemma FirstHandle(r: C.Registry, p: nat, ty: C.ObjectType, rights: C.Rights)
    requires RegInv(r) && !HasProcess(r.holders, p) && C.CreateObject(r, p, ty, rights).1.Ok?
    ensures var made := C.CreateObject(r, p, ty, rights);
            made.1.value.handle == C.Handle(0, 1) && C.LookUp(made.0, p, C.Handle(0, 1)) == made.1
  {
    var made := C.CreateObject(r, p, ty, rights);
    InvHolders(r);
    EnsureEffect(r, p);
    var r1 := C.EnsureProcess(r, p).0;
    var i := IndexOf(r1.holders, C.ProcessId, p).value;
    assert r1.holders[i] == C.Holder(p, []);
    var holder := C.Holder(p, [C.Slot(1, Some(made.1.value.entry))]);
    assert [] + [C.Slot(1, Some(made.1.value.entry))] == holder.slots;
    LookupSet(r1.holders, C.ProcessId, i, holder);
    NewObjectSound(r1, ty);
  }

  /** So a closed handle resolves again: created, closed and refused as stale in a fresh registry, it names the
      first object its process creates after having been removed. */
  lemma ClosedHandleRevives(p: nat, ty: C.ObjectType, rights: C.Rights)
    requires C.ValidRights(ty, rights)
    ensures var h := C.Handle(0, 1); var first := C.CreateObject(C.Registry(1, [], []), p, ty, rights);
            && first.1.Ok? && first.1.value.handle == h && C.LookUp(first.0, p, h).Ok?
            && var closed := C.Close(first.0, p, h);
            && closed.1.Ok? && C.LookUp(closed.0, p, h) == Err(C.StaleHandle)
            && var removed := C.RemoveProcess(closed.0, p);
            && removed.1.Ok?
            && var again := C.CreateObject(removed.0, p, ty, rights);
            again.1.Ok? && again.1.value.handle == h && C.LookUp(again.0, p, h) == again.1
  {
    hide C.CreateObject, C.LookUp, C.Close, C.RemoveProcess, RegInv, Safe, SlotAt;
    var h := C.Handle(0, 1);
    var r0 := C.Registry(1, [], []);
    InitialAuthority();
    CreateObjectSafe(r0, p, ty, rights);
    FirstHandle(r0, p, ty, rights);
    var r1 := C.CreateObject(r0, p, ty, rights).0;
    CreatedSize(r0, p, ty, rights);
    assert RegInv(r1) by { SafeKeepsInv(r0, r1, None, Some(C.CreateObject(r0, p, ty, rights).1.value.entry)); }
    LookUpMeaning(r1, p, h);
    SoundInv(r1);
    CloseEffect(r1, p, h);
    ClosedIsOutdated(r1, p, h);
    var r2 := C.Close(r1, p, h).0;
    ClosedHandlesStayClosed(r2, p, h, []);
    ClosedSize(r1, p, h);
    SlotHasProcess(r1.holders, p, 0);
    RemoveProcessSafe(r2, p);
    var r3 := C.RemoveProcess(r2, p).0;
    RemovedSize(r2, p);
    assert RegInv(r3) by { SafeKeepsInv(r2, r3, Some(p), None); }
    CreateObjectSafe(r3, p, ty, rights);
    FirstHandle(r3, p, ty, rights);
  }

  lemma SafeKeepsInv(r: C.Registry, r': C.Registry, removed: Option<nat>, granted: Option<C.Entry>)
    requires Safe(r, r', removed, granted)
    ensures RegInv(r')
  {
  }

  lemma SoundInv(r: C.Registry)
    requires RegInv(r)
    ensures Sound(r)
  {
  }

  lemma SlotHasProcess(holders: seq<C.Holder>, p: nat, j: nat)
    requires SlotAt(holders, p, j).Some?
    ensures HasProcess(holders, p)
  {
  }

  /** Bounds on the numbers of objects and processes, and the object counter, after each kind of call. */
  lemma CreatedSize(r: C.Registry, p: nat, ty: C.ObjectType, rights: C.Rights)
    requires C.CreateObject(r, p, ty, rights).1.Ok?
    ensures var r' := C.CreateObject(r, p, ty, rights).0;
            |r'.objects| == |r.objects| + 1 && |r'.holders| <= |r.holders| + 2 && r'.nextObject == r.nextObject + 1
  {
  }

  lemma ClosedSize(r: C.Registry, p: nat, h: C.Handle)
    ensures var r' := C.Close(r, p, h).0;
            |r'.objects| <= |r.objects| && |r'.holders| == |r.holders| && r'.nextObject == r.nextObject
  {
    var r' := C.Close(r, p, h).0;
    KeptFewer(r.objects, r'.holders);
  }

  lemma RemovedSize(r: C.Registry, p: nat)
    ensures var r' := C.RemoveProcess(r, p).0;
            |r'.objects| <= |r.objects| && |r'.holders| <= |r.holders| && r'.nextObject == r.nextObject
  {
    var r' := C.RemoveProcess(r, p).0;
    KeptFewer(r.objects, r'.holders);
  }

  lemma {:induction false} KeptFewer(objects: seq<C.Object>, holders: seq<C.Holder>)
    ensures |C.KeepNamed(objects, holders)| <= |objects|
  {
    if objects != [] { KeptFewer(objects[..|objects| - 1], holders); }
  }
}
