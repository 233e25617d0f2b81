/** Each capability operation: what it changes, and that authority only shrinks as it spreads. */
module CapabilitySafety {
  import opened Common
  import opened Capabilities
  import opened CapabilityInvariant

  // ---------------------------------------------------------------- what operations may change

  /** Generations only grow, and 0 is final. */
  predicate GenerationAges(before: nat, after: nat) {
    after == 0 || (before != 0 && before <= after)
  }

  /** Slots of processes that stay registered keep their place and age; only process `removed` may go. */
  ghost predicate SlotsAge(holders: seq<Holder>, holders': seq<Holder>, removed: Option<nat>) {
    && (forall p: nat :: HasProcess(holders, p) && removed != Some(p) ==> HasProcess(holders', p))
    && forall p: nat, j: nat :: SlotAt(holders, p, j).Some? && removed != Some(p) ==>
         SlotAt(holders', p, j).Some? && GenerationAges(SlotAt(holders, p, j).value.generation,
             SlotAt(holders', p, j).value.generation)
  }

  /** Object identities are not reused, and neither loss nor revocation is undone. */
  ghost predicate ObjectsAge(r: Registry, r': Registry) {
    && r.nextObject <= r'.nextObject
    && forall o: nat :: o < r.nextObject && Registered(r'.objects, o) ==>
         && Registered(r.objects, o)
         && (Lookup(r.objects, ObjectId, o).value.revoked ==> Lookup(r'.objects, ObjectId, o).value.revoked)
  }

  predicate Carries(slot: Option<Slot>, o: nat) {
    slot.Some? && slot.value.entry.Some? && slot.value.entry.value.obj == o
  }

  /** Every entry stems from one that named the same object with at least its rights, or from `granted`. */
  ghost predicate Attenuates(r: Registry, r': Registry, granted: Option<Entry>) {
    forall p', j' :: SlotAt(r'.holders, p', j').Some? && SlotAt(r'.holders, p', j').value.entry.Some? ==>
      var e := SlotAt(r'.holders, p', j').value.entry.value;
      granted == Some(e) || exists p, j ::
        Carries(SlotAt(r.holders, p, j), e.obj)
        && e.rights <= SlotAt(r.holders, p, j).value.entry.value.rights
  }

  ghost predicate Safe(r: Registry, r': Registry, removed: Option<nat>, granted: Option<Entry>) {
    RegInv(r') && SlotsAge(r.holders, r'.holders, removed) && ObjectsAge(r, r') && Attenuates(r, r', granted)
  }

  lemma SafeSelf(r: Registry)
    requires RegInv(r)
    ensures Safe(r, r, None, None)
  {
  }

  // ---------------------------------------------------------------- handles

  lemma ValidateMeaning(r: Registry, p: nat, h: Handle)
    ensures var v := ValidateHandle(r, p, h);
            && (v.Ok? <==>
                SlotAt(r.holders, p, h.slot).Some?
                && SlotAt(r.holders, p, h.slot).value.generation == h.generation)
            && (v.Err? ==> v.error.InvalidProcess? || v.error.InvalidHandle? || v.error.StaleHandle?)
            && (v.Ok? ==> r.holders[v.value.0].process == p && v.value.1 == h.slot
                          && SlotAt(r.holders, p, h.slot) == Some(r.holders[v.value.0].slots[h.slot]))
  {
  }

  /** A handle resolves iff its slot holds an entry under its generation and the object is not revoked. */
  lemma LookUpMeaning(r: Registry, p: nat, h: Handle)
    requires RegInv(r)
    ensures var found := LookUp(r, p, h); var slot := SlotAt(r.holders, p, h.slot);
            && (found.Ok? <==> slot.Some? && slot.value.generation == h.generation && slot.value.entry.Some?
                               && !Lookup(r.objects, ObjectId, slot.value.entry.value.obj).value.revoked)
            && (found.Ok? ==> slot == Some(Slot(h.generation, Some(found.value.entry))) && found.value.handle == h)
            && (found.Ok? ==> var e := found.value.entry;
                Lookup(r.objects, ObjectId, e.obj) == Some(Object(e.obj, e.ty, false)))
            && (found.Err? ==> !found.error.ObjectNotFound? && !found.error.TypeMismatch?)
            && (found == Err(Revoked) <==> slot.Some? && slot.value.generation == h.generation && slot.value.entry.Some?
                                           && Lookup(r.objects, ObjectId, slot.value.entry.value.obj).value.revoked)
  {
  }

  // ---------------------------------------------------------------- close

  /** The slot of a handle after closing it. */
  function Spent(h: Handle): Slot {
    Slot(if h.generation < U32_MAX then h.generation + 1 else 0, None)
  }

  /** Closing empties the slot and moves its generation on, to 0 when exhausted. */
  lemma CloseEffect(r: Registry, p: nat, h: Handle)
    requires Sound(r)
    ensures var closed := Close(r, p, h); var r' := closed.0; var slot := SlotAt(r.holders, p, h.slot);
            && (closed.1.Ok? <==> slot.Some? && slot.value.generation == h.generation && slot.value.entry.Some?)
            && (closed.1.Err? ==> r' == r)
            && (closed.1.Ok? ==>
                  && RegInv(r') && r'.nextObject == r.nextObject
                  && Reslotted(r.holders, r'.holders, p, h.slot, Spent(h))
                  && (forall q :: HasProcess(r'.holders, q) <==> HasProcess(r.holders, q))
                  && (forall o :: HandleCount(r'.holders, o) ==
                        HandleCount(r.holders, o) - if o == slot.value.entry.value.obj then 1 else 0)
                  && (forall o :: Lookup(r'.objects, ObjectId, o) ==
                        if HandleCount(r'.holders, o) > 0 then Lookup(r.objects, ObjectId, o) else None))
  {
    hide ValidateHandle, HandleCount, SlotAt, HoldersOk, Reslotted, HasProcess, Collect;
    ValidateMeaning(r, p, h);
    var closed := Close(r, p, h);
    if closed.1.Ok? {
      var at := ValidateHandle(r, p, h).value;
      var slot := r.holders[at.0].slots[at.1];
      var next := Spent(h);
      SetSlotEffect(r, at.0, at.1, next);
      var r1 := SetSlot(r, at.0, at.1, next);
      EmptiedSound(r, r1, p, h.slot, next);
      CollectEffect(r1);
      CollectKeepsHolders(r1);
    }
  }

  lemma CollectKeepsHolders(r: Registry)
    ensures Collect(r).holders == r.holders && Collect(r).nextObject == r.nextObject
  {
  }

  lemma EmptiedSound(r: Registry, r': Registry, p: nat, j: nat, slot: Slot)
    requires Sound(r) && HoldersOk(r'.holders) && r' == r.(holders := r'.holders) && slot.entry.None?
    requires Reslotted(r.holders, r'.holders, p, j, slot)
    ensures Sound(r')
  {
  }

  lemma CloseSafe(r: Registry, p: nat, h: Handle)
    requires RegInv(r)
    ensures Safe(r, Close(r, p, h).0, None, None)
  {
    hide HandleCount, SlotAt, HoldersOk, HasProcess, Close;
    SafeSelf(r);
    CloseEffect(r, p, h);
    var r' := Close(r, p, h).0;
    if Close(r, p, h).1.Ok? {
      assert EntryOk(r.objects, SlotAt(r.holders, p, h.slot).value);
      ClosedSafe(r, r', p, h);
    }
  }

  lemma ClosedSafe(r: Registry, r': Registry, p: nat, h: Handle)
    requires RegInv(r') && h.generation != 0 && r'.nextObject == r.nextObject
    requires SlotAt(r.holders, p, h.slot).Some? && SlotAt(r.holders, p, h.slot).value.generation == h.generation
    requires Reslotted(r.holders, r'.holders, p, h.slot, Spent(h))
    requires forall q :: HasProcess(r'.holders, q) <==> HasProcess(r.holders, q)
    requires forall o: nat :: Registered(r'.objects, o) ==>
             Lookup(r'.objects, ObjectId, o) == Lookup(r.objects, ObjectId, o)
    ensures Safe(r, r', None, None)
  {
    hide HandleCount, SlotAt, HasProcess, RegInv;
    forall p': nat, j': nat | SlotAt(r'.holders, p', j').Some? && SlotAt(r'.holders, p', j').value.entry.Some?
      ensures Carries(SlotAt(r.holders, p', j'), SlotAt(r'.holders, p', j').value.entry.value.obj)
              && SlotAt(r.holders, p', j') == SlotAt(r'.holders, p', j')
    {
    }
  }

  // ---------------------------------------------------------------- install, duplicate, transfer

  lemma InstalledSafe(r: Registry, r': Registry, p: nat, h: Handle, entry: Entry, granted: Option<Entry>)
    requires Sound(r) && RegInv(r') && r'.nextObject >= r.nextObject && NewHandle(r.holders, r'.holders, p, h, entry)
    requires forall o: nat :: o < r.nextObject ==> Lookup(r'.objects, ObjectId, o) == Lookup(r.objects, ObjectId, o)
    requires granted == Some(entry) || exists q, j ::
             Carries(SlotAt(r.holders, q, j), entry.obj)
             && entry.rights <= SlotAt(r.holders, q, j).value.entry.value.rights
    ensures Safe(r, r', None, granted)
  {
    hide HandleCount, SlotAt, HasProcess, RegInv;
    forall p', j' | SlotAt(r'.holders, p', j').Some? && SlotAt(r'.holders, p', j').value.entry.Some?
      ensures var e := SlotAt(r'.holders, p', j').value.entry.value;
              granted == Some(e) || exists q, j :: Carries(SlotAt(r.holders, q, j), e.obj)
                                                   && e.rights <= SlotAt(r.holders, q, j).value.entry.value.rights
    {
      if p' != p || j' != h.slot {
        assert SlotAt(r.holders, p', j') == SlotAt(r'.holders, p', j');
        assert Carries(SlotAt(r.holders, p', j'), SlotAt(r'.holders, p', j').value.entry.value.obj);
      }
    }
  }

  lemma ExactAfterInstall(r: Registry, r': Registry, p: nat, h: Handle, entry: Entry)
    requires RegInv(r) && Sound(r') && r'.objects == r.objects && NewHandle(r.holders, r'.holders, p, h, entry)
    requires Registered(r.objects, entry.obj)
    ensures RegInv(r')
  {
  }

  /** A duplicate names the same object with no more rights, in the same process. */
  lemma DuplicateSafe(r: Registry, p: nat, source: Handle, requested: Rights)
    requires RegInv(r)
    ensures var made := Duplicate(r, p, source, requested);
            && Safe(r, made.0, None, None) && (made.1.Err? ==> made.0 == r)
            && (made.1.Ok? <==>
                  && LookUp(r, p, source).Ok?
                  && var entry := LookUp(r, p, source).value.entry;
                  && DUPLICATE in entry.rights && requested <= entry.rights && ValidRights(entry.ty, requested)
                  && HasRoom(r.holders, p))
            && (made.1.Ok? ==>
                  && LookUp(r, p, source).Ok?
                  && var entry := LookUp(r, p, source).value.entry;
                  && made.1.value.entry == entry.(rights := requested)
                  && (forall o :: HandleCount(made.0.holders, o) == HandleCount(r.holders, o) + if o == entry.obj
                      then 1 else 0))
  {
    hide HandleCount, SlotAt, HasProcess, Install, LookUp, Safe, Sound, HasRoom;
    SafeSelf(r);
    LookUpMeaning(r, p, source);
    var made := Duplicate(r, p, source, requested);
    if LookUp(r, p, source).Ok? {
      var entry := LookUp(r, p, source).value.entry;
      InstallEffect(r, p, entry.(rights := requested));
      if made.1.Ok? {
        assert Carries(SlotAt(r.holders, p, source.slot), entry.obj);
        ExactAfterInstall(r, made.0, p, made.1.value.handle, entry.(rights := requested));
        InstalledSafe(r, made.0, p, made.1.value.handle, entry.(rights := requested), None);
      }
    }
  }

  /** Transfer: a new handle at the target, then the source handle closed. It either conserves every
      object's handle count or changes nothing. */
  lemma TransferSafe(r: Registry, p: nat, source: Handle, target: nat, requested: Rights)
    requires RegInv(r)
    ensures var moved := Transfer(r, p, source, target, requested); var r' := moved.0;
            && Safe(r, r', None, None) && (moved.1.Err? ==> r' == r)
            && (moved.1.Ok? <==>
                  && LookUp(r, p, source).Ok?
                  && var entry := LookUp(r, p, source).value.entry;
                  && TRANSFER in entry.rights && requested <= entry.rights && ValidRights(entry.ty, requested)
                  && HasRoom(r.holders, target))
            && (moved.1.Ok? ==>
                  && LookUp(r, p, source).Ok?
                  && var entry := LookUp(r, p, source).value.entry;
                  && moved.1.value.entry == entry.(rights := requested)
                  && (forall o :: HandleCount(r'.holders, o) == HandleCount(r.holders, o))
                  && (forall o :: Lookup(r'.objects, ObjectId, o) == Lookup(r.objects, ObjectId, o))
                  && SlotAt(r'.holders, target, moved.1.value.handle.slot)
                     == Some(Slot(moved.1.value.handle.generation, Some(moved.1.value.entry)))
                  && SlotAt(r'.holders, p, source.slot) == Some(Spent(source)))
  {
    hide HandleCount, SlotAt, HasProcess, Install, LookUp, Close, Safe, Sound, HasRoom;
    SafeSelf(r);
    LookUpMeaning(r, p, source);
    if LookUp(r, p, source).Ok? && TRANSFER in LookUp(r, p, source).value.entry.rights
       && requested <= LookUp(r, p, source).value.entry.rights {
      var entry := LookUp(r, p, source).value.entry;
      var moved := entry.(rights := requested);
      InstallEffect(r, target, moved);
      var installed := Install(r, target, moved);
      if installed.1.Ok? {
        var h := installed.1.value.handle;
        assert Carries(SlotAt(r.holders, p, source.slot), entry.obj);
        ExactAfterInstall(r, installed.0, target, h, moved);
        InstalledSafe(r, installed.0, target, h, moved, None);
        assert SlotAt(installed.0.holders, p, source.slot) == SlotAt(r.holders, p, source.slot);
        CloseEffect(installed.0, p, source);
        CloseSafe(installed.0, p, source);
        SafeTrans(r, installed.0, Close(installed.0, p, source).0);
      }
    }
  }

  lemma SafeTrans(r: Registry, r1: Registry, r2: Registry)
    requires Safe(r, r1, None, None) && Safe(r1, r2, None, None)
    ensures Safe(r, r2, None, None)
  {
  }

  // ---------------------------------------------------------------- the other operations

  /** Reduction replaces the rights of one entry by a subset, possibly empty. */
  lemma ReduceSafe(r: Registry, p: nat, h: Handle, requested: Rights)
    requires RegInv(r)
    ensures var reduced := Reduce(r, p, h, requested); var r' := reduced.0; var slot := SlotAt(r.holders, p, h.slot);
            && Safe(r, r', None, None) && (reduced.1.Err? ==> r' == r)
            && (reduced.1.Ok? <==> slot.Some? && slot.value.generation == h.generation && slot.value.entry.Some?
                                   && requested <= slot.value.entry.value.rights)
            && (reduced.1.Ok? ==> r'.objects == r.objects
                                  && Reslotted(
                                       r.holders, r'.holders, p, h.slot,
                                       slot.value.(entry := Some(slot.value.entry.value.(rights := requested)))))
  {
    hide HandleCount, SlotAt, HasProcess, ValidateHandle, Reslotted, HoldersOk;
    SafeSelf(r);
    ValidateMeaning(r, p, h);
    var reduced := Reduce(r, p, h, requested);
    if reduced.1.Ok? {
      var at := ValidateHandle(r, p, h).value;
      var slot := r.holders[at.0].slots[at.1];
      var slot' := slot.(entry := Some(slot.entry.value.(rights := requested)));
      SetSlotEffect(r, at.0, at.1, slot');
      ReducedSafe(r, reduced.0, p, h.slot, slot, slot');
    }
  }

  lemma ReducedSafe(r: Registry, r': Registry, p: nat, j: nat, slot: Slot, slot': Slot)
    requires RegInv(r) && HoldersOk(r'.holders) && r' == r.(holders := r'.holders)
    requires SlotAt(r.holders, p, j) == Some(slot) && slot.entry.Some? && slot'.entry.Some?
             && slot'.generation == slot.generation
    requires slot'.entry.value.obj == slot.entry.value.obj && slot'.entry.value.ty == slot.entry.value.ty
    requires slot'.entry.value.rights <= slot.entry.value.rights
    requires Reslotted(r.holders, r'.holders, p, j, slot')
    requires forall q :: HasProcess(r'.holders, q) <==> HasProcess(r.holders, q)
    requires forall o :: HandleCount(r'.holders, o) == HandleCount(r.holders, o) - Occurs(o)(slot) + Occurs(o)(slot')
    ensures Safe(r, r', None, None)
  {
    hide HandleCount, SlotAt, HasProcess, HoldersOk;
    assert EntryOk(r.objects, slot);
    assert EntryOk(r.objects, slot');
    forall p': nat, j': nat | SlotAt(r'.holders, p', j').Some? && SlotAt(r'.holders, p', j').value.entry.Some?
      ensures Carries(SlotAt(r.holders, p', j'), SlotAt(r'.holders, p', j').value.entry.value.obj)
              && SlotAt(r'.holders, p', j').value.entry.value.rights
                 <= SlotAt(r.holders, p', j').value.entry.value.rights
    {
    }
    forall o ensures Occurs(o)(slot) == Occurs(o)(slot') {
    }
  }

  lemma RevokeSafe(r: Registry, o: nat)
    requires RegInv(r)
    ensures var revoked := Revoke(r, o); var r' := revoked.0;
            && Safe(r, r', None, None) && (revoked.1.Ok? <==> Registered(r.objects, o)) && (revoked.1.Err? ==> r' == r)
            && (revoked.1.Ok? ==> r'.holders == r.holders && Registered(r'.objects, o)
                                  && Lookup(r'.objects, ObjectId, o).value.revoked
                                  && forall x :: x != o ==>
                                     Lookup(r'.objects, ObjectId, x) ==
                                     Lookup(r.objects, ObjectId, x))
  {
    hide HandleCount, SlotAt, HasProcess, HoldersOk;
    SafeSelf(r);
    var revoked := Revoke(r, o);
    if revoked.1.Ok? {
      var i := IndexOf(r.objects, ObjectId, o).value;
      LookupSet(r.objects, ObjectId, i, r.objects[i].(revoked := true));
      forall p: nat, j: nat | SlotAt(r.holders, p, j).Some? ensures EntryOk(revoked.0.objects,
          SlotAt(r.holders, p, j).value) {
        assert EntryOk(r.objects, SlotAt(r.holders, p, j).value);
      }
      forall o1: nat ensures Registered(revoked.0.objects, o1) <==> Registered(r.objects, o1) {
      }
    }
  }

  lemma RemoveHolder(holders: seq<Holder>, i: nat)
    requires HoldersOk(holders) && i < |holders|
    ensures var holders' := SwapRemove(holders, i);
            && HoldersOk(holders')
            && (forall p: nat :: HasProcess(holders', p) <==> HasProcess(holders, p) && p != holders[i].process)
            && (forall p: nat, j: nat :: SlotAt(holders', p, j) == if p == holders[i].process then None
                else SlotAt(holders, p, j))
  {
    LookupSwapRemove(holders, ProcessId, i);
  }

  /** Removing a process drops its handles and the objects that no other handle names. */
  lemma RemoveProcessSafe(r: Registry, p: nat)
    requires RegInv(r)
    ensures var removed := RemoveProcess(r, p); var r' := removed.0;
            && Safe(r, r', Some(p), None) && (removed.1.Err? ==> r' == r)
                && (removed.1.Ok? <==> HasProcess(r.holders, p))
            && (removed.1.Ok? ==>
                  && (forall q :: HasProcess(r'.holders, q) <==> HasProcess(r.holders, q) && q != p)
                  && (forall q, j :: SlotAt(r'.holders, q, j) == if q == p then None else SlotAt(r.holders, q, j))
                  && (forall o :: Lookup(r'.objects, ObjectId, o) ==
                        if HandleCount(r'.holders, o) > 0 then Lookup(r.objects, ObjectId, o) else None))
  {
    hide HandleCount, SlotAt, HoldersOk, Collect;
    SafeSelf(r);
    if HasProcess(r.holders, p) {
      var i := IndexOf(r.holders, ProcessId, p).value;
      RemoveHolder(r.holders, i);
      var r1 := r.(holders := SwapRemove(r.holders, i));
      assert Sound(r1);
      CollectEffect(r1);
      CollectKeepsHolders(r1);
      ShrunkAttenuates(r, Collect(r1));
    }
  }

  lemma ShrunkAttenuates(r: Registry, r': Registry)
    requires forall p, j :: SlotAt(r'.holders, p, j) == None || SlotAt(r'.holders, p, j) == SlotAt(r.holders, p, j)
    ensures Attenuates(r, r', None)
  {
  }

  lemma EnsureSafe(r: Registry, p: nat)
    requires RegInv(r)
    ensures Safe(r, EnsureProcess(r, p).0, None, None)
  {
    hide HandleCount, SlotAt, HoldersOk, EnsureProcess, HasProcess;
    EnsureEffect(r, p);
    ShrunkAttenuates(r, EnsureProcess(r, p).0);
  }

  /** A new object starts with one handle carrying exactly the requested rights. A refusal may leave the
      process registered and an identity spent, but no handle and no object. */
  lemma CreateObjectSafe(r: Registry, p: nat, ty: ObjectType, rights: Rights)
    requires RegInv(r)
    ensures var made := CreateObject(r, p, ty, rights); var r' := made.0;
            && (made.1.Err? ==> Safe(r, r', None, None) && r'.objects == r.objects
                                && forall q, j :: SlotAt(r'.holders, q, j) == SlotAt(r.holders, q, j))
            && (made.1.Ok? <==> ValidRights(ty, rights) && HasRoom(r.holders, p) && |r.objects| < MAX_CAPABILITY_OBJECTS
                                && r.nextObject != 0 && r.nextObject != U64_MAX)
            && (made.1.Ok? ==>
                  && made.1.value.entry == Entry(r.nextObject, ty, rights)
                  && r'.nextObject == r.nextObject + 1 && Safe(r, r', None, Some(made.1.value.entry)))
  {
    hide HandleCount, SlotAt, HoldersOk, EnsureProcess, HasProcess, Install, Safe, Sound, HasRoom;
    EnsureSafe(r, p);
    assert HoldersOk(r.holders) by { InvHolders(r); }
    EnsureEffect(r, p);
    SafeSelf(r);
    var r1 := EnsureProcess(r, p).0;
    var id := r1.nextObject;
    var r2 := r1.(nextObject := id + 1, objects := r1.objects + [Object(id, ty, false)]);
    assert RegInv(r1) by { SafeInv(r, r1); }
    NewObjectSound(r1, ty);
    RoomAfterEnsure(r, p);
    InstallEffect(r2, p, Entry(id, ty, rights));
    var installed := Install(r2, p, Entry(id, ty, rights));
    var made := CreateObject(r, p, ty, rights);
    if made.1.Ok? {
      NewObjectExact(r1, r2, made.0, p, made.1.value.handle, made.1.value.entry);
      NewHandleAfter(r.holders, r1.holders, made.0.holders, p, made.1.value.handle, made.1.value.entry);
      assert Sound(r) && r.objects == r1.objects;
      InstalledSafe(r, made.0, p, made.1.value.handle, made.1.value.entry, Some(made.1.value.entry));
    } else if made.0 != r1 && made.0 != r {
      SpentId(r, r1, made.0);
    }
  }

  lemma InvHolders(r: Registry)
    requires RegInv(r)
    ensures HoldersOk(r.holders) && Sound(r)
  {
  }

  lemma SafeInv(r: Registry, r': Registry)
    requires Safe(r, r', None, None)
    ensures RegInv(r')
  {
  }

  lemma NewObjectSound(r: Registry, ty: ObjectType)
    requires RegInv(r)
    ensures var r' := r.(nextObject := r.nextObject + 1, objects := r.objects + [Object(r.nextObject, ty, false)]);
            && Sound(r') && !Registered(r.objects, r.nextObject)
            && (forall o: nat :: Lookup(r'.objects, ObjectId, o) ==
                  if o == r.nextObject then Some(Object(o, ty, false)) else Lookup(r.objects, ObjectId, o))
  {
    hide HandleCount, SlotAt, HoldersOk, HasProcess;
    assert !Registered(r.objects, r.nextObject);
    LookupPush(r.objects, ObjectId, Object(r.nextObject, ty, false));
    var objects' := r.objects + [Object(r.nextObject, ty, false)];
    forall p: nat, j: nat | SlotAt(r.holders, p, j).Some? ensures EntryOk(objects', SlotAt(r.holders, p, j).value) {
      assert EntryOk(r.objects, SlotAt(r.holders, p, j).value);
    }
    forall o: nat | Registered(objects', o) ensures o < r.nextObject + 1 {
      assert o != r.nextObject ==> Registered(r.objects, o);
    }
  }

  lemma NewObjectExact(r1: Registry, r2: Registry, r': Registry, p: nat, h: Handle, entry: Entry)
    requires RegInv(r1) && Sound(r') && r'.objects == r2.objects && NewHandle(r1.holders, r'.holders, p, h, entry)
    requires forall o: nat :: Registered(r2.objects, o) <==> o == entry.obj || Registered(r1.objects, o)
    ensures RegInv(r')
  {
  }

  lemma SpentId(r: Registry, r1: Registry, r': Registry)
    requires Safe(r, r1, None, None) && r' == r1.(nextObject := r1.nextObject + 1)
    ensures Safe(r, r', None, None)
  {
  }
}
