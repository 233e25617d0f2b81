/** When a frame that some page may write is mapped nowhere else: exactly which calls keep writable frames
    exclusive. */
module CopyOnWrite {
  import opened Common
  import opened AddressSpaces
  import opened AddressInvariant

  // ---------------------------------------------------------------- exclusive writable frames

  /** A frame mapped writable has no other mapping. */
  ghost predicate Exclusive(t: Table) {
    forall s, p :: MappingAt(t.spaces, s, p).Some? && MappingAt(t.spaces, s, p).value.permissions.write ==>
      Refs(t.frames, MappingAt(t.spaces, s, p).value.frame) == 1
  }

  /** Some mapping of frame `f` is writable. */
  ghost predicate WritableSomewhere(t: Table, f: nat) {
    exists s, p :: MappingAt(t.spaces, s, p).Some? && MappingAt(t.spaces, s, p).value.permissions.write
                   && MappingAt(t.spaces, s, p).value.frame == f
  }

  lemma MappedHasReference(t: Table, s: nat, p: nat)
    requires TableInv(t) && MappingAt(t.spaces, s, p).Some?
    ensures Refs(t.frames, MappingAt(t.spaces, s, p).value.frame) > 0
  {
    MappedIsCounted(t.spaces, t.nextSpace, s, p);
  }

  lemma SharedHasReferences(t: Table, s: nat, p: nat, s': nat, p': nat)
    requires TableInv(t) && MappingAt(t.spaces, s, p).Some? && MappingAt(t.spaces, s', p').Some?
    requires MappingAt(t.spaces, s, p).value.frame == MappingAt(t.spaces, s', p').value.frame && (s, p) != (s', p')
    ensures Refs(t.frames, MappingAt(t.spaces, s, p).value.frame) >= 2
  {
    SharedIsCounted(t.spaces, t.nextSpace, s, p, s', p');
  }

  /** Mapping a frame keeps exclusiveness iff the frame is unmapped, or shared read-only. */
  lemma MapExclusive(t: Table, space: nat, page: nat, frame: nat, p: Permissions)
    requires TableInv(t) && Exclusive(t) && Map(t, space, page, frame, p).1.Ok?
    ensures Exclusive(Map(t, space, page, frame, p).0) <==>
            Refs(t.frames, frame) == 0 || (!p.write && !WritableSomewhere(t, frame))
  {
    hide TableInv, MappingAt, Refs, Recorded, Map;
    MapEffect(t, space, page, frame, p);
    var t' := Map(t, space, page, frame, p).0;
    if Refs(t.frames, frame) == 0 {
      forall s: nat, q: nat | MappingAt(t'.spaces, s, q).Some? && MappingAt(t'.spaces, s, q).value.permissions.write
        ensures Refs(t'.frames, MappingAt(t'.spaces, s, q).value.frame) == 1
      {
        if (s, q) != (space, page) { MappedHasReference(t, s, q); }
      }
    } else if p.write {
      assert MappingAt(t'.spaces, space, page) == Some(Mapping(page, frame, p, false));
    } else if WritableSomewhere(t, frame) {
      var s, q :| MappingAt(t.spaces, s, q).Some? && MappingAt(t.spaces, s, q).value.permissions.write
                  && MappingAt(t.spaces, s, q).value.frame == frame;
      assert MappingAt(t'.spaces, s, q) == MappingAt(t.spaces, s, q);
    }
  }

  /** Resolving a fault keeps exclusiveness iff the new frame was unmapped. */
  lemma ResolveExclusive(t: Table, space: nat, page: nat, frame: nat)
    requires TableInv(t) && Exclusive(t) && ResolveCowFault(t, space, page, frame).1.Ok?
    ensures Exclusive(ResolveCowFault(t, space, page, frame).0) <==> Refs(t.frames, frame) == 0
  {
    hide TableInv, MappingAt, Refs, Recorded, ResolveCowFault;
    ResolveEffect(t, space, page, frame);
    var t' := ResolveCowFault(t, space, page, frame).0;
    var m := MappingAt(t.spaces, space, page).value;
    assert MappingAt(t'.spaces, space, page) == Some(Mapping(page, frame, m.permissions.(write := true), false));
    if Refs(t.frames, frame) == 0 {
      forall s: nat, q: nat | MappingAt(t'.spaces, s, q).Some? && MappingAt(t'.spaces, s, q).value.permissions.write
        ensures Refs(t'.frames, MappingAt(t'.spaces, s, q).value.frame) == 1
      {
        if (s, q) != (space, page) {
          MappedHasReference(t, s, q);
          if MappingAt(t.spaces, s, q).value.frame == m.frame { SharedHasReferences(t, s, q, space, page); }
        }
      }
    }
  }

  /** Changing permissions keeps exclusiveness iff it does not make a shared frame writable. */
  lemma ProtectExclusive(t: Table, space: nat, page: nat, p: Permissions)
    requires TableInv(t) && Exclusive(t) && Protect(t, space, page, p).1.Ok?
    ensures MappingAt(t.spaces, space, page).Some?
    ensures Exclusive(Protect(t, space, page, p).0) <==>
            !p.write || Refs(t.frames, MappingAt(t.spaces, space, page).value.frame) == 1
  {
    hide TableInv, MappingAt, Refs, Recorded, Protect;
    ProtectEffect(t, space, page, p);
    var (t', r) := Protect(t, space, page, p);
    assert MappingAt(t'.spaces, space, page) == Some(r.value);
  }

  lemma UnmapExclusive(t: Table, space: nat, page: nat)
    requires TableInv(t) && Exclusive(t)
    ensures Exclusive(Unmap(t, space, page).0)
  {
    hide TableInv, MappingAt, Refs, Recorded, Unmap;
    UnmapEffect(t, space, page);
    var (t', r) := Unmap(t, space, page);
    forall s: nat, q: nat | MappingAt(t'.spaces, s, q).Some? && MappingAt(t'.spaces, s, q).value.permissions.write
      ensures Refs(t'.frames, MappingAt(t'.spaces, s, q).value.frame) == 1
    {
      if r.Ok? && MappingAt(t.spaces, s, q).value.frame == r.value.frame {
        SharedHasReferences(t, s, q, space, page);
      }
    }
  }

  /** If one space alone maps a frame, once, no other space maps it. */
  lemma OtherSpacesMiss(t: Table, s: nat, p: nat, other: nat)
    requires TableInv(t) && MappingAt(t.spaces, s, p).Some? && HasSpace(t.spaces, other) && s != other
    requires Refs(t.frames, MappingAt(t.spaces, s, p).value.frame) == 1
    ensures MapsFrame(MappingAt(t.spaces, s, p).value.frame)(Lookup(t.spaces, SpaceId, other).value) == 0
  {
    var f := MappingAt(t.spaces, s, p).value.frame;
    var i, j := IndexOf(t.spaces, SpaceId, s).value, IndexOf(t.spaces, SpaceId, other).value;
    var k := IndexOf(t.spaces[i].mappings, PageOf, p).value;
    SumSet(t.spaces[i].mappings, MapsTo(f), k, t.spaces[i].mappings[k]);
    SumTwo(t.spaces, MapsFrame(f), if i < j then i else j, if i < j then j else i);
  }

  lemma DestroyExclusive(t: Table, space: nat)
    requires TableInv(t) && Exclusive(t)
    ensures Exclusive(Destroy(t, space).0)
  {
    hide TableInv, MappingAt, Refs, Recorded, Destroy, MapsFrame;
    DestroyEffect(t, space);
    var (t', r) := Destroy(t, space);
    forall s: nat, q: nat | MappingAt(t'.spaces, s, q).Some? && MappingAt(t'.spaces, s, q).value.permissions.write
      ensures Refs(t'.frames, MappingAt(t'.spaces, s, q).value.frame) == 1
    {
      if r.Ok? { OtherSpacesMiss(t, s, q, space); }
    }
  }

  lemma CloneExclusive(t: Table, parent: nat, owner: nat)
    requires TableInv(t) && Exclusive(t)
    ensures Exclusive(CloneCow(t, parent, owner).0)
  {
    hide TableInv, MappingAt, Refs, Recorded, CloneCow, MapsFrame;
    CloneEffect(t, parent, owner);
    var (t', r) := CloneCow(t, parent, owner);
    forall s: nat, q: nat | MappingAt(t'.spaces, s, q).Some? && MappingAt(t'.spaces, s, q).value.permissions.write
      ensures Refs(t'.frames, MappingAt(t'.spaces, s, q).value.frame) == 1
    {
      if r.Ok? { OtherSpacesMiss(t, s, q, parent); }
    }
  }
}
