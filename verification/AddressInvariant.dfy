/** What every address-space operation keeps: unique identities, pages and frame records, and reference
    counts equal to the number of mappings of each frame over all address spaces. */
module AddressInvariant {
  import opened Common
  import opened AddressSpaces

  // ---------------------------------------------------------------- counting mappings

  function MapsTo(f: nat): Mapping -> nat {
    (m: Mapping) => if m.frame == f then 1 else 0
  }

  function MapsFrame(f: nat): Space -> nat {
    (s: Space) => Sum(s.mappings, MapsTo(f))
  }

  /** The number of mappings of frame `f` over all spaces. */
  function Count(spaces: seq<Space>, f: nat): nat {
    Sum(spaces, MapsFrame(f))
  }

  /** The reference count on record; a frame without record has none. */
  function Refs(frames: seq<Frame>, f: nat): nat {
    match Lookup(frames, FrameNumber, f)
    case None => 0
    case Some(r) => r.references
  }

  predicate Recorded(frames: seq<Frame>, f: nat) {
    Lookup(frames, FrameNumber, f).Some?
  }

  // ---------------------------------------------------------------- the invariant

  ghost predicate SpaceOk(s: Space) {
    Unique(s.mappings, PageOf) && |s.mappings| <= MAX_MAPPINGS_PER_SPACE
  }

  ghost predicate SpacesOk(spaces: seq<Space>, next: nat) {
    && Unique(spaces, SpaceId) && |spaces| <= MAX_ADDRESS_SPACES
    && forall i :: 0 <= i < |spaces| ==> SpaceOk(spaces[i]) && spaces[i].id < next
  }

  ghost predicate FramesOk(frames: seq<Frame>) {
    Unique(frames, FrameNumber) && |frames| <= MAX_PHYSICAL_FRAMES
  }

  ghost predicate TableInv(t: Table) {
    && SpacesOk(t.spaces, t.nextSpace) && FramesOk(t.frames)
    && forall f :: Refs(t.frames, f) == Count(t.spaces, f)
  }

  /** Only frames handed out by the allocator have records. */
  ghost predicate Handed(t: Table) {
    forall f: nat :: Recorded(t.frames, f) ==> f < t.nextFrame
  }

  const MOST_REFERENCES: nat := MAX_ADDRESS_SPACES * MAX_MAPPINGS_PER_SPACE

  /** Counts stay far from saturation. */
  lemma CountBound(spaces: seq<Space>, next: nat, f: nat)
    requires SpacesOk(spaces, next)
    ensures Count(spaces, f) <= MOST_REFERENCES
  {
    forall i | 0 <= i < |spaces| ensures MapsFrame(f)(spaces[i]) <= MAX_MAPPINGS_PER_SPACE {
      assert SpaceOk(spaces[i]);
      SumBound(spaces[i].mappings, MapsTo(f), 1);
    }
    SumBound(spaces, MapsFrame(f), MAX_MAPPINGS_PER_SPACE);
  }

  // ---------------------------------------------------------------- frame records

  lemma RetainEffect(frames: seq<Frame>, f: nat)
    requires FramesOk(frames) && Refs(frames, f) < U64_MAX
    ensures var (frames', failed) := RetainFrame(frames, f);
            && FramesOk(frames')
            && (failed.Some? ==> frames' == frames && failed.value == FrameLimit)
            && (failed.Some? <==> !Recorded(frames, f) && |frames| >= MAX_PHYSICAL_FRAMES)
            && (failed.None? ==>
                  && (forall g :: Refs(frames', g) == Refs(frames, g) + if g == f then 1 else 0)
                  && (forall g :: Recorded(frames', g) <==> Recorded(frames, g) || g == f))
  {
    match IndexOf(frames, FrameNumber, f)
    case Some(i) => LookupSet(frames, FrameNumber, i, Frame(f, SatInc(frames[i].references)));
    case None => if |frames| < MAX_PHYSICAL_FRAMES { LookupPush(frames, FrameNumber, Frame(f, 1)); }
  }

  lemma ReleaseEffect(frames: seq<Frame>, f: nat)
    requires FramesOk(frames) && Refs(frames, f) > 0
    ensures var frames' := ReleaseReference(frames, f);
            && FramesOk(frames')
            && (forall g :: Refs(frames', g) == Refs(frames, g) - if g == f then 1 else 0)
            && (forall g :: Recorded(frames', g) <==> Recorded(frames, g) && !(g == f && Refs(frames, f) == 1))
  {
    var i := IndexOf(frames, FrameNumber, f).value;
    if frames[i].references > 1 {
      LookupSet(frames, FrameNumber, i, Frame(f, frames[i].references - 1));
    } else {
      LookupSwapRemove(frames, FrameNumber, i);
    }
  }

  lemma {:induction false} ReleaseAllEffect(frames: seq<Frame>, ms: seq<Mapping>)
    requires FramesOk(frames) && forall f :: Sum(ms, MapsTo(f)) <= Refs(frames, f)
    ensures var frames' := ReleaseAll(frames, ms);
            && FramesOk(frames')
            && (forall f :: Refs(frames', f) == Refs(frames, f) - Sum(ms, MapsTo(f)))
            && (forall f :: Recorded(frames', f) <==>
                  Recorded(frames, f) && (Sum(ms, MapsTo(f)) == 0 || Sum(ms, MapsTo(f)) < Refs(frames, f)))
    decreases |ms|
  {
    if ms != [] {
      forall f ensures Sum(ms, MapsTo(f)) == MapsTo(f)(ms[0]) + Sum(ms[1..], MapsTo(f)) { SumFront(ms, MapsTo(f)); }
      var f0 := ms[0].frame;
      assert Sum(ms, MapsTo(f0)) <= Refs(frames, f0);
      ReleaseEffect(frames, f0);
      ReleaseAllEffect(ReleaseReference(frames, f0), ms[1..]);
    }
  }

  /** Retaining frames that are all on record never fails. */
  lemma {:induction false} RetainAllEffect(frames: seq<Frame>, ms: seq<Mapping>)
    requires FramesOk(frames) && forall j :: 0 <= j < |ms| ==> Recorded(frames, ms[j].frame)
    requires forall f :: Refs(frames, f) + Sum(ms, MapsTo(f)) < U64_MAX
    ensures var (frames', n, failed) := RetainAll(frames, ms);
            && failed.None? && FramesOk(frames')
            && (forall f :: Refs(frames', f) == Refs(frames, f) + Sum(ms, MapsTo(f)))
            && (forall f :: Recorded(frames', f) <==> Recorded(frames, f))
    decreases |ms|
  {
    if ms != [] {
      forall f ensures Sum(ms, MapsTo(f)) == MapsTo(f)(ms[0]) + Sum(ms[1..], MapsTo(f)) { SumFront(ms, MapsTo(f)); }
      var f0 := ms[0].frame;
      RetainEffect(frames, f0);
      var rest := ms[1..];
      assert forall j :: 0 <= j < |rest| ==> rest[j] == ms[j + 1];
      RetainAllEffect(RetainFrame(frames, f0).0, rest);
    }
  }

  // ---------------------------------------------------------------- what a space maps

  predicate HasSpace(spaces: seq<Space>, s: nat) {
    Lookup(spaces, SpaceId, s).Some?
  }

  function MappingAt(spaces: seq<Space>, s: nat, p: nat): Option<Mapping> {
    match Lookup(spaces, SpaceId, s)
    case None => None
    case Some(space) => Lookup(space.mappings, PageOf, p)
  }

  /** Page `p0` of space `s0` now maps as `m` says; every other page of every space maps as before. */
  ghost predicate Remapped(spaces: seq<Space>, spaces': seq<Space>, s0: nat, p0: nat, m: Option<Mapping>) {
    && (forall s :: HasSpace(spaces', s) <==> HasSpace(spaces, s))
    && forall s, p :: MappingAt(spaces', s, p) == if s == s0 && p == p0 then m else MappingAt(spaces, s, p)
  }

  lemma ReplaceSpace(spaces: seq<Space>, next: nat, i: nat, space: Space)
    requires SpacesOk(spaces, next) && i < |spaces| && space.id == spaces[i].id && SpaceOk(space)
    ensures var spaces' := spaces[i := space];
            && SpacesOk(spaces', next)
            && (forall f :: Count(spaces', f) == Count(spaces, f) - MapsFrame(f)(spaces[i]) + MapsFrame(f)(space))
            && (forall s :: HasSpace(spaces', s) <==> HasSpace(spaces, s))
            && (forall s, p :: MappingAt(spaces', s, p) ==
                  if s == space.id then Lookup(space.mappings, PageOf, p) else MappingAt(spaces, s, p))
            && (forall p :: MappingAt(spaces, space.id, p) == Lookup(spaces[i].mappings, PageOf, p))
  {
    LookupSet(spaces, SpaceId, i, space);
    UniqueIndex(spaces, SpaceId, i);
    forall f ensures Count(spaces[i := space], f) == Count(spaces, f) - MapsFrame(f)(spaces[i]) + MapsFrame(f)(space) {
      SumSet(spaces, MapsFrame(f), i, space);
    }
  }

  /** A mapping is counted. */
  lemma MappedIsCounted(spaces: seq<Space>, next: nat, s: nat, p: nat)
    requires SpacesOk(spaces, next) && MappingAt(spaces, s, p).Some?
    ensures Count(spaces, MappingAt(spaces, s, p).value.frame) > 0
  {
    var f := MappingAt(spaces, s, p).value.frame;
    var i := IndexOf(spaces, SpaceId, s).value;
    var j := IndexOf(spaces[i].mappings, PageOf, p).value;
    SumSet(spaces[i].mappings, MapsTo(f), j, spaces[i].mappings[j]);
    SumSet(spaces, MapsFrame(f), i, spaces[i]);
  }

  /** Two pages mapping the same frame are both counted. */
  lemma SharedIsCounted(spaces: seq<Space>, next: nat, s: nat, p: nat, s': nat, p': nat)
    requires SpacesOk(spaces, next) && MappingAt(spaces, s, p).Some? && MappingAt(spaces, s', p').Some?
    requires MappingAt(spaces, s, p).value.frame == MappingAt(spaces, s', p').value.frame && (s, p) != (s', p')
    ensures Count(spaces, MappingAt(spaces, s, p).value.frame) >= 2
  {
    var f := MappingAt(spaces, s, p).value.frame;
    var i, i' := IndexOf(spaces, SpaceId, s).value, IndexOf(spaces, SpaceId, s').value;
    var j, j' := IndexOf(spaces[i].mappings, PageOf, p).value, IndexOf(spaces[i'].mappings, PageOf, p').value;
    SumSet(spaces[i].mappings, MapsTo(f), j, spaces[i].mappings[j]);
    SumSet(spaces[i'].mappings, MapsTo(f), j', spaces[i'].mappings[j']);
    if i == i' {
      SumTwo(spaces[i].mappings, MapsTo(f), if j < j' then j else j', if j < j' then j' else j);
      SumSet(spaces, MapsFrame(f), i, spaces[i]);
    } else {
      SumTwo(spaces, MapsFrame(f), if i < i' then i else i', if i < i' then i' else i);
    }
  }

  // ---------------------------------------------------------------- one mapping changes

  lemma PushMapping(space: Space, m: Mapping)
    requires SpaceOk(space) && |space.mappings| < MAX_MAPPINGS_PER_SPACE
             && IndexOf(space.mappings, PageOf, m.page).None?
    ensures var space' := Bump(space.(mappings := space.mappings + [m]));
            && SpaceOk(space')
            && (forall f :: MapsFrame(f)(space') == MapsFrame(f)(space) + MapsTo(f)(m))
            && (forall p :: Lookup(space'.mappings, PageOf, p) == if p == m.page then Some(m)
                else Lookup(space.mappings, PageOf, p))
  {
    LookupPush(space.mappings, PageOf, m);
    forall f ensures Sum(space.mappings + [m], MapsTo(f)) == Sum(space.mappings, MapsTo(f)) + MapsTo(f)(m) {
      SumPush(space.mappings, MapsTo(f), m);
    }
  }

  lemma DropMapping(space: Space, j: nat)
    requires SpaceOk(space) && j < |space.mappings|
    ensures var space' := Bump(space.(mappings := SwapRemove(space.mappings, j)));
            && SpaceOk(space')
            && (forall f :: MapsFrame(f)(space') == MapsFrame(f)(space) - MapsTo(f)(space.mappings[j]))
            && (forall p :: Lookup(space'.mappings, PageOf, p) ==
                  if p == space.mappings[j].page then None else Lookup(space.mappings, PageOf, p))
  {
    LookupSwapRemove(space.mappings, PageOf, j);
    forall f ensures Sum(SwapRemove(space.mappings, j), MapsTo(f)) ==
        Sum(space.mappings, MapsTo(f)) - MapsTo(f)(space.mappings[j]) {
      SumSwapRemove(space.mappings, MapsTo(f), j);
    }
  }

  lemma ReplaceMapping(space: Space, j: nat, m: Mapping)
    requires SpaceOk(space) && j < |space.mappings| && m.page == space.mappings[j].page
    ensures var space' := Bump(space.(mappings := space.mappings[j := m]));
            && SpaceOk(space')
            && (forall f :: MapsFrame(f)(space') == MapsFrame(f)(space) - MapsTo(f)(space.mappings[j]) + MapsTo(f)(m))
            && (forall p :: Lookup(space'.mappings, PageOf, p) == if p == m.page then Some(m)
                else Lookup(space.mappings, PageOf, p))
  {
    LookupSet(space.mappings, PageOf, j, m);
    forall f ensures Sum(space.mappings[j := m], MapsTo(f)) ==
        Sum(space.mappings, MapsTo(f)) - MapsTo(f)(space.mappings[j]) + MapsTo(f)(m) {
      SumSet(space.mappings, MapsTo(f), j, m);
    }
  }

  // ---------------------------------------------------------------- operations

  lemma PushedSpaces(spaces: seq<Space>, next: nat, i: nat, m: Mapping)
    requires SpacesOk(spaces, next) && i < |spaces| && |spaces[i].mappings| < MAX_MAPPINGS_PER_SPACE
    requires IndexOf(spaces[i].mappings, PageOf, m.page).None?
    ensures var spaces' := spaces[i := Bump(spaces[i].(mappings := spaces[i].mappings + [m]))];
            && SpacesOk(spaces', next) && Remapped(spaces, spaces', spaces[i].id, m.page, Some(m))
            && (forall f :: Count(spaces', f) == Count(spaces, f) + MapsTo(f)(m))
  {
    PushMapping(spaces[i], m);
    ReplaceSpace(spaces, next, i, Bump(spaces[i].(mappings := spaces[i].mappings + [m])));
  }

  /** Mapping adds exactly one mapping and one reference, or changes nothing. */
  lemma MapEffect(t: Table, space: nat, page: nat, frame: nat, p: Permissions)
    requires TableInv(t)
    ensures var (t', r) := Map(t, space, page, frame, p);
            && TableInv(t') && (r.Err? ==> t' == t)
            && (r.Ok? <==>
                PermissionError(p).None? && HasSpace(t.spaces, space)
                && MappingAt(t.spaces, space, page).None?
                && |Lookup(t.spaces, SpaceId, space).value.mappings| < MAX_MAPPINGS_PER_SPACE
                && (Recorded(t.frames, frame) || |t.frames| < MAX_PHYSICAL_FRAMES))
            && (r.Ok? ==>
                  && r.value == Mapping(page, frame, p, false)
                  && Remapped(t.spaces, t'.spaces, space, page, Some(r.value))
                  && (forall f :: Refs(t'.frames, f) == Refs(t.frames, f) + if f == frame then 1 else 0)
                  && (forall f :: Recorded(t'.frames, f) <==> Recorded(t.frames, f) || f == frame)
                  && t'.nextFrame == t.nextFrame)
  {
    hide FramesOk, SpacesOk, Count, Refs, Recorded, RetainFrame, Remapped;
    var (t', r) := Map(t, space, page, frame, p);
    CountBound(t.spaces, t.nextSpace, frame);
    RetainEffect(t.frames, frame);
    if r.Ok? {
      var i := IndexOf(t.spaces, SpaceId, space).value;
      assert t.spaces[i].id == space;
      PushedSpaces(t.spaces, t.nextSpace, i, r.value);
    }
  }

  /** Unmapping removes exactly that mapping and its reference. */
  lemma UnmapEffect(t: Table, space: nat, page: nat)
    requires TableInv(t)
    ensures var (t', r) := Unmap(t, space, page);
            && TableInv(t') && (r.Err? ==> t' == t)
            && (r.Ok? <==> MappingAt(t.spaces, space, page).Some?)
            && (r.Ok? ==>
                  && MappingAt(t.spaces, space, page) == Some(r.value)
                  && Remapped(t.spaces, t'.spaces, space, page, None)
                  && (forall f :: Refs(t'.frames, f) == Refs(t.frames, f) - if f == r.value.frame then 1 else 0)
                  && (forall f :: Recorded(t'.frames, f) <==>
                      Recorded(t.frames, f)
                      && !(f == r.value.frame && Refs(t.frames, f) == 1))
                  && t'.nextFrame == t.nextFrame)
  {
    hide FramesOk, Count, ReleaseReference, Refs, Recorded;
    var (t', r) := Unmap(t, space, page);
    if r.Ok? {
      var i := IndexOf(t.spaces, SpaceId, space).value;
      var j := IndexOf(t.spaces[i].mappings, PageOf, page).value;
      MappedIsCounted(t.spaces, t.nextSpace, space, page);
      ReleaseEffect(t.frames, r.value.frame);
      DropMapping(t.spaces[i], j);
      ReplaceSpace(t.spaces, t.nextSpace, i, t'.spaces[i]);
    }
  }

  /** Replacing one mapping in place. */
  lemma SetMappingEffect(t: Table, space: nat, page: nat, m: Mapping)
    requires SpacesOk(t.spaces, t.nextSpace) && MappingAt(t.spaces, space, page).Some? && m.page == page
    ensures IndexOf(t.spaces, SpaceId, space).Some?
    ensures var i := IndexOf(t.spaces, SpaceId, space).value;
            && IndexOf(t.spaces[i].mappings, PageOf, page).Some?
            && var j := IndexOf(t.spaces[i].mappings, PageOf, page).value;
            var was := t.spaces[i].mappings[j]; var t' := SetMapping(t, i, j, m);
            && MappingAt(t.spaces, space, page) == Some(was)
            && SpacesOk(t'.spaces, t.nextSpace) && Remapped(t.spaces, t'.spaces, space, page, Some(m))
            && (forall f :: Count(t'.spaces, f) == Count(t.spaces, f) - MapsTo(f)(was) + MapsTo(f)(m))
  {
    var i := IndexOf(t.spaces, SpaceId, space).value;
    var j := IndexOf(t.spaces[i].mappings, PageOf, page).value;
    ReplaceMapping(t.spaces[i], j, m);
    ReplaceSpace(t.spaces, t.nextSpace, i, SetMapping(t, i, j, m).spaces[i]);
  }

  lemma ProtectEffect(t: Table, space: nat, page: nat, p: Permissions)
    requires TableInv(t)
    ensures var (t', r) := Protect(t, space, page, p);
            && TableInv(t') && (r.Err? ==> t' == t)
            && (r.Ok? <==> PermissionError(p).None? && MappingAt(t.spaces, space, page).Some?
                           && !(p.write && MappingAt(t.spaces, space, page).value.cow))
            && (r.Ok? ==>
                  && r.value == MappingAt(t.spaces, space, page).value.(permissions := p)
                  && Remapped(t.spaces, t'.spaces, space, page, Some(r.value))
                  && t'.frames == t.frames && t'.nextFrame == t.nextFrame)
  {
    hide SpacesOk, Remapped, Count, Refs;
    if MappingAt(t.spaces, space, page).Some? {
      var m := MappingAt(t.spaces, space, page).value;
      SetMappingEffect(t, space, page, m.(permissions := p));
    }
  }

  /** One reference moves from frame `from` to frame `to`. */
  lemma MoveReference(frames: seq<Frame>, from: nat, to: nat)
    requires FramesOk(frames) && Refs(frames, from) > 0 && Refs(frames, to) < U64_MAX && from != to
    requires RetainFrame(frames, to).1.None?
    ensures var frames' := ReleaseReference(RetainFrame(frames, to).0, from);
            && FramesOk(frames')
            && (forall f ::
                  Refs(frames', f) == Refs(frames, f) + (if f == to then 1 else 0) - if f == from then 1 else 0)
            && (forall f :: Recorded(frames', f) <==>
                (Recorded(frames, f) || f == to)
                && !(f == from && Refs(frames, f) == 1))
  {
    RetainEffect(frames, to);
    ReleaseEffect(RetainFrame(frames, to).0, from);
  }

  /** Resolving a fault moves one reference from the shared frame to the new one and makes the page
      writable; it is refused, with no effect, unless the page is copy-on-write. */
  lemma ResolveEffect(t: Table, space: nat, page: nat, frame: nat)
    requires TableInv(t)
    ensures var (t', r) := ResolveCowFault(t, space, page, frame);
            && TableInv(t') && (r.Err? ==> t' == t)
            && (r.Ok? <==>
                  && MappingAt(t.spaces, space, page).Some?
                  && MappingAt(t.spaces, space, page).value.cow && MappingAt(t.spaces, space, page).value.frame != frame
                  && (Recorded(t.frames, frame) || |t.frames| < MAX_PHYSICAL_FRAMES))
            && (r.Ok? ==>
                  && MappingAt(t.spaces, space, page).Some?
                  && var m := MappingAt(t.spaces, space, page).value;
                  && m.cow && m.frame != frame && r.value == (m.frame, frame)
                  && Remapped(t.spaces, t'.spaces, space, page,
                      Some(Mapping(page, frame, m.permissions.(write := true), false)))
                  && (forall f ::
                        Refs(t'.frames, f) ==
                        Refs(t.frames, f) + (if f == frame then 1 else 0) - if f == m.frame then 1 else 0)
                  && (forall f :: Recorded(t'.frames, f) <==>
                        (Recorded(t.frames, f) || f == frame) && !(f == m.frame && Refs(t.frames, f) == 1))
                  && t'.nextFrame == t.nextFrame)
  {
    hide SpacesOk, FramesOk, Remapped, Count, RetainFrame, ReleaseReference, Refs, Recorded;
    var (t', r) := ResolveCowFault(t, space, page, frame);
    CountBound(t.spaces, t.nextSpace, frame);
    RetainEffect(t.frames, frame);
    if r.Ok? {
      var m := MappingAt(t.spaces, space, page).value;
      MappedIsCounted(t.spaces, t.nextSpace, space, page);
      MoveReference(t.frames, m.frame, frame);
      SetMappingEffect(t, space, page, Mapping(page, frame, m.permissions.(write := true), false));
    }
  }

  // ---------------------------------------------------------------- spaces come and go

  lemma CreateEffect(t: Table, owner: nat)
    requires TableInv(t)
    ensures var (t', r) := Create(t, owner);
            && TableInv(t') && (r.Err? ==> t' == t)
            && (r.Ok? <==> |t.spaces| < MAX_ADDRESS_SPACES && t.nextSpace != 0 && t.nextSpace != U64_MAX)
            && (r.Ok? ==>
                  && r.value == t.nextSpace && !HasSpace(t.spaces, r.value)
                  && t'.spaces == t.spaces + [Space(r.value, owner, 0, [])]
                  && (forall s :: HasSpace(t'.spaces, s) <==> HasSpace(t.spaces, s) || s == r.value)
                  && (forall s, p :: MappingAt(t'.spaces, s, p) == MappingAt(t.spaces, s, p))
                  && t'.frames == t.frames && t'.nextFrame == t.nextFrame)
  {
    var space := Space(t.nextSpace, owner, 0, []);
    assert Lookup(t.spaces, SpaceId, space.id).None?;
    LookupPush(t.spaces, SpaceId, space);
    forall f ensures Count(t.spaces + [space], f) == Count(t.spaces, f) { SumPush(t.spaces, MapsFrame(f), space); }
  }

  /** Destroying a space drops its mappings and their references, and nothing else. */
  lemma DestroyEffect(t: Table, space: nat)
    requires TableInv(t)
    ensures var (t', r) := Destroy(t, space);
            && TableInv(t') && (r.Err? ==> t' == t) && (r.Ok? <==> HasSpace(t.spaces, space))
            && (r.Ok? ==>
                  && Lookup(t.spaces, SpaceId, space) == Some(r.value)
                  && (forall s :: HasSpace(t'.spaces, s) <==> HasSpace(t.spaces, s) && s != space)
                  && (forall s, p :: MappingAt(t'.spaces, s, p) == if s == space then None
                      else MappingAt(t.spaces, s, p))
                  && (forall f :: Refs(t'.frames, f) == Refs(t.frames, f) - MapsFrame(f)(r.value))
                  && (forall f :: Recorded(t'.frames, f) <==>
                        Recorded(t.frames, f) && (MapsFrame(f)(r.value) == 0
                            || MapsFrame(f)(r.value) < Refs(t.frames, f)))
                  && t'.nextFrame == t.nextFrame)
  {
    hide Refs, Recorded, FramesOk, ReleaseAll;
    if HasSpace(t.spaces, space) {
      var i := IndexOf(t.spaces, SpaceId, space).value;
      LookupSwapRemove(t.spaces, SpaceId, i);
      forall f
        ensures Count(SwapRemove(t.spaces, i), f) == Count(t.spaces, f) - Sum(t.spaces[i].mappings, MapsTo(f))
        ensures Sum(t.spaces[i].mappings, MapsTo(f)) <= Count(t.spaces, f)
      {
        SumSwapRemove(t.spaces, MapsFrame(f), i);
        SumSet(t.spaces, MapsFrame(f), i, t.spaces[i]);
      }
      ReleaseAllEffect(t.frames, t.spaces[i].mappings);
    }
  }

  // ---------------------------------------------------------------- frames come and go

  /** Allocation keeps frame records unique iff the next number has no record yet. */
  lemma AllocateEffect(t: Table)
    requires TableInv(t)
    ensures var (t', r) := AllocateFrame(t);
            && (r.Err? ==> t' == t)
            && (r.Ok? ==>
                  && r.value == t.nextFrame && t' ==
                      t.(nextFrame := t.nextFrame + 1, frames := t.frames + [Frame(r.value, 0)])
                  && (TableInv(t') <==> !Recorded(t.frames, t.nextFrame))
                  && (!Recorded(t.frames, t.nextFrame) ==>
                        forall f :: Recorded(t'.frames, f) <==> Recorded(t.frames, f) || f == r.value))
  {
    var (t', r) := AllocateFrame(t);
    if r.Ok? {
      if Recorded(t.frames, t.nextFrame) {
        var i := IndexOf(t.frames, FrameNumber, t.nextFrame).value;
        assert FrameNumber(t'.frames[i]) == FrameNumber(t'.frames[|t.frames|]);
      } else {
        LookupPush(t.frames, FrameNumber, Frame(t.nextFrame, 0));
      }
    }
  }

  lemma ReleaseFrameEffect(t: Table, f: nat)
    requires TableInv(t)
    ensures var (t', r) := ReleaseFrame(t, f);
            && TableInv(t') && (r.Err? ==> t' == t)
            && (r.Ok? <==> Recorded(t.frames, f) && Refs(t.frames, f) == 0)
            && t'.spaces == t.spaces && t'.nextFrame == t.nextFrame
            && (forall g :: Recorded(t'.frames, g) <==> Recorded(t.frames, g) && !(r.Ok? && g == f))
            && (forall g :: Refs(t'.frames, g) == Refs(t.frames, g))
  {
    if ReleaseFrame(t, f).1.Ok? { LookupSwapRemove(t.frames, FrameNumber, IndexOf(t.frames, FrameNumber, f).value); }
  }

  /** A never used frame number is not mapped anywhere. */
  lemma FreshFrame(t: Table)
    requires Handed(t)
    ensures !Recorded(t.frames, t.nextFrame) && Refs(t.frames, t.nextFrame) == 0
  {
  }

  /** The record just allocated is the one released when mapping fails: nothing remains but the number. */
  lemma AllocateThenRelease(t: Table)
    requires TableInv(t) && Handed(t) && AllocateFrame(t).1.Ok?
    ensures ReleaseFrame(AllocateFrame(t).0, t.nextFrame) == (t.(nextFrame := t.nextFrame + 1), Ok(()))
  {
    FreshFrame(t);
    AllocateEffect(t);
    var t' := AllocateFrame(t).0;
    UniqueIndex(t'.frames, FrameNumber, |t.frames|);
    assert SwapRemove(t'.frames, |t.frames|) == t.frames;
  }

  /** A new page gets a frame no one else maps; if that fails only the frame number is spent. */
  lemma MapNewEffect(t: Table, space: nat, page: nat, p: Permissions)
    requires TableInv(t) && Handed(t)
    ensures var (t', r) := MapNew(t, space, page, p);
            && TableInv(t') && Handed(t')
            && (r.Err? ==> t' == t.(nextFrame := t'.nextFrame) && t.nextFrame <= t'.nextFrame)
            && (r.Ok? ==>
                  && r.value == Mapping(page, t.nextFrame, p, false) && PermissionError(p).None?
                  && HasSpace(t.spaces, space) && MappingAt(t.spaces, space, page).None?
                  && Refs(t.frames, t.nextFrame) == 0
                  && Remapped(t.spaces, t'.spaces, space, page, Some(r.value))
                  && (forall f :: Refs(t'.frames, f) == Refs(t.frames, f) + if f == t.nextFrame then 1 else 0))
  {
    hide Map, ReleaseFrame, Remapped;
    FreshFrame(t);
    AllocateEffect(t);
    var (t1, frame) := AllocateFrame(t);
    if frame.Ok? {
      LookupPush(t.frames, FrameNumber, Frame(t.nextFrame, 0));
      MapEffect(t1, space, page, frame.value, p);
      AllocateThenRelease(t);
    }
  }

  // ---------------------------------------------------------------- fork

  function SharedOption(m: Option<Mapping>): Option<Mapping> {
    if m.None? then None else Some(Shared(m.value))
  }

  lemma {:induction false} SharedSum(ms: seq<Mapping>, f: nat)
    ensures Sum(SharedAll(ms), MapsTo(f)) == Sum(ms, MapsTo(f))
  {
    if ms != [] {
      SharedSum(ms[..|ms| - 1], f);
      assert SharedAll(ms)[..|ms| - 1] == SharedAll(ms[..|ms| - 1]);
    }
  }

  lemma SharedLookup(ms: seq<Mapping>)
    requires Unique(ms, PageOf)
    ensures Unique(SharedAll(ms), PageOf)
    ensures forall p :: Lookup(SharedAll(ms), PageOf, p) == SharedOption(Lookup(ms, PageOf, p))
  {
    var ms' := SharedAll(ms);
    assert forall j :: 0 <= j < |ms| ==> PageOf(ms'[j]) == PageOf(ms[j]);
    forall p ensures Lookup(ms', PageOf, p) == SharedOption(Lookup(ms, PageOf, p)) {
      var j := IndexOf(ms, PageOf, p);
      if j.Some? { UniqueIndex(ms', PageOf, j.value); }
    }
  }

  lemma SharedSpace(space: Space)
    requires SpaceOk(space)
    ensures var space' := Bump(space.(mappings := SharedAll(space.mappings)));
            && SpaceOk(space') && (forall f :: MapsFrame(f)(space') == MapsFrame(f)(space))
            && (forall p :: Lookup(space'.mappings, PageOf, p) == SharedOption(Lookup(space.mappings, PageOf, p)))
  {
    SharedLookup(space.mappings);
    forall f ensures Sum(SharedAll(space.mappings), MapsTo(f)) == Sum(space.mappings, MapsTo(f)) {
      SharedSum(space.mappings, f);
    }
  }

  /** Every frame mapped by a space is on record, so a fork can retain them all. */
  lemma ForkRetains(t: Table, i: nat)
    requires TableInv(t) && i < |t.spaces|
    ensures var ms := t.spaces[i].mappings;
            && (forall j :: 0 <= j < |ms| ==> Recorded(t.frames, ms[j].frame))
            && (forall f :: Refs(t.frames, f) + Sum(ms, MapsTo(f)) < U64_MAX)
  {
    var ms := t.spaces[i].mappings;
    forall j | 0 <= j < |ms| ensures Recorded(t.frames, ms[j].frame) {
      var f := ms[j].frame;
      SumSet(ms, MapsTo(f), j, ms[j]);
      SumSet(t.spaces, MapsFrame(f), i, t.spaces[i]);
      assert Refs(t.frames, f) == Count(t.spaces, f);
    }
    forall f ensures Refs(t.frames, f) + Sum(ms, MapsTo(f)) < U64_MAX {
      CountBound(t.spaces, t.nextSpace, f);
      SumSet(t.spaces, MapsFrame(f), i, t.spaces[i]);
      assert Refs(t.frames, f) == Count(t.spaces, f);
    }
  }

  /** The result of a fork: parent and child share every frame of the parent, read-only where it was
      writable. */
  ghost predicate Forked(t: Table, t': Table, parent: nat, child: nat)
  {
    && !HasSpace(t.spaces, child)
    && (forall s :: HasSpace(t'.spaces, s) <==> HasSpace(t.spaces, s) || s == child)
    && (forall s, p :: MappingAt(t'.spaces, s, p) ==
          if s == parent || s == child then SharedOption(MappingAt(t.spaces, parent, p)) else MappingAt(t.spaces, s, p))
    && HasSpace(t.spaces, parent)
    && (forall f :: Refs(t'.frames, f) == Refs(t.frames, f) + MapsFrame(f)(Lookup(t.spaces, SpaceId, parent).value))
    && (forall f :: Recorded(t'.frames, f) <==> Recorded(t.frames, f))
    && t'.nextFrame == t.nextFrame
  }

  /** Once the child exists, a fork cannot fail: a failed `clone_cow` has changed nothing. */
  lemma CloneEffect(t: Table, parent: nat, owner: nat)
    requires TableInv(t)
    ensures var (t', r) := CloneCow(t, parent, owner);
            && TableInv(t') && (r.Err? ==> t' == t)
            && (r.Ok? <==> HasSpace(t.spaces, parent) && Create(t, owner).1.Ok?)
            && (r.Ok? ==> r.value == t.nextSpace && Forked(t, t', parent, r.value))
  {
    CreateEffect(t, owner);
    if HasSpace(t.spaces, parent) && Create(t, owner).1.Ok? {
      var i := IndexOf(t.spaces, SpaceId, parent).value;
      var t1 := Create(t, owner).0;
      var c := |t.spaces|;
      UniqueIndex(t1.spaces, SpaceId, c);
      ForkRetains(t, i);
      RetainAllEffect(t.frames, t.spaces[i].mappings);
      CloneSpaces(t, i, owner);
    }
  }

  lemma SharedCopy(ms: seq<Mapping>)
    ensures |SharedAll(ms)| == |ms| && [] + SharedAll(ms)[..|ms|] == SharedAll(ms)
  {
  }

  /** The spaces after a fork of space number `i`. */
  function ForkedSpaces(t: Table, i: nat, owner: nat): seq<Space>
    requires i < |t.spaces|
  {
    var ms := SharedAll(t.spaces[i].mappings);
    (t.spaces + [Space(t.nextSpace, owner, 0, [])])
    [i := Bump(t.spaces[i].(mappings := ms))][|t.spaces| := Bump(Space(t.nextSpace, owner, 0, ms))]
  }

  lemma CloneComputes(t: Table, i: nat, owner: nat)
    requires TableInv(t) && i < |t.spaces| && Create(t, owner).1.Ok?
             && RetainAll(t.frames, t.spaces[i].mappings).2.None?
    ensures CloneCow(t, t.spaces[i].id, owner) ==
            (t.(nextSpace := t.nextSpace + 1, spaces := ForkedSpaces(t, i, owner),
                frames := RetainAll(t.frames, t.spaces[i].mappings).0), Ok(t.nextSpace))
  {
    hide Count, Refs, RetainAll, SharedAll, FramesOk;
    var c := |t.spaces|;
    CreateEffect(t, owner);
    var t1 := Create(t, owner).0;
    UniqueIndex(t.spaces, SpaceId, i);
    UniqueIndex(t1.spaces, SpaceId, c);
    SharedCopy(t.spaces[i].mappings);
    assert CloneCow(t, t.spaces[i].id, owner).0.spaces == ForkedSpaces(t, i, owner);
  }

  lemma ForkedSpacesEffect(t: Table, i: nat, owner: nat)
    requires TableInv(t) && i < |t.spaces| && Create(t, owner).1.Ok?
    ensures var spaces' := ForkedSpaces(t, i, owner); var parent, child := t.spaces[i].id, t.nextSpace;
            && SpacesOk(spaces', t.nextSpace + 1)
            && (forall f :: Count(spaces', f) == Count(t.spaces, f) + MapsFrame(f)(t.spaces[i]))
            && !HasSpace(t.spaces, child)
            && (forall s :: HasSpace(spaces', s) <==> HasSpace(t.spaces, s) || s == child)
            && (forall s, p :: MappingAt(spaces', s, p) ==
                  if s == parent || s == child then SharedOption(MappingAt(t.spaces, parent, p))
                  else MappingAt(t.spaces, s, p))
  {
    hide Count, Refs, SharedAll, SharedOption, HasSpace, MappingAt;
    var parent := t.spaces[i];
    CreateEffect(t, owner);
    var t1 := Create(t, owner).0;
    SharedSpace(parent);
    var marked := Bump(parent.(mappings := SharedAll(parent.mappings)));
    ReplaceSpace(t1.spaces, t1.nextSpace, i, marked);
    var copy := Bump(Space(t.nextSpace, owner, 0, SharedAll(parent.mappings)));
    ReplaceSpace(t1.spaces[i := marked], t1.nextSpace, |t.spaces|, copy);
    forall f ensures MapsFrame(f)(t1.spaces[|t.spaces|]) == 0 && MapsFrame(f)(copy) == MapsFrame(f)(marked) {
    }
  }

  lemma CloneSpaces(t: Table, i: nat, owner: nat)
    requires TableInv(t) && i < |t.spaces| && Create(t, owner).1.Ok?
             && RetainAll(t.frames, t.spaces[i].mappings).2.None?
    requires var frames' := RetainAll(t.frames, t.spaces[i].mappings).0;
             && FramesOk(frames') && (forall f ::
                Refs(frames', f) ==
                Refs(t.frames, f) + Sum(t.spaces[i].mappings, MapsTo(f)))
             && (forall f :: Recorded(frames', f) <==> Recorded(t.frames, f))
    ensures var (t', r) := CloneCow(t, t.spaces[i].id, owner);
            r == Ok(t.nextSpace) && TableInv(t') && Forked(t, t', t.spaces[i].id, t.nextSpace)
  {
    hide FramesOk, SpacesOk, RetainAll, Refs, Recorded, Count, SharedOption, CloneCow, ForkedSpaces, MappingAt;
    assert Lookup(t.spaces, SpaceId, t.spaces[i].id) == Some(t.spaces[i]) by { SpaceAt(t, i); }
    CloneComputes(t, i, owner);
    ForkedSpacesEffect(t, i, owner);
  }

  lemma SpaceAt(t: Table, i: nat)
    requires TableInv(t) && i < |t.spaces|
    ensures Lookup(t.spaces, SpaceId, t.spaces[i].id) == Some(t.spaces[i])
  {
  }

  // ---------------------------------------------------------------- generations

  function GenerationOf(spaces: seq<Space>, s: nat): Option<nat> {
    match Lookup(spaces, SpaceId, s)
    case None => None
    case Some(space) => Some(space.generation)
  }

  /** The generation of `space` moves on; every other space keeps its own. */
  ghost predicate Advanced(t: Table, t': Table, space: nat) {
    && GenerationOf(t.spaces, space).Some?
    && forall s :: GenerationOf(t'.spaces, s) ==
         if s == space then Some(SatInc(GenerationOf(t.spaces, space).value)) else GenerationOf(t.spaces, s)
  }

  lemma BumpAdvances(t: Table, t': Table, space: nat, i: nat, changed: Space)
    requires Unique(t.spaces, SpaceId) && IndexOf(t.spaces, SpaceId, space) == Some(i)
    requires changed.id == t.spaces[i].id && changed.generation == t.spaces[i].generation
    requires t'.spaces == t.spaces[i := Bump(changed)]
    ensures Advanced(t, t', space)
  {
    LookupSet(t.spaces, SpaceId, i, Bump(changed));
  }

  /** Every change to a space's mappings marks that space, and no other. */
  lemma ChangesAdvance(t: Table, space: nat, page: nat, frame: nat, p: Permissions)
    requires TableInv(t)
    ensures Map(t, space, page, frame, p).1.Ok? ==> Advanced(t, Map(t, space, page, frame, p).0, space)
    ensures Unmap(t, space, page).1.Ok? ==> Advanced(t, Unmap(t, space, page).0, space)
    ensures Protect(t, space, page, p).1.Ok? ==> Advanced(t, Protect(t, space, page, p).0, space)
    ensures ResolveCowFault(t, space, page, frame).1.Ok? ==>
            Advanced(t, ResolveCowFault(t, space, page, frame).0, space)
  {
    hide Advanced, RetainFrame, ReleaseReference, FramesOk, Count;
    var found := IndexOf(t.spaces, SpaceId, space);
    if found.Some? {
      var i := found.value;
      var ms := t.spaces[i].mappings;
      if Map(t, space, page, frame, p).1.Ok? {
        BumpAdvances(t, Map(t, space, page, frame, p).0, space, i,
            t.spaces[i].(mappings := ms + [Mapping(page, frame, p, false)]));
      }
      var at := IndexOf(ms, PageOf, page);
      if at.Some? {
        var j := at.value;
        BumpAdvances(t, Unmap(t, space, page).0, space, i, t.spaces[i].(mappings := SwapRemove(ms, j)));
        if Protect(t, space, page, p).1.Ok? {
          BumpAdvances(t, Protect(t, space, page, p).0, space, i,
              t.spaces[i].(mappings := ms[j := ms[j].(permissions := p)]));
        }
        if ResolveCowFault(t, space, page, frame).1.Ok? {
          var m := Mapping(page, frame, ms[j].permissions.(write := true), false);
          BumpAdvances(t, ResolveCowFault(t, space, page, frame).0, space, i, t.spaces[i].(mappings := ms[j := m]));
        }
      }
    }
  }

  /** A fork marks the parent, starts the child one past the first generation, and no other space. */
  lemma CloneAdvances(t: Table, parent: nat, owner: nat)
    requires TableInv(t) && CloneCow(t, parent, owner).1.Ok?
    ensures GenerationOf(t.spaces, parent).Some?
    ensures var (t', r) := CloneCow(t, parent, owner);
            forall s :: GenerationOf(t'.spaces, s) ==
                        if s == parent then Some(SatInc(GenerationOf(t.spaces, parent).value))
                        else if s == r.value then Some(1) else GenerationOf(t.spaces, s)
  {
    hide CloneCow, Count, SharedAll;
    CloneEffect(t, parent, owner);
    var i := IndexOf(t.spaces, SpaceId, parent).value;
    CloneForks(t, i, owner);
    var copy := Bump(Space(t.nextSpace, owner, 0, SharedAll(t.spaces[i].mappings)));
    var marked := Bump(t.spaces[i].(mappings := SharedAll(t.spaces[i].mappings)));
    LookupPush(t.spaces, SpaceId, Space(t.nextSpace, owner, 0, []));
    var made := t.spaces + [Space(t.nextSpace, owner, 0, [])];
    LookupSet(made, SpaceId, i, marked);
    LookupSet(made[i := marked], SpaceId, |t.spaces|, copy);
  }

  lemma CloneForks(t: Table, i: nat, owner: nat)
    requires TableInv(t) && i < |t.spaces| && CloneCow(t, t.spaces[i].id, owner).1.Ok?
    ensures CloneCow(t, t.spaces[i].id, owner).0.spaces == ForkedSpaces(t, i, owner)
  {
    hide Count, Refs;
    SpaceAt(t, i);
    UniqueIndex(t.spaces, SpaceId, i);
    ForkRetains(t, i);
    CloneComputes(t, i, owner);
  }
}
