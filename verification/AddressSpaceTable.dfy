/** The mutable address-space registry (`AddressSpaceTable` in kernel/src/address_space.rs): the same vectors,
    updated in place by the same loops, proved against the operations on values. */
module AddressSpaceTable {
  import opened Common
  import opened AddressSpaces
  import A = AddressSpaces

  lemma ReleaseAllPush(frames: seq<Frame>, ms: seq<Mapping>, m: Mapping)
    ensures ReleaseAll(frames, ms + [m]) == ReleaseReference(ReleaseAll(frames, ms), m.frame)
    decreases |ms|
  {
    if ms == [] {
      assert (ms + [m])[1..] == [];
    } else {
      ReleaseAllPush(ReleaseReference(frames, ms[0].frame), ms[1..], m);
      assert (ms + [m])[1..] == ms[1..] + [m];
    }
  }

  /** The mappings once the first `j` of them are shared. */
  function Marked(ms: seq<Mapping>, j: nat): (r: seq<Mapping>)
    requires j <= |ms|
    ensures |r| == |ms|
  {
    SharedAll(ms)[..j] + ms[j..]
  }

  lemma MarkOne(ms: seq<Mapping>, j: nat)
    requires j < |ms|
    ensures Marked(ms, j)[j] == ms[j] && Marked(ms, j)[j := Shared(ms[j])] == Marked(ms, j + 1)
  {
  }

  lemma MarkEnds(ms: seq<Mapping>)
    ensures Marked(ms, 0) == ms && Marked(ms, |ms|) == SharedAll(ms)
  {
  }

  /** Later updates of the same position win, and putting an element back changes nothing. */
  lemma SetTwice<T>(s: seq<T>, i: nat)
    requires i < |s|
    ensures s[i := s[i]] == s
    ensures forall x, y {:trigger s[i := x][i := y]} :: s[i := x][i := y] == s[i := y]
  {
  }

  class AddressSpaceTable {
    var nextSpace: nat
    var nextFrame: nat
    var spaces: seq<Space>
    var frames: seq<Frame>

    function State(): Table
      reads this
    {
      Table(nextSpace, nextFrame, spaces, frames)
    }

    constructor ()
      ensures State() == Table(1, 1, [], [])
    {
      nextSpace, nextFrame, spaces, frames := 1, 1, [], [];
    }

    method Create(owner: nat) returns (r: Result<nat, MemoryError>)
      modifies this
      ensures (State(), r) == A.Create(old(State()), owner)
    {
      if |spaces| >= MAX_ADDRESS_SPACES || nextSpace == 0 || nextSpace == U64_MAX {
        return Err(AddressSpaceLimit);
      }
      r := Ok(nextSpace);
      spaces := spaces + [Space(nextSpace, owner, 0, [])];
      nextSpace := nextSpace + 1;
    }

    method Destroy(space: nat) returns (r: Result<Space, MemoryError>)
      modifies this
      ensures (State(), r) == A.Destroy(old(State()), space)
    {
      var found := IndexOf(spaces, SpaceId, space);
      if found.None? { return Err(InvalidAddressSpace); }
      var removed := spaces[found.value];
      spaces := SwapRemove(spaces, found.value);
      var j := 0;
      while j < |removed.mappings|
        invariant 0 <= j <= |removed.mappings|
        invariant State() == old(State()).(spaces := spaces, frames := ReleaseAll(old(frames), removed.mappings[..j]))
        invariant spaces == SwapRemove(old(spaces), found.value)
      {
        DropReference(removed.mappings[j].frame);
        ReleaseAllPush(old(frames), removed.mappings[..j], removed.mappings[j]);
        assert removed.mappings[..j + 1] == removed.mappings[..j] + [removed.mappings[j]];
        j := j + 1;
      }
      assert removed.mappings[..j] == removed.mappings;
      r := Ok(removed);
    }

    method AllocateFrame() returns (r: Result<nat, MemoryError>)
      modifies this
      ensures (State(), r) == A.AllocateFrame(old(State()))
    {
      if |frames| >= MAX_PHYSICAL_FRAMES || nextFrame == 0 || nextFrame > MAX_FRAME_NUMBER {
        return Err(FrameLimit);
      }
      r := Ok(nextFrame);
      frames := frames + [Frame(nextFrame, 0)];
      nextFrame := nextFrame + 1;
    }

    method ReleaseFrame(f: nat) returns (r: Result<(), MemoryError>)
      modifies this
      ensures (State(), r) == A.ReleaseFrame(old(State()), f)
    {
      var found := IndexOf(frames, FrameNumber, f);
      if found.None? { return Err(InvalidPhysicalFrame); }
      if frames[found.value].references != 0 { return Err(FrameInUse); }
      frames := SwapRemove(frames, found.value);
      r := Ok(());
    }

    method Map(space: nat, page: nat, frame: nat, p: Permissions) returns (r: Result<Mapping, MemoryError>)
      modifies this
      ensures (State(), r) == A.Map(old(State()), space, page, frame, p)
    {
      var bad := PermissionError(p);
      if bad.Some? { return Err(bad.value); }
      var found := IndexOf(spaces, SpaceId, space);
      if found.None? { return Err(InvalidAddressSpace); }
      var i := found.value;
      if IndexOf(spaces[i].mappings, PageOf, page).Some? { return Err(AlreadyMapped); }
      if |spaces[i].mappings| >= MAX_MAPPINGS_PER_SPACE { return Err(MappingLimit); }
      var failed := Retain(frame);
      if failed.Some? { return Err(failed.value); }
      var m := Mapping(page, frame, p, false);
      spaces := spaces[i := spaces[i].(mappings := spaces[i].mappings + [m])];
      BumpGeneration(i);
      SetTwice(old(spaces), i);
      r := Ok(m);
    }

    method MapNew(space: nat, page: nat, p: Permissions) returns (r: Result<Mapping, MemoryError>)
      modifies this
      ensures (State(), r) == A.MapNew(old(State()), space, page, p)
    {
      var frame := AllocateFrame();
      if frame.Err? { return Err(frame.error); }
      r := Map(space, page, frame.value, p);
      if r.Err? { var _ := ReleaseFrame(frame.value); }
    }

    method Unmap(space: nat, page: nat) returns (r: Result<Mapping, MemoryError>)
      modifies this
      ensures (State(), r) == A.Unmap(old(State()), space, page)
    {
      var found := IndexOf(spaces, SpaceId, space);
      if found.None? { return Err(InvalidAddressSpace); }
      var i := found.value;
      var mapped := IndexOf(spaces[i].mappings, PageOf, page);
      if mapped.None? { return Err(NotMapped); }
      var m := spaces[i].mappings[mapped.value];
      spaces := spaces[i := spaces[i].(mappings := SwapRemove(spaces[i].mappings, mapped.value))];
      DropReference(m.frame);
      BumpGeneration(i);
      SetTwice(old(spaces), i);
      r := Ok(m);
    }

    method Protect(space: nat, page: nat, p: Permissions) returns (r: Result<Mapping, MemoryError>)
      modifies this
      ensures (State(), r) == A.Protect(old(State()), space, page, p)
    {
      var bad := PermissionError(p);
      if bad.Some? { return Err(bad.value); }
      var found := IndexOf(spaces, SpaceId, space);
      if found.None? { return Err(InvalidAddressSpace); }
      var i := found.value;
      var mapped := IndexOf(spaces[i].mappings, PageOf, page);
      if mapped.None? { return Err(NotMapped); }
      var j := mapped.value;
      if spaces[i].mappings[j].cow && p.write { return Err(CowRequired); }
      r := Ok(spaces[i].mappings[j].(permissions := p));
      spaces := spaces[i := spaces[i].(mappings := spaces[i].mappings[j := r.value])];
      BumpGeneration(i);
      SetTwice(old(spaces), i);
    }

    method CloneCow(parent: nat, owner: nat) returns (r: Result<nat, MemoryError>)
      modifies this
      ensures (State(), r) == A.CloneCow(old(State()), parent, owner)
    {
      var found := IndexOf(spaces, SpaceId, parent);
      if found.None? { return Err(InvalidAddressSpace); }
      var i := found.value;
      var ms := spaces[i].mappings;
      r := Create(owner);
      if r.Err? { return; }
      var created := IndexOf(spaces, SpaceId, r.value);
      if created.None? { return Err(InvalidAddressSpace); }
      var c := created.value;
      var failed := CopyMappings(c, ms);
      if failed.Some? { return Err(failed.value); }
      assert SharedAll(ms)[..|ms|] == SharedAll(ms);
      ghost var copied := spaces;
      MarkShared(i);
      BumpGeneration(i);
      SetTwice(copied, i);
      BumpGeneration(c);
    }

    /** The first loop of a fork: retain each frame and push the shared mapping to space number `c`. */
    method CopyMappings(c: nat, ms: seq<Mapping>) returns (failed: Option<MemoryError>)
      requires c < |spaces|
      modifies this
      ensures var (frames', n, e) := RetainAll(old(frames), ms);
              && failed == e
              && State() == old(State()).(frames := frames',
                   spaces := old(spaces)[c := old(spaces[c]).(
                     mappings := old(spaces[c]).mappings + SharedAll(ms)[..n])])
    {
      ghost var before := spaces[c];
      SetTwice(spaces, c);
      assert before.mappings + SharedAll(ms)[..0] == before.mappings;
      var j := 0;
      while j < |ms|
        invariant 0 <= j <= |ms| && nextSpace == old(nextSpace) && nextFrame == old(nextFrame)
        invariant spaces == old(spaces)[c := before.(mappings := before.mappings + SharedAll(ms)[..j])]
        invariant var (frames', n, e) := RetainAll(old(frames), ms); (frames', n, e) == Resumed(frames, ms, j)
      {
        failed := Retain(ms[j].frame);
        if failed.Some? { return; }
        assert ms[j..][1..] == ms[j + 1..];
        assert before.mappings + SharedAll(ms)[..j + 1] == before.mappings + SharedAll(ms)[..j] + [Shared(ms[j])];
        spaces := spaces[c := spaces[c].(mappings := spaces[c].mappings + [Shared(ms[j])])];
        j := j + 1;
      }
      failed := None;
    }

    /** The second loop: the parent's writable mappings become copy-on-write. */
    method MarkShared(i: nat)
      requires i < |spaces|
      modifies this`spaces
      ensures spaces == old(spaces)[i := old(spaces[i]).(mappings := SharedAll(old(spaces[i]).mappings))]
    {
      hide SharedAll, Marked;
      ghost var before := spaces[i];
      ghost var ms := before.mappings;
      SetTwice(spaces, i);
      MarkEnds(ms);
      var j := 0;
      while j < |spaces[i].mappings|
        invariant |spaces| == |old(spaces)| && 0 <= j <= |ms|
        invariant spaces == old(spaces)[i := before.(mappings := Marked(ms, j))]
      {
        var m := spaces[i].mappings[j];
        if m.permissions.write {
          m := m.(permissions := m.permissions.(write := false), cow := true);
        }
        MarkOne(ms, j);
        SetTwice(old(spaces), i);
        spaces := spaces[i := spaces[i].(mappings := spaces[i].mappings[j := m])];
        j := j + 1;
      }
    }

    method ResolveCowFault(space: nat, page: nat, frame: nat) returns (r: Result<(nat, nat), MemoryError>)
      modifies this
      ensures (State(), r) == A.ResolveCowFault(old(State()), space, page, frame)
    {
      var found := IndexOf(spaces, SpaceId, space);
      if found.None? { return Err(InvalidAddressSpace); }
      var i := found.value;
      var mapped := IndexOf(spaces[i].mappings, PageOf, page);
      if mapped.None? { return Err(NotMapped); }
      var j := mapped.value;
      var m := spaces[i].mappings[j];
      if !m.cow { return Err(CowRequired); }
      if m.frame == frame { return Err(FrameConflict); }
      var failed := Retain(frame);
      if failed.Some? { return Err(failed.value); }
      DropReference(m.frame);
      var resolved := m.(frame := frame, permissions := m.permissions.(write := true), cow := false);
      spaces := spaces[i := spaces[i].(mappings := spaces[i].mappings[j := resolved])];
      BumpGeneration(i);
      SetTwice(old(spaces), i);
      r := Ok((m.frame, frame));
    }

    method Retain(f: nat) returns (failed: Option<MemoryError>)
      modifies this`frames
      ensures (frames, failed) == RetainFrame(old(frames), f)
    {
      var found := IndexOf(frames, FrameNumber, f);
      if found.Some? {
        frames := frames[found.value := Frame(f, SatInc(frames[found.value].references))];
        return None;
      }
      if |frames| >= MAX_PHYSICAL_FRAMES { return Some(FrameLimit); }
      frames := frames + [Frame(f, 1)];
      failed := None;
    }

    method DropReference(f: nat)
      modifies this`frames
      ensures frames == ReleaseReference(old(frames), f)
    {
      var found := IndexOf(frames, FrameNumber, f);
      if found.None? { return; }
      var i := found.value;
      if frames[i].references > 1 {
        frames := frames[i := Frame(f, frames[i].references - 1)];
      } else {
        frames := SwapRemove(frames, i);
      }
    }

    method BumpGeneration(i: nat)
      requires i < |spaces|
      modifies this`spaces
      ensures spaces == old(spaces)[i := Bump(old(spaces[i]))]
    {
      spaces := spaces[i := Bump(spaces[i])];
    }
  }

  /** The result of the copying loop when its first `j` turns led to `frames`. */
  function Resumed(frames: seq<Frame>, ms: seq<Mapping>, j: nat): (seq<Frame>, nat, Option<MemoryError>)
    requires j <= |ms|
  {
    var (frames', n, failed) := RetainAll(frames, ms[j..]);
    (frames', n + j, failed)
  }
}
