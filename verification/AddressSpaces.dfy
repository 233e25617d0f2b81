/** Address spaces, frame reference counts and copy-on-write (kernel/src/address_space.rs), as functions on
    values. Pages, frames and owners are the raw numbers of the validated identifiers. */
module AddressSpaces {
  import opened Common

  const MAX_ADDRESS_SPACES: nat := 64
  const MAX_MAPPINGS_PER_SPACE: nat := 512
  const MAX_PHYSICAL_FRAMES: nat := 2048
  const MAX_FRAME_NUMBER: nat := U64_MAX / 4096

  datatype Permissions = Permissions(read: bool, write: bool, execute: bool)

  datatype Mapping = Mapping(page: nat, frame: nat, permissions: Permissions, cow: bool)

  datatype Space = Space(id: nat, owner: nat, generation: nat, mappings: seq<Mapping>)

  datatype Frame = Frame(number: nat, references: nat)

  datatype Table = Table(nextSpace: nat, nextFrame: nat, spaces: seq<Space>, frames: seq<Frame>)

  datatype MemoryError =
    | AddressSpaceLimit | FrameLimit | MappingLimit | InvalidAddressSpace | InvalidPhysicalFrame
    | NoAccess | WritableExecutable | AlreadyMapped | NotMapped | FrameInUse | FrameConflict | CowRequired

  function SpaceId(s: Space): nat { s.id }

  function PageOf(m: Mapping): nat { m.page }

  function FrameNumber(f: Frame): nat { f.number }

  /** `validate_permissions`: writable and executable exclude each other, and some access is needed. */
  function PermissionError(p: Permissions): Option<MemoryError> {
    if p.write && p.execute then Some(WritableExecutable)
    else if !p.read && !p.write && !p.execute then Some(NoAccess)
    else None
  }

  // ---------------------------------------------------------------- frame records

  function RetainFrame(frames: seq<Frame>, f: nat): (seq<Frame>, Option<MemoryError>) {
    match IndexOf(frames, FrameNumber, f)
    case Some(i) => (frames[i := Frame(f, SatInc(frames[i].references))], None)
    case None =>
      if |frames| >= MAX_PHYSICAL_FRAMES then (frames, Some(FrameLimit)) else (frames + [Frame(f, 1)], None)
  }

  function ReleaseReference(frames: seq<Frame>, f: nat): seq<Frame> {
    match IndexOf(frames, FrameNumber, f)
    case None => frames
    case Some(i) =>
      if frames[i].references > 1 then frames[i := Frame(f, frames[i].references - 1)] else SwapRemove(frames, i)
  }

  function ReleaseAll(frames: seq<Frame>, ms: seq<Mapping>): seq<Frame>
    decreases |ms|
  {
    if ms == [] then frames else ReleaseAll(ReleaseReference(frames, ms[0].frame), ms[1..])
  }

  // ---------------------------------------------------------------- operations

  function Bump(s: Space): Space {
    s.(generation := SatInc(s.generation))
  }

  function Create(t: Table, owner: nat): (Table, Result<nat, MemoryError>) {
    if |t.spaces| >= MAX_ADDRESS_SPACES || t.nextSpace == 0 || t.nextSpace == U64_MAX then (t, Err(AddressSpaceLimit))
    else (t.(nextSpace := t.nextSpace + 1, spaces := t.spaces + [Space(t.nextSpace, owner, 0, [])]), Ok(t.nextSpace))
  }

  function Destroy(t: Table, space: nat): (Table, Result<Space, MemoryError>) {
    match IndexOf(t.spaces, SpaceId, space)
    case None => (t, Err(InvalidAddressSpace))
    case Some(i) =>
      (t.(spaces := SwapRemove(t.spaces, i), frames := ReleaseAll(t.frames, t.spaces[i].mappings)), Ok(t.spaces[i]))
  }

  function AllocateFrame(t: Table): (Table, Result<nat, MemoryError>) {
    if |t.frames| >= MAX_PHYSICAL_FRAMES || t.nextFrame == 0 || t.nextFrame > MAX_FRAME_NUMBER then (t, Err(FrameLimit))
    else (t.(nextFrame := t.nextFrame + 1, frames := t.frames + [Frame(t.nextFrame, 0)]), Ok(t.nextFrame))
  }

  function ReleaseFrame(t: Table, f: nat): (Table, Result<(), MemoryError>) {
    match IndexOf(t.frames, FrameNumber, f)
    case None => (t, Err(InvalidPhysicalFrame))
    case Some(i) =>
      if t.frames[i].references != 0 then (t, Err(FrameInUse)) else (t.(frames := SwapRemove(t.frames, i)), Ok(()))
  }

  function Map(t: Table, space: nat, page: nat, frame: nat, p: Permissions): (Table, Result<Mapping, MemoryError>) {
    var bad := PermissionError(p);
    if bad.Some? then (t, Err(bad.value))
    else
      match IndexOf(t.spaces, SpaceId, space)
      case None => (t, Err(InvalidAddressSpace))
      case Some(i) =>
        var s := t.spaces[i];
        if IndexOf(s.mappings, PageOf, page).Some? then (t, Err(AlreadyMapped))
        else if |s.mappings| >= MAX_MAPPINGS_PER_SPACE then (t, Err(MappingLimit))
        else
          var retained := RetainFrame(t.frames, frame);
          if retained.1.Some? then (t, Err(retained.1.value))
          else
            var m := Mapping(page, frame, p, false);
            (t.(spaces := t.spaces[i := Bump(s.(mappings := s.mappings + [m]))], frames := retained.0), Ok(m))
  }

  function MapNew(t: Table, space: nat, page: nat, p: Permissions): (Table, Result<Mapping, MemoryError>) {
    var (t1, frame) := AllocateFrame(t);
    if frame.Err? then (t1, Err(frame.error))
    else
      var (t2, r) := Map(t1, space, page, frame.value, p);
      if r.Ok? then (t2, r) else (ReleaseFrame(t2, frame.value).0, r)
  }

  function Unmap(t: Table, space: nat, page: nat): (Table, Result<Mapping, MemoryError>) {
    match IndexOf(t.spaces, SpaceId, space)
    case None => (t, Err(InvalidAddressSpace))
    case Some(i) =>
      var s := t.spaces[i];
      match IndexOf(s.mappings, PageOf, page)
      case None => (t, Err(NotMapped))
      case Some(j) =>
        (t.(spaces := t.spaces[i := Bump(s.(mappings := SwapRemove(s.mappings, j)))],
            frames := ReleaseReference(t.frames, s.mappings[j].frame)), Ok(s.mappings[j]))
  }

  /** Replace mapping number `j` of space number `i`. */
  function SetMapping(t: Table, i: nat, j: nat, m: Mapping): Table
    requires i < |t.spaces| && j < |t.spaces[i].mappings|
  {
    t.(spaces := t.spaces[i := Bump(t.spaces[i].(mappings := t.spaces[i].mappings[j := m]))])
  }

  function Protect(t: Table, space: nat, page: nat, p: Permissions): (Table, Result<Mapping, MemoryError>) {
    var bad := PermissionError(p);
    if bad.Some? then (t, Err(bad.value))
    else
      match IndexOf(t.spaces, SpaceId, space)
      case None => (t, Err(InvalidAddressSpace))
      case Some(i) =>
        match IndexOf(t.spaces[i].mappings, PageOf, page)
        case None => (t, Err(NotMapped))
        case Some(j) =>
          var m := t.spaces[i].mappings[j];
          if m.cow && p.write then (t, Err(CowRequired))
          else (SetMapping(t, i, j, m.(permissions := p)), Ok(m.(permissions := p)))
  }

  /** A writable mapping becomes read-only and copy-on-write; others stay as they are. */
  function Shared(m: Mapping): Mapping {
    if m.permissions.write then m.(permissions := m.permissions.(write := false), cow := true) else m
  }

  function SharedAll(ms: seq<Mapping>): seq<Mapping> {
    seq(|ms|, j requires 0 <= j < |ms| => Shared(ms[j]))
  }

  /** The loop of `clone_cow`: it retains each frame and copies the mapping, up to the first failure. */
  function RetainAll(frames: seq<Frame>, ms: seq<Mapping>): (r: (seq<Frame>, nat, Option<MemoryError>))
    ensures r.1 <= |ms| && (r.2.None? <==> r.1 == |ms|)
    decreases |ms|
  {
    if ms == [] then (frames, 0, None)
    else
      var (frames1, failed) := RetainFrame(frames, ms[0].frame);
      if failed.Some? then (frames1, 0, failed)
      else
        var (frames2, n, failed2) := RetainAll(frames1, ms[1..]);
        (frames2, n + 1, failed2)
  }

  function CloneCow(t: Table, parent: nat, owner: nat): (Table, Result<nat, MemoryError>) {
    match IndexOf(t.spaces, SpaceId, parent)
    case None => (t, Err(InvalidAddressSpace))
    case Some(i) =>
      var ms := t.spaces[i].mappings;
      var (t1, child) := Create(t, owner);
      if child.Err? then (t1, child)
      else
        match IndexOf(t1.spaces, SpaceId, child.value)
        case None => (t1, Err(InvalidAddressSpace))
        case Some(c) =>
          var (frames, n, failed) := RetainAll(t1.frames, ms);
          var copied := t1.spaces[c := t1.spaces[c].(mappings := t1.spaces[c].mappings + SharedAll(ms)[..n])];
          if failed.Some? then (t1.(spaces := copied, frames := frames), Err(failed.value))
          else
            var marked := copied[i := Bump(copied[i].(mappings := SharedAll(copied[i].mappings)))];
            (t1.(spaces := marked[c := Bump(marked[c])], frames := frames), child)
  }

  function ResolveCowFault(t: Table, space: nat, page: nat, frame: nat): (Table, Result<(nat, nat), MemoryError>) {
    match IndexOf(t.spaces, SpaceId, space)
    case None => (t, Err(InvalidAddressSpace))
    case Some(i) =>
      match IndexOf(t.spaces[i].mappings, PageOf, page)
      case None => (t, Err(NotMapped))
      case Some(j) =>
        var m := t.spaces[i].mappings[j];
        if !m.cow then (t, Err(CowRequired))
        else if m.frame == frame then (t, Err(FrameConflict))
        else
          var (frames, failed) := RetainFrame(t.frames, frame);
          if failed.Some? then (t, Err(failed.value))
          else
            var t1 := t.(frames := ReleaseReference(frames, m.frame));
            (SetMapping(t1, i, j, Mapping(page, frame, m.permissions.(write := true), false)), Ok((m.frame, frame)))
  }
}
