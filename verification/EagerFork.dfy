/** Copy-on-write against eager copying: with page contents as ghost state, sharing frames after a fork and
    copying them at the first write shows every address space exactly what copying every page at the fork
    would show it. */
module EagerFork {
  import opened Common
  import A = AddressSpaces
  import opened AddressInvariant
  import opened CopyOnWrite

  // ---------------------------------------------------------------- the two machines

  /** The kernel's table and the contents of physical frames. */
  datatype Machine = Machine(table: A.Table, memory: map<nat, int>)

  /** What a process sees of a page: its contents and the access it was given. */
  datatype Page = Page(content: int, permissions: A.Permissions)

  /** The eager machine has no frames: every address space owns its pages. */
  type Eager = map<nat, map<nat, Page>>

  function Content(memory: map<nat, int>, f: nat): int {
    if f in memory then memory[f] else 0
  }

  /** A copy-on-write page is one its owner may write to. */
  function Intended(m: A.Mapping): A.Permissions {
    m.permissions.(write := m.permissions.write || m.cow)
  }

  function PageAt(c: Machine, s: nat, p: nat): Option<Page> {
    match MappingAt(c.table.spaces, s, p)
    case None => None
    case Some(m) => Some(Page(Content(c.memory, m.frame), Intended(m)))
  }

  function EagerPage(e: Eager, s: nat, p: nat): Option<Page> {
    if s in e && p in e[s] then Some(e[s][p]) else None
  }

  /** Both machines have the same spaces, and every page looks the same in both. */
  ghost predicate Agrees(c: Machine, e: Eager) {
    && (forall s :: HasSpace(c.table.spaces, s) <==> s in e)
    && forall s, p :: PageAt(c, s, p) == EagerPage(e, s, p)
  }

  datatype Op =
    | Create(owner: nat)
    | Destroy(space: nat)
    | MapNew(space: nat, page: nat, permissions: A.Permissions, fill: int)
    | Map(space: nat, page: nat, frame: nat, permissions: A.Permissions, fill: int)
    | Unmap(space: nat, page: nat)
    | Protect(space: nat, page: nat, permissions: A.Permissions)
    | Fork(parent: nat, owner: nat)
    | Resolve(space: nat, page: nat, frame: nat)
    | Allocate
    | Free(frame: nat)
    | Store(space: nat, page: nat, value: int, frame: nat)

  datatype Outcome = Refused | Done | Named(id: nat)

  /** One attempt at a store: it needs the write bit. */
  function Attempt(c: Machine, space: nat, page: nat, value: int): (Machine, Outcome) {
    match MappingAt(c.table.spaces, space, page)
    case None => (c, Refused)
    case Some(m) => if m.permissions.write then (c.(memory := c.memory[m.frame := value]), Done) else (c, Refused)
  }

  /** The fault handler copies the old frame's contents into the new frame. */
  function Copied(c: Machine, space: nat, page: nat, frame: nat): (Machine, Outcome) {
    var r := A.ResolveCowFault(c.table, space, page, frame);
    if r.1.Ok? then (Machine(r.0, c.memory[frame := Content(c.memory, r.1.value.0)]), Done)
    else (c.(table := r.0), Refused)
  }

  /** A store that faults is tried once more after the fault handler, given `frame`, has resolved the fault. */
  function Stored(c: Machine, space: nat, page: nat, value: int, frame: nat): (Machine, Outcome) {
    if Attempt(c, space, page, value).1.Done? then Attempt(c, space, page, value)
    else
      var resolved := Copied(c, space, page, frame);
      if resolved.1.Refused? then resolved else Attempt(resolved.0, space, page, value)
  }

  function Step(c: Machine, op: Op): (Machine, Outcome) {
    var t := c.table;
    match op
    case Create(owner) =>
      var r := A.Create(t, owner);
      (c.(table := r.0), if r.1.Ok? then Named(r.1.value) else Refused)
    case Destroy(space) =>
      var r := A.Destroy(t, space);
      (c.(table := r.0), if r.1.Ok? then Done else Refused)
    case MapNew(space, page, p, fill) =>
      var r := A.MapNew(t, space, page, p);
      if r.1.Ok? then (Machine(r.0, c.memory[r.1.value.frame := fill]), Done) else (c.(table := r.0), Refused)
    case Map(space, page, frame, p, fill) =>
      var r := A.Map(t, space, page, frame, p);
      if r.1.Ok? then (Machine(r.0, c.memory[frame := fill]), Done) else (c.(table := r.0), Refused)
    case Unmap(space, page) =>
      var r := A.Unmap(t, space, page);
      (c.(table := r.0), if r.1.Ok? then Done else Refused)
    case Protect(space, page, p) =>
      var r := A.Protect(t, space, page, p);
      (c.(table := r.0), if r.1.Ok? then Done else Refused)
    case Fork(parent, owner) =>
      var r := A.CloneCow(t, parent, owner);
      (c.(table := r.0), if r.1.Ok? then Named(r.1.value) else Refused)
    case Resolve(space, page, frame) => Copied(c, space, page, frame)
    case Allocate =>
      var r := A.AllocateFrame(t);
      (c.(table := r.0), if r.1.Ok? then Named(r.1.value) else Refused)
    case Free(frame) =>
      var r := A.ReleaseFrame(t, frame);
      (c.(table := r.0), if r.1.Ok? then Done else Refused)
    case Store(space, page, value, frame) => Stored(c, space, page, value, frame)
  }

  function PutPage(e: Eager, s: nat, p: nat, page: Page): Eager {
    var pages: map<nat, Page> := if s in e then e[s][p := page] else map[];
    if s in e then e[s := pages] else e
  }

  /** With private pages nothing faults: a store goes through iff the page may be written. */
  predicate Writable(e: Eager, s: nat, p: nat) {
    EagerPage(e, s, p).Some? && EagerPage(e, s, p).value.permissions.write
  }

  /** The same operations with private pages: a fork copies everything, a fault changes nothing. Stores are
      decided by the pages' own permissions; resource limits and the like refuse as in the lazy machine. */
  function EagerStep(e: Eager, op: Op, outcome: Outcome): Eager {
    if op.Store? then
      if Writable(e, op.space, op.page) then
        PutPage(e, op.space, op.page, EagerPage(e, op.space, op.page).value.(content := op.value))
      else e
    else if outcome.Refused? then e
    else
      match op
      case Create(_) => if outcome.Named? then e[outcome.id := map[]] else e
      case Destroy(space) => e - {space}
      case MapNew(space, page, p, fill) => PutPage(e, space, page, Page(fill, p))
      case Map(space, page, _, p, fill) => PutPage(e, space, page, Page(fill, p))
      case Unmap(space, page) => if space in e then e[space := e[space] - {page}] else e
      case Protect(space, page, p) =>
        var was := EagerPage(e, space, page);
        if was.None? then e else PutPage(e, space, page, was.value.(permissions := p))
      case Fork(parent, _) => if outcome.Named? && parent in e then e[outcome.id := e[parent]] else e
      case Resolve(_, _, _) => e
      case Allocate => e
      case Free(_) => e
  }

  // ---------------------------------------------------------------- side conditions

  ghost predicate Good(c: Machine) {
    TableInv(c.table) && Handed(c.table) && Exclusive(c.table)
  }

  /** Frames given to `map` and to the fault handler were allocated and are not mapped, and one is at hand when
      a store needs it; `protect` does not touch copy-on-write pages or make a shared frame writable. */
  ghost predicate Allowed(c: Machine, op: Op) {
    match op
    case Map(_, _, frame, _, _) => Refs(c.table.frames, frame) == 0 && frame < c.table.nextFrame
    case Resolve(_, _, frame) => Refs(c.table.frames, frame) == 0 && frame < c.table.nextFrame
    case Protect(space, page, p) =>
      match MappingAt(c.table.spaces, space, page) {
        case None => true
        case Some(m) => !m.cow && (p.write ==> Refs(c.table.frames, m.frame) == 1)
      }
    case Store(space, page, _, frame) =>
      MappingAt(c.table.spaces, space, page).Some? && MappingAt(c.table.spaces, space, page).value.cow ==>
        Refs(c.table.frames, frame) == 0 && frame < c.table.nextFrame && Recorded(c.table.frames, frame)
    case _ => true
  }

  // ---------------------------------------------------------------- each step agrees

  /** Changing the contents of a frame that no page maps changes no page. */
  lemma UnseenContent(c: Machine, f: nat, value: int)
    requires TableInv(c.table) && Refs(c.table.frames, f) == 0
    ensures forall s, p :: PageAt(c.(memory := c.memory[f := value]), s, p) == PageAt(c, s, p)
  {
    hide TableInv, MappingAt, Refs;
    forall s: nat, p: nat ensures PageAt(c.(memory := c.memory[f := value]), s, p) == PageAt(c, s, p) {
      if MappingAt(c.table.spaces, s, p).Some? { MappedHasReference(c.table, s, p); }
    }
  }

  /** A page put on a frame that nothing mapped before. */
  lemma NewPageAgrees(c: Machine, e: Eager, t': A.Table, s: nat, p: nat, m: A.Mapping, value: int)
    requires TableInv(c.table) && Agrees(c, e) && HasSpace(c.table.spaces, s) && Refs(c.table.frames, m.frame) == 0
    requires Remapped(c.table.spaces, t'.spaces, s, p, Some(m))
    ensures Agrees(Machine(t', c.memory[m.frame := value]), PutPage(e, s, p, Page(value, Intended(m))))
  {
    hide TableInv, MappingAt, HasSpace, Refs;
    UnseenContent(c, m.frame, value);
    var c', e' := Machine(t', c.memory[m.frame := value]), PutPage(e, s, p, Page(value, Intended(m)));
    forall s1: nat, p1: nat ensures PageAt(c', s1, p1) == EagerPage(e', s1, p1) {
      if (s1, p1) != (s, p) {
        assert PageAt(c.(memory := c'.memory), s1, p1) == PageAt(c, s1, p1);
      }
    }
  }

  lemma AttemptAgrees(c: Machine, e: Eager, space: nat, page: nat, value: int, frame: nat)
    requires Good(c) && Agrees(c, e) && Attempt(c, space, page, value).1.Done?
    ensures var c' := Attempt(c, space, page, value).0;
            Good(c') && Writable(e, space, page) && Agrees(c', EagerStep(e, Store(space, page, value, frame), Done))
  {
    hide TableInv, MappingAt, HasSpace, Refs;
    var c', e' := Attempt(c, space, page, value).0, EagerStep(e, Store(space, page, value, frame), Done);
    var m := MappingAt(c.table.spaces, space, page).value;
    assert PageAt(c, space, page) == EagerPage(e, space, page);
    forall s: nat, p: nat ensures PageAt(c', s, p) == EagerPage(e', s, p) {
      if (s, p) != (space, page) && MappingAt(c.table.spaces, s, p).Some?
         && MappingAt(c.table.spaces, s, p).value.frame == m.frame {
        SharedHasReferences(c.table, space, page, s, p);
      }
      assert PageAt(c, s, p) == EagerPage(e, s, p);
    }
  }

  lemma ResolveAgrees(c: Machine, e: Eager, space: nat, page: nat, frame: nat)
    requires Good(c) && Agrees(c, e) && Allowed(c, Resolve(space, page, frame))
    ensures var (c', o) := Step(c, Resolve(space, page, frame));
            Good(c') && Agrees(c', e)
  {
    hide TableInv, MappingAt, HasSpace, Refs, Recorded, A.ResolveCowFault;
    ResolveEffect(c.table, space, page, frame);
    var (c', o) := Copied(c, space, page, frame);
    if o.Done? {
      ResolveExclusive(c.table, space, page, frame);
      var m := MappingAt(c.table.spaces, space, page).value;
      UnseenContent(c, frame, Content(c.memory, m.frame));
      forall s: nat, p: nat ensures PageAt(c', s, p) == PageAt(c, s, p) {
        if (s, p) != (space, page) { assert PageAt(c.(memory := c'.memory), s, p) == PageAt(c, s, p); }
      }
    }
  }

  lemma MapAgrees(c: Machine, e: Eager, op: Op)
    requires Good(c) && Agrees(c, e) && Allowed(c, op) && op.Map?
    ensures var (c', o) := Step(c, op); Good(c') && Agrees(c', EagerStep(e, op, o))
  {
    hide TableInv, MappingAt, HasSpace, Refs, Recorded, A.Map, Agrees, Remapped;
    MapEffect(c.table, op.space, op.page, op.frame, op.permissions);
    var (c', o) := Step(c, op);
    if o.Done? {
      MapExclusive(c.table, op.space, op.page, op.frame, op.permissions);
      NewPageAgrees(c, e, c'.table, op.space, op.page, A.Mapping(op.page, op.frame, op.permissions, false), op.fill);
    }
  }

  lemma MapNewAgrees(c: Machine, e: Eager, op: Op)
    requires Good(c) && Agrees(c, e) && op.MapNew?
    ensures var (c', o) := Step(c, op); Good(c') && Agrees(c', EagerStep(e, op, o))
  {
    hide TableInv, MappingAt, HasSpace, Refs, Recorded, A.MapNew, Remapped;
    MapNewEffect(c.table, op.space, op.page, op.permissions);
    var (c', o) := Step(c, op);
    if o.Done? {
      MapNewExclusive(c.table, c'.table, op.space, op.page, op.permissions);
      NewPageAgrees(c, e, c'.table, op.space, op.page, A.Mapping(op.page, c.table.nextFrame, op.permissions, false),
          op.fill);
    } else {
      assert forall s, p :: PageAt(c', s, p) == PageAt(c, s, p);
    }
  }

  lemma MapNewExclusive(t: A.Table, t': A.Table, space: nat, page: nat, p: A.Permissions)
    requires TableInv(t) && Exclusive(t) && Refs(t.frames, t.nextFrame) == 0
    requires Remapped(t.spaces, t'.spaces, space, page, Some(A.Mapping(page, t.nextFrame, p, false)))
    requires forall f :: Refs(t'.frames, f) == Refs(t.frames, f) + if f == t.nextFrame then 1 else 0
    ensures Exclusive(t')
  {
  }

  lemma ForkAgrees(c: Machine, e: Eager, op: Op)
    requires Good(c) && Agrees(c, e) && op.Fork?
    ensures var (c', o) := Step(c, op); Good(c') && Agrees(c', EagerStep(e, op, o))
  {
    hide TableInv, MappingAt, HasSpace, Refs, Recorded, A.CloneCow, MapsFrame;
    CloneEffect(c.table, op.parent, op.owner);
    CloneExclusive(c.table, op.parent, op.owner);
    var (c', o) := Step(c, op);
    if o.Named? {
      var e' := EagerStep(e, op, o);
      forall s: nat, p: nat ensures PageAt(c', s, p) == EagerPage(e', s, p) {
        assert PageAt(c, s, p) == EagerPage(e, s, p) && PageAt(c, op.parent, p) == EagerPage(e, op.parent, p);
      }
    }
  }

  lemma OtherAgrees(c: Machine, e: Eager, op: Op)
    requires Good(c) && Agrees(c, e) && Allowed(c, op) && (op.Create? || op.Destroy? || op.Allocate? || op.Free?)
    ensures var (c', o) := Step(c, op); Good(c') && Agrees(c', EagerStep(e, op, o))
  {
    hide TableInv, MappingAt, HasSpace, Refs, Recorded, A.Create, A.Destroy, A.ReleaseFrame, MapsFrame;
    var (c', o) := Step(c, op);
    match op {
      case Create(owner) =>
        CreateEffect(c.table, owner);
        assert forall s, p :: PageAt(c', s, p) == PageAt(c, s, p);
        if o.Named? { forall p: nat ensures PageAt(c, o.id, p).None? { assert PageAt(c, o.id, p) ==
            EagerPage(e, o.id, p); } }
      case Destroy(space) =>
        DestroyEffect(c.table, space);
        DestroyExclusive(c.table, space);
        forall s: nat, p: nat ensures PageAt(c', s, p) == EagerPage(EagerStep(e, op, o), s, p) {
          assert PageAt(c, s, p) == EagerPage(e, s, p);
        }
      case Allocate =>
        FreshFrame(c.table);
        AllocateEffect(c.table);
        AllocateRefs(c.table);
        assert forall s, p :: PageAt(c', s, p) == PageAt(c, s, p);
      case Free(frame) =>
        ReleaseFrameEffect(c.table, frame);
        assert forall s, p :: PageAt(c', s, p) == PageAt(c, s, p);
      case _ =>
    }
  }

  lemma AllocateRefs(t: A.Table)
    requires TableInv(t) && Handed(t)
    ensures forall f :: Refs(A.AllocateFrame(t).0.frames, f) == Refs(t.frames, f)
  {
    FreshFrame(t);
    if A.AllocateFrame(t).1.Ok? { LookupPush(t.frames, A.FrameNumber, A.Frame(t.nextFrame, 0)); }
  }

  lemma RemapAgrees(c: Machine, e: Eager, op: Op)
    requires Good(c) && Agrees(c, e) && Allowed(c, op) && (op.Unmap? || op.Protect?)
    ensures var (c', o) := Step(c, op); Good(c') && Agrees(c', EagerStep(e, op, o))
  {
    hide TableInv, MappingAt, HasSpace, Refs, Recorded, A.Unmap, A.Protect;
    var (c', o) := Step(c, op);
    var e' := EagerStep(e, op, o);
    assert PageAt(c, op.space, op.page) == EagerPage(e, op.space, op.page);
    match op {
      case Unmap(space, page) =>
        UnmapEffect(c.table, space, page);
        UnmapExclusive(c.table, space, page);
      case Protect(space, page, p) =>
        ProtectEffect(c.table, space, page, p);
        if o.Done? { ProtectExclusive(c.table, space, page, p); }
      case _ =>
    }
    forall s: nat, p: nat ensures PageAt(c', s, p) == EagerPage(e', s, p) {
      assert PageAt(c, s, p) == EagerPage(e, s, p);
    }
  }

  /** A store, with its fault resolved on the way, goes through iff the eager machine's page may be written,
      and then changes the same page. */
  lemma StoreGoesThrough(c: Machine, e: Eager, space: nat, page: nat, value: int, frame: nat)
    requires Good(c) && Agrees(c, e) && Allowed(c, Store(space, page, value, frame))
    ensures var (c', o) := Stored(c, space, page, value, frame);
            && (o.Done? <==> Writable(e, space, page))
            && Good(c') && Agrees(c', EagerStep(e, Store(space, page, value, frame), o))
  {
    hide TableInv, MappingAt, HasSpace, Refs, Recorded, A.ResolveCowFault, Good;
    assert PageAt(c, space, page) == EagerPage(e, space, page);
    var found := MappingAt(c.table.spaces, space, page);
    if Attempt(c, space, page, value).1.Done? {
      AttemptAgrees(c, e, space, page, value, frame);
    } else {
      FaultResolved(c, space, page, frame);
      if found.Some? && found.value.cow {
        ResolveAgrees(c, e, space, page, frame);
        AttemptAgrees(Copied(c, space, page, frame).0, e, space, page, value, frame);
      }
    }
  }

  /** The fault handler succeeds exactly on copy-on-write pages, and leaves them writable. */
  lemma FaultResolved(c: Machine, space: nat, page: nat, frame: nat)
    requires Good(c) && Allowed(c, Store(space, page, 0, frame))
    ensures var (c', o) := Copied(c, space, page, frame); var found := MappingAt(c.table.spaces, space, page);
            && (o.Done? <==> found.Some? && found.value.cow) && (o.Refused? ==> c' == c)
            && (o.Done? ==> Attempt(c', space, page, 0).1.Done? && Allowed(c, Resolve(space, page, frame)))
  {
    hide TableInv, MappingAt, HasSpace, Refs, Recorded, A.ResolveCowFault;
    ResolveEffect(c.table, space, page, frame);
    if MappingAt(c.table.spaces, space, page).Some? { MappedHasReference(c.table, space, page); }
  }

  lemma StepAgrees(c: Machine, e: Eager, op: Op)
    requires Good(c) && Agrees(c, e) && Allowed(c, op)
    ensures var (c', o) := Step(c, op);
            && Good(c') && Agrees(c', EagerStep(e, op, o))
            && (op.Store? ==> (o.Done? <==> Writable(e, op.space, op.page)))
  {
    match op
    case Map(_, _, _, _, _) => MapAgrees(c, e, op);
    case MapNew(_, _, _, _) => MapNewAgrees(c, e, op);
    case Fork(_, _) => ForkAgrees(c, e, op);
    case Resolve(space, page, frame) => ResolveAgrees(c, e, space, page, frame);
    case Store(space, page, value, frame) => StoreGoesThrough(c, e, space, page, value, frame);
    case Unmap(_, _) => RemapAgrees(c, e, op);
    case Protect(_, _, _) => RemapAgrees(c, e, op);
    case _ => OtherAgrees(c, e, op);
  }

  // ---------------------------------------------------------------- runs

  ghost predicate RunAllowed(c: Machine, ops: seq<Op>)
    decreases |ops|
  {
    ops == [] || (Allowed(c, ops[0]) && RunAllowed(Step(c, ops[0]).0, ops[1..]))
  }

  function Run(c: Machine, ops: seq<Op>): Machine
    decreases |ops|
  {
    if ops == [] then c else Run(Step(c, ops[0]).0, ops[1..])
  }

  /** The eager machine following the same operations. */
  function EagerRun(c: Machine, e: Eager, ops: seq<Op>): Eager
    decreases |ops|
  {
    if ops == [] then e
    else
      var r := Step(c, ops[0]);
      EagerRun(r.0, EagerStep(e, ops[0], r.1), ops[1..])
  }

  /** Over every run of allowed operations every writable frame has one mapping, reference counts are exact,
      and each address space sees what it would see if forks copied every page, stores included. */
  lemma {:induction false} LazyForkIsEagerFork(c: Machine, e: Eager, ops: seq<Op>)
    requires Good(c) && Agrees(c, e) && RunAllowed(c, ops)
    ensures Good(Run(c, ops)) && Agrees(Run(c, ops), EagerRun(c, e, ops))
    decreases |ops|
  {
    if ops != [] {
      var (c', o) := Step(c, ops[0]);
      StepAgrees(c, e, ops[0]);
      LazyForkIsEagerFork(c', EagerStep(e, ops[0], o), ops[1..]);
    }
  }

  lemma InitiallyAgrees(memory: map<nat, int>)
    ensures var c := Machine(A.Table(1, 1, [], []), memory); Good(c) && Agrees(c, map[])
  {
  }

  // ---------------------------------------------------------------- writable or executable

  ghost predicate WriteXorExecute(t: A.Table) {
    forall s, p :: MappingAt(t.spaces, s, p).Some? ==>
      !(MappingAt(t.spaces, s, p).value.permissions.write && MappingAt(t.spaces, s, p).value.permissions.execute)
  }

  /** No page was given both write and execute access. */
  ghost predicate GivenApart(e: Eager) {
    forall s, p :: EagerPage(e, s, p).Some? ==>
      !(EagerPage(e, s, p).value.permissions.write && EagerPage(e, s, p).value.permissions.execute)
  }

  lemma StepGivenApart(c: Machine, e: Eager, op: Op)
    requires Good(c) && GivenApart(e)
    ensures GivenApart(EagerStep(e, op, Step(c, op).1))
  {
    hide TableInv, MappingAt, HasSpace, Refs, A.MapNew, A.Map, A.Protect, A.CloneCow, A.Create, A.Destroy, A.Unmap;
    hide A.AllocateFrame, A.ReleaseFrame, Copied, Stored;
    var r := Step(c, op);
    match op {
      case MapNew(space, page, p, _) => MapNewEffect(c.table, space, page, p);
      case Map(space, page, frame, p, _) => MapEffect(c.table, space, page, frame, p);
      case Protect(space, page, p) => ProtectEffect(c.table, space, page, p);
      case _ =>
    }
    var e' := EagerStep(e, op, r.1);
    forall s: nat, p: nat | EagerPage(e', s, p).Some?
      ensures !(EagerPage(e', s, p).value.permissions.write && EagerPage(e', s, p).value.permissions.execute)
    {
      assert op.Fork? && op.parent in e ==> EagerPage(e, op.parent, p) == if p in e[op.parent]
          then Some(e[op.parent][p]) else None;
      assert EagerPage(e, s, p).Some? ==>
          !(EagerPage(e, s, p).value.permissions.write && EagerPage(e, s, p).value.permissions.execute);
    }
  }

  /** Over every run of allowed operations no page is ever both writable and executable, even after faults. */
  lemma {:induction false} RunsKeepWriteXorExecute(c: Machine, e: Eager, ops: seq<Op>)
    requires Good(c) && Agrees(c, e) && GivenApart(e) && RunAllowed(c, ops)
    ensures WriteXorExecute(Run(c, ops).table)
    decreases |ops|
  {
    if ops == [] {
      forall s: nat, p: nat | MappingAt(c.table.spaces, s, p).Some?
        ensures !(MappingAt(c.table.spaces, s, p).value.permissions.write
                && MappingAt(c.table.spaces, s, p).value.permissions.execute)
      {
        assert PageAt(c, s, p) == EagerPage(e, s, p);
      }
    } else {
      StepAgrees(c, e, ops[0]);
      StepGivenApart(c, e, ops[0]);
      var r := Step(c, ops[0]);
      RunsKeepWriteXorExecute(r.0, EagerStep(e, ops[0], r.1), ops[1..]);
    }
  }

  // ---------------------------------------------------------------- the side conditions are needed

  /** Changing the permissions of a page shows what an eager fork would show iff the page is not
      copy-on-write: a fault would later give the write permission back. */
  lemma ProtectAgreesIff(c: Machine, e: Eager, space: nat, page: nat, p: A.Permissions)
    requires TableInv(c.table) && Agrees(c, e) && Step(c, Protect(space, page, p)).1.Done?
    ensures MappingAt(c.table.spaces, space, page).Some?
    ensures var (c', o) := Step(c, Protect(space, page, p));
            Agrees(c', EagerStep(e, Protect(space, page, p), o)) <==> !MappingAt(c.table.spaces, space, page).value.cow
  {
    hide TableInv, MappingAt, HasSpace, Refs, A.Protect;
    ProtectEffect(c.table, space, page, p);
    var (c', o) := Step(c, Protect(space, page, p));
    var e' := EagerStep(e, Protect(space, page, p), o);
    assert PageAt(c, space, page) == EagerPage(e, space, page);
    assert PageAt(c', space, page).value.permissions.write
           == (p.write || MappingAt(c.table.spaces, space, page).value.cow);
    if !MappingAt(c.table.spaces, space, page).value.cow {
      forall s: nat, q: nat ensures PageAt(c', s, q) == EagerPage(e', s, q) {
        assert PageAt(c, s, q) == EagerPage(e, s, q);
      }
    }
  }

  /** Fault resolution adds the write permission without looking at the others: it keeps writable and
      executable apart iff the page was not executable. */
  lemma ResolveWriteXorExecute(t: A.Table, space: nat, page: nat, frame: nat)
    requires TableInv(t) && WriteXorExecute(t) && A.ResolveCowFault(t, space, page, frame).1.Ok?
    ensures MappingAt(t.spaces, space, page).Some?
    ensures WriteXorExecute(A.ResolveCowFault(t, space, page, frame).0) <==>
            !MappingAt(t.spaces, space, page).value.permissions.execute
  {
    hide TableInv, MappingAt, HasSpace, Refs, A.ResolveCowFault;
    ResolveEffect(t, space, page, frame);
    var t' := A.ResolveCowFault(t, space, page, frame).0;
    assert MappingAt(t'.spaces, space, page).value.permissions.write;
  }

  /** The tables of a run from the empty one: a page mapped, forked, made executable and written. */
  function OnePage(generation: nat, m: A.Mapping): A.Space { A.Space(1, 1, generation, [m]) }

  function ForkedTable(m: A.Mapping, generation: nat, child: A.Mapping, frames: seq<A.Frame>): A.Table {
    A.Table(3, |frames| + 1, [OnePage(generation, m), A.Space(2, 2, 1, [child])], frames)
  }

  /** Look-ups in these tables. */
  lemma FirstIndex<T>(s: seq<T>, key: T -> nat)
    requires s != []
    ensures IndexOf(s, key, key(s[0])) == Some(0)
  {
  }

  lemma MappedPage(rw: A.Permissions)
    requires rw == A.Permissions(true, true, false)
    ensures A.MapNew(A.Create(A.Table(1, 1, [], []), 1).0, 1, 5, rw).0
            == A.Table(2, 2, [OnePage(1, A.Mapping(5, 1, rw, false))], [A.Frame(1, 1)])
  {
    var t1 := A.Create(A.Table(1, 1, [], []), 1).0;
    assert t1.spaces == [A.Space(1, 1, 0, [])];
    var t2 := A.AllocateFrame(t1).0;
    assert t2.frames == [A.Frame(1, 0)];
    FirstIndex(t2.spaces, A.SpaceId);
    FirstIndex(t2.frames, A.FrameNumber);
    var m := A.Mapping(5, 1, rw, false);
    assert IndexOf(t2.spaces[0].mappings, A.PageOf, 5).None?;
    assert A.RetainFrame(t2.frames, 1).0 == [A.Frame(1, 1)];
    assert t2.spaces[0 := OnePage(1, m)] == [OnePage(1, m)] && [] + [m] == [m];
  }

  lemma ForkedPage(rw: A.Permissions)
    requires rw == A.Permissions(true, true, false)
    ensures var shared := A.Mapping(5, 1, rw.(write := false), true);
            A.CloneCow(A.Table(2, 2, [OnePage(1, A.Mapping(5, 1, rw, false))], [A.Frame(1, 1)]), 1, 2).0
            == ForkedTable(shared, 2, shared, [A.Frame(1, 2)])
  {
    var m, shared := A.Mapping(5, 1, rw, false), A.Mapping(5, 1, rw.(write := false), true);
    var t := A.Table(2, 2, [OnePage(1, m)], [A.Frame(1, 1)]);
    FirstIndex(t.spaces, A.SpaceId);
    FirstIndex(t.frames, A.FrameNumber);
    var t1 := A.Create(t, 2).0;
    assert t1.spaces == [OnePage(1, m), A.Space(2, 2, 0, [])];
    assert IndexOf(t1.spaces, A.SpaceId, 2) == Some(1) by { assert A.SpaceId(t1.spaces[1]) == 2; }
    assert [m][1..] == [];
    assert A.RetainAll(t1.frames, [m]) == (A.RetainFrame(t1.frames, 1).0, 1, None);
    assert A.RetainFrame(t1.frames, 1).0 == [A.Frame(1, 2)];
    assert A.SharedAll([m]) == [shared] && [shared][..1] == [shared] && [] + [shared] == [shared];
    assert A.CloneCow(t, 1, 2).0.spaces == [OnePage(2, shared), A.Space(2, 2, 1, [shared])];
  }

  lemma ExecutablePage(shared: A.Mapping, rx: A.Permissions, frames: seq<A.Frame>)
    requires shared.page == 5 && shared.cow && rx == A.Permissions(true, false, true)
    ensures A.Protect(ForkedTable(shared, 2, shared, frames), 1, 5, rx).0
            == ForkedTable(shared.(permissions := rx), 3, shared, frames)
  {
    var t := ForkedTable(shared, 2, shared, frames);
    FirstIndex(t.spaces, A.SpaceId);
    FirstIndex(t.spaces[0].mappings, A.PageOf);
    var m := shared.(permissions := rx);
    assert [shared][0 := m] == [m];
    assert t.spaces[0 := OnePage(3, m)] == ForkedTable(m, 3, shared, frames).spaces;
  }

  lemma WrittenPage(m: A.Mapping, child: A.Mapping)
    requires m.page == 5 && m.frame == 1 && m.cow
    ensures MappingAt(A.ResolveCowFault(ForkedTable(m, 3, child, [A.Frame(1, 2), A.Frame(2, 0)]), 1, 5, 2).0.spaces, 1,
            5)
            == Some(A.Mapping(5, 2, m.permissions.(write := true), false))
  {
    var t := ForkedTable(m, 3, child, [A.Frame(1, 2), A.Frame(2, 0)]);
    FirstIndex(t.spaces, A.SpaceId);
    FirstIndex(t.spaces[0].mappings, A.PageOf);
    assert IndexOf(t.frames, A.FrameNumber, 2).Some? by { assert A.FrameNumber(t.frames[1]) == 2; }
    var t' := A.ResolveCowFault(t, 1, 5, 2).0;
    FirstIndex(t'.spaces, A.SpaceId);
    FirstIndex(t'.spaces[0].mappings, A.PageOf);
  }

  /** The first four calls leave a page shared by a fork, and a spare frame. */
  lemma SharedPage(rw: A.Permissions)
    requires rw == A.Permissions(true, true, false)
    ensures var c2 := Step(Step(Machine(A.Table(1, 1, [], []), map[]), Create(1)).0, MapNew(1, 5, rw, 0)).0;
            var shared := A.Mapping(5, 1, rw.(write := false), true);
            Step(Step(c2, Fork(1, 2)).0, Allocate).0.table
            == ForkedTable(shared, 2, shared, [A.Frame(1, 2), A.Frame(2, 0)])
  {
    hide A.MapNew, A.CloneCow;
    MappedPage(rw);
    ForkedPage(rw);
  }

  /** A page both writable and executable arises in a run from the empty table: a forked page may be made
      executable, and the next fault makes it writable. */
  lemma WritableExecutableArises()
    ensures var rw, rx := A.Permissions(true, true, false), A.Permissions(true, false, true);
            var ops := [Create(1), MapNew(1, 5, rw, 0), Fork(1, 2), Allocate, Protect(1, 5, rx), Resolve(1, 5, 2)];
            !WriteXorExecute(Run(Machine(A.Table(1, 1, [], []), map[]), ops).table)
  {
    hide WriteXorExecute, Step, Run, MappingAt;
    var rw, rx := A.Permissions(true, true, false), A.Permissions(true, false, true);
    var ops := [Create(1), MapNew(1, 5, rw, 0), Fork(1, 2), Allocate, Protect(1, 5, rx), Resolve(1, 5, 2)];
    var c0 := Machine(A.Table(1, 1, [], []), map[]);
    var c1 := Step(c0, ops[0]).0;
    var c2 := Step(c1, ops[1]).0;
    var c3 := Step(c2, ops[2]).0;
    var c4 := Step(c3, ops[3]).0;
    SharedPage(rw);
    var c5 := Step(c4, ops[4]).0;
    var c6 := Step(c5, ops[5]).0;
    LastTwo(c4, rw, rx);
    RunAt(c0, ops, 0);
    RunAt(c1, ops, 1);
    RunAt(c2, ops, 2);
    RunAt(c3, ops, 3);
    RunAt(c4, ops, 4);
    RunAt(c5, ops, 5);
    RunEnds(c6);
    assert ops[0..] == ops && ops[6..] == [];
  }

  lemma LastTwo(c: Machine, rw: A.Permissions, rx: A.Permissions)
    requires rw == A.Permissions(true, true, false) && rx == A.Permissions(true, false, true)
    requires var shared := A.Mapping(5, 1, rw.(write := false), true);
             c.table == ForkedTable(shared, 2, shared, [A.Frame(1, 2), A.Frame(2, 0)])
    ensures !WriteXorExecute(Step(Step(c, Protect(1, 5, rx)).0, Resolve(1, 5, 2)).0.table)
  {
    hide WriteXorExecute, A.Protect, A.ResolveCowFault, MappingAt;
    var shared := A.Mapping(5, 1, rw.(write := false), true);
    ExecutablePage(shared, rx, c.table.frames);
    WrittenPage(shared.(permissions := rx), shared);
    BothAtOnce(Step(Step(c, Protect(1, 5, rx)).0, Resolve(1, 5, 2)).0.table, 1, 5);
  }

  lemma BothAtOnce(t: A.Table, s: nat, p: nat)
    requires MappingAt(t.spaces, s, p).Some?
    requires MappingAt(t.spaces, s, p).value.permissions.write && MappingAt(t.spaces, s, p).value.permissions.execute
    ensures !WriteXorExecute(t)
  {
  }

  lemma RunEnds(c: Machine)
    ensures Run(c, []) == c
  {
  }

  lemma RunAt(c: Machine, ops: seq<Op>, i: nat)
    requires i < |ops|
    ensures Run(c, ops[i..]) == Run(Step(c, ops[i]).0, ops[i + 1..])
  {
    hide Step;
    assert ops[i..][1..] == ops[i + 1..];
  }

  /** Mapping a frame the allocator never handed out lets it be handed out later, twice on record. */
  lemma UnallocatedFrameDuplicates()
    ensures var t := A.Table(2, 1, [A.Space(1, 1, 0, [])], []);
            var t1 := A.Map(t, 1, 5, 1, A.Permissions(true, true, false)).0;
            TableInv(t) && TableInv(t1) && !TableInv(A.AllocateFrame(t1).0)
  {
    var space := A.Space(1, 1, 0, []);
    var t := A.Table(2, 1, [space], []);
    forall f ensures Count(t.spaces, f) == 0 {
      SumPush([], MapsFrame(f), space);
      assert [] + [space] == [space];
    }
    MapEffect(t, 1, 5, 1, A.Permissions(true, true, false));
    var t1 := A.Map(t, 1, 5, 1, A.Permissions(true, true, false)).0;
    AllocateEffect(t1);
    assert Recorded(t1.frames, 1);
  }
}
