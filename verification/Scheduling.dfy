/** Affinity-aware per-CPU queues (kernel/src/scheduling.rs, `SmpRoundRobin`), as values.

    A CPU mask is the set of the bit numbers it holds. `Where` is the reference view of the
    scheduler: for each thread the single place it is in. Every operation is described by
    how it moves threads between places. */
module Scheduling {
  import opened Common
  import opened RoundRobin

  const MAX_CPUS: nat := 64

  datatype AssignmentState = Runnable | Blocked

  datatype Assignment = Assignment(thread: nat, affinity: set<nat>, cpu: nat, state: AssignmentState)

  datatype SmpError =
    | InvalidCpuCount | InvalidQuantum | InvalidCpu | EmptyAffinity | AffinityOutsideTopology
    | DuplicateThread | Capacity | UnknownThread | AffinityViolation | AlreadyRunnable
    | NotRunnable | QueueStateMismatch

  datatype Placement = Placement(thread: nat, cpu: nat, migrated: bool)
  datatype Admission = Admission(placement: Placement, switch: Option<Switch>)
  datatype Transition = Transition(thread: nat, cpu: nat, switch: Option<Switch>)
  datatype Migration = Migration(
    placement: Placement, sourceWasCurrent: bool, sourceSwitch: Option<Switch>, destinationSwitch: Option<Switch>)

  datatype Smp = Smp(queues: seq<Queue>, assignments: seq<Assignment>, online: set<nat>)

  function ThreadOf(a: Assignment): nat { a.thread }

  function Assigned(s: Smp, t: nat): Option<Assignment> {
    Lookup(s.assignments, ThreadOf, t)
  }

  /** Vector indices the code uses without a check are in range. */
  predicate Shaped(s: Smp) {
    forall i :: 0 <= i < |s.assignments| ==> s.assignments[i].cpu < |s.queues|
  }

  lemma ShapedAt(s: Smp, i: nat)
    requires Shaped(s) && i < |s.assignments|
    ensures s.assignments[i].cpu < |s.queues|
  {
  }

  // ---------------------------------------------------------------- operations

  function WithOnlineMask(capacity: nat, quantum: nat, online: set<nat>): Result<Smp, SmpError> {
    if capacity == 0 || capacity > MAX_CPUS then Err(InvalidCpuCount)
    else if online == {} || !(forall c :: c in online ==> c < capacity) then Err(InvalidCpu)
    else if quantum == 0 then Err(InvalidQuantum)
    else Ok(Smp(seq(capacity, _ => Queue(quantum, 0, None, [], 0, 0, 0)), [], online))
  }

  function OnlineCpu(s: Smp, c: nat): (Smp, Result<bool, SmpError>) {
    if c >= |s.queues| then (s, Err(InvalidCpu))
    else if c in s.online then (s, Ok(false))
    else (s.(online := s.online + {c}), Ok(true))
  }

  function ValidateAffinity(s: Smp, affinity: set<nat>): Option<SmpError> {
    if affinity == {} then Some(EmptyAffinity)
    else if !(affinity <= s.online) then Some(AffinityOutsideTopology)
    else None
  }

  function ValidateAdmission(s: Smp, affinity: set<nat>): Option<SmpError> {
    var e := ValidateAffinity(s, affinity);
    if e.Some? then e
    else if |s.assignments| >= MAX_RUNNABLE_THREADS then Some(Capacity)
    else None
  }

  function CpuLoad(s: Smp, c: nat): Result<nat, SmpError> {
    if c !in s.online || c >= |s.queues| then Err(InvalidCpu) else Ok(Load(s.queues[c]))
  }

  function QueueCanAccept(s: Smp, c: nat): Result<bool, SmpError> {
    if c !in s.online || c >= |s.queues| then Err(InvalidCpu)
    else Ok(s.queues[c].current.None? || |s.queues[c].runnable| < MAX_RUNNABLE_THREADS)
  }

  /** The scan of `least_loaded_cpu` from CPU `raw` on, `best` being the choice so far. */
  function LeastLoadedFrom(s: Smp, affinity: set<nat>, raw: nat, best: Option<nat>): (r: Result<nat, SmpError>)
    requires raw <= |s.queues|
    requires best.Some? ==> best.value < raw
    ensures r.Ok? ==> r.value < |s.queues|
    decreases |s.queues| - raw
  {
    if raw == |s.queues| then
      if best.Some? then Ok(best.value) else Err(EmptyAffinity)
      else if raw !in affinity then LeastLoadedFrom(s, affinity, raw + 1, best)
    else if raw !in s.online then Err(InvalidCpu)
    else
      var better := best.None? || Load(s.queues[raw]) < Load(s.queues[best.value]);
      LeastLoadedFrom(s, affinity, raw + 1, if better then Some(raw) else best)
  }

  function LeastLoaded(s: Smp, affinity: set<nat>): (r: Result<nat, SmpError>)
    ensures r.Ok? ==> r.value < |s.queues|
  {
    LeastLoadedFrom(s, affinity, 0, None)
  }

  function Admit(s: Smp, t: nat, affinity: set<nat>): (Smp, Result<Admission, SmpError>) {
    var bad := ValidateAffinity(s, affinity);
    if bad.Some? then (s, Err(bad.value))
    else if Assigned(s, t).Some? then (s, Err(DuplicateThread))
    else if |s.assignments| >= MAX_RUNNABLE_THREADS then (s, Err(Capacity))
    else
      match LeastLoaded(s, affinity)
      case Err(e) => (s, Err(e))
      case Ok(c) =>
        var (q, r) := Enqueue(s.queues[c], t);
        if r.Err? then (s, Err(Capacity))
        else
          (s.(queues := s.queues[c := q], assignments := s.assignments + [Assignment(t, affinity, c, Runnable)]),
           Ok(Admission(Placement(t, c, false), r.value)))
  }

  /** Move a queued or running thread between two CPUs' queues; its assignment is the caller's. */
  function MoveRunnable(s: Smp, t: nat, from: nat, to: nat)
    : (r: (Smp, Result<(bool, Option<Switch>, Option<Switch>), SmpError>))
    requires from < |s.queues|
    ensures |r.0.queues| == |s.queues| && r.0.assignments == s.assignments && r.0.online == s.online
  {
    match QueueCanAccept(s, to)
    case Err(e) => (s, Err(e))
    case Ok(false) => (s, Err(Capacity))
    case Ok(true) =>
      var wasCurrent := s.queues[from].current == Some(t);
      var (q, r) := Remove(s.queues[from], t);
      if r.Err? then (s, Err(QueueStateMismatch))
      else
        var s1 := s.(queues := s.queues[from := q]);
        var (q2, r2) := Enqueue(s1.queues[to], t);
        if r2.Err? then (s1, Err(QueueStateMismatch))
        else (s1.(queues := s1.queues[to := q2]), Ok((wasCurrent, r.value, r2.value)))
  }

  function SetAffinity(s: Smp, t: nat, affinity: set<nat>): (r: (Smp, Result<Migration, SmpError>))
    requires Shaped(s)
    ensures Shaped(r.0)
  {
    var bad := ValidateAffinity(s, affinity);
    if bad.Some? then (s, Err(bad.value))
    else
      match IndexOf(s.assignments, ThreadOf, t)
      case None => (s, Err(UnknownThread))
      case Some(i) =>
        var a := s.assignments[i];
          if a.cpu in affinity then
          (s.(assignments := s.assignments[i := a.(affinity := affinity)]),
           Ok(Migration(Placement(t, a.cpu, false), false, None, None)))
        else
          match LeastLoaded(s, affinity)
          case Err(e) => (s, Err(e))
          case Ok(to) =>
            var (s1, r) := if a.state.Runnable? then MoveRunnable(s, t, a.cpu, to) else (s, Ok((false, None, None)));
            if r.Err? then (s1, Err(r.error))
            else
              (s1.(assignments := s1.assignments[i := a.(affinity := affinity, cpu := to)]),
               Ok(Migration(Placement(t, to, true), r.value.0, r.value.1, r.value.2)))
  }

  function Migrate(s: Smp, t: nat, to: nat): (Smp, Result<Migration, SmpError>)
    requires Shaped(s)
  {
    if to !in s.online then (s, Err(InvalidCpu))
    else
      match IndexOf(s.assignments, ThreadOf, t)
      case None => (s, Err(UnknownThread))
      case Some(i) =>
        var a := s.assignments[i];
          if to !in a.affinity then (s, Err(AffinityViolation))
          else if a.cpu == to then (s, Ok(Migration(Placement(t, to, false), false, None, None)))
        else
          var (s1, r) := if a.state.Runnable? then MoveRunnable(s, t, a.cpu, to) else (s, Ok((false, None, None)));
          if r.Err? then (s1, Err(r.error))
          else
            (s1.(assignments := s1.assignments[i := a.(cpu := to)]),
             Ok(Migration(Placement(t, to, true), r.value.0, r.value.1, r.value.2)))
  }

  function TickCpu(s: Smp, c: nat): (Smp, Result<Option<Switch>, SmpError>) {
    if c !in s.online || c >= |s.queues| then (s, Err(InvalidCpu))
    else
      var (q, sw) := Tick(s.queues[c]);
      (s.(queues := s.queues[c := q]), Ok(sw))
  }

  function YieldCpu(s: Smp, c: nat): (Smp, Result<Option<Switch>, SmpError>) {
    if c !in s.online || c >= |s.queues| then (s, Err(InvalidCpu))
    else
      var (q, sw) := YieldCurrent(s.queues[c]);
      (s.(queues := s.queues[c := q]), Ok(sw))
  }

  function Block(s: Smp, t: nat): (r: (Smp, Result<Transition, SmpError>))
    requires Shaped(s)
    ensures Shaped(r.0)
  {
    match IndexOf(s.assignments, ThreadOf, t)
    case None => (s, Err(UnknownThread))
    case Some(i) =>
      var a := s.assignments[i];
      if a.state.Blocked? then (s, Err(NotRunnable))
      else
        var (q, r) := Remove(s.queues[a.cpu], t);
        if r.Err? then (s, Err(QueueStateMismatch))
        else
          (s.(queues := s.queues[a.cpu := q], assignments := s.assignments[i := a.(state := Blocked)]),
           Ok(Transition(t, a.cpu, r.value)))
  }

  /** A woken thread returns to its previous CPU unless another allowed CPU is shorter by two. */
  function WakeTarget(s: Smp, a: Assignment): Result<nat, SmpError> {
    match LeastLoaded(s, a.affinity)
    case Err(e) => Err(e)
    case Ok(least) =>
      match CpuLoad(s, a.cpu)
      case Err(e) => Err(e)
      case Ok(previousLoad) =>
        match CpuLoad(s, least)
        case Err(e) => Err(e)
        case Ok(leastLoad) =>
          Ok(if a.cpu in a.affinity && previousLoad <= leastLoad + 1 then a.cpu else least)
  }

  function Wake(s: Smp, t: nat): (r: (Smp, Result<Admission, SmpError>))
    requires Shaped(s)
    ensures Shaped(r.0)
  {
    match IndexOf(s.assignments, ThreadOf, t)
    case None => (s, Err(UnknownThread))
    case Some(i) =>
      var a := s.assignments[i];
      if a.state.Runnable? then (s, Err(AlreadyRunnable))
      else
        match WakeTarget(s, a)
        case Err(e) => (s, Err(e))
        case Ok(to) =>
          match QueueCanAccept(s, to)
          case Err(e) => (s, Err(e))
          case Ok(false) => (s, Err(Capacity))
          case Ok(true) =>
            var (q, r) := Enqueue(s.queues[to], t);
            if r.Err? then (s, Err(if r.error.NoRoom? then Capacity else QueueStateMismatch))
            else
              (s.(queues := s.queues[to := q], assignments := s.assignments[i := a.(cpu := to, state := Runnable)]),
               Ok(Admission(Placement(t, to, to != a.cpu), r.value)))
  }

  function Discharge(s: Smp, t: nat): (r: (Smp, Result<Transition, SmpError>))
    requires Shaped(s)
    ensures Shaped(r.0)
  {
    match IndexOf(s.assignments, ThreadOf, t)
    case None => (s, Err(UnknownThread))
    case Some(i) =>
      var a := s.assignments[i];
      var (q, r) := if a.state.Runnable? then Remove(s.queues[a.cpu], t) else (s.queues[a.cpu], Ok(None));
      if r.Err? then (s, Err(QueueStateMismatch))
      else
        (s.(queues := s.queues[a.cpu := q], assignments := RemoveAt(s.assignments, i)),
         Ok(Transition(t, a.cpu, r.value)))
  }

  // ---------------------------------------------------------------- invariant

  /** The single place a thread is in. */
  datatype Place = Absent | Parked(cpu: nat) | Queued(cpu: nat) | OnCpu(cpu: nat)

  function Where(s: Smp, t: nat): Place {
    match Assigned(s, t)
    case None => Absent
    case Some(a) =>
      if a.state.Blocked? then Parked(a.cpu)
      else if a.cpu < |s.queues| && s.queues[a.cpu].current == Some(t) then OnCpu(a.cpu)
      else Queued(a.cpu)
  }

  predicate StandsOn(a: Option<Assignment>, c: nat) {
    a.Some? && a.value.cpu == c && a.value.state.Runnable?
  }

  ghost predicate AssignmentOk(s: Smp, a: Assignment) {
    a.cpu in a.affinity && a.affinity <= s.online
  }

  ghost predicate Topology(s: Smp) {
    && 0 < |s.queues| <= MAX_CPUS
    && s.online != {}
    && forall c :: c in s.online ==> c < |s.queues|
  }

  /** Threads stand in line exactly where their assignment says: nowhere if blocked. */
  ghost predicate Filed(s: Smp) {
    forall c, t {:trigger t in Line(s.queues[c])} :: 0 <= c < |s.queues| ==>
      (t in Line(s.queues[c]) <==> StandsOn(Assigned(s, t), c))
  }

  ghost predicate SmpInv(s: Smp) {
    && Topology(s)
    && (forall c :: 0 <= c < |s.queues| ==> QueueOk(s.queues[c]))
    && Unique(s.assignments, ThreadOf)
    && |s.assignments| <= MAX_RUNNABLE_THREADS
    && (forall t {:trigger Assigned(s, t)} :: Assigned(s, t).Some? ==> AssignmentOk(s, Assigned(s, t).value))
    && Filed(s)
  }

  lemma InvShaped(s: Smp)
    requires SmpInv(s)
    ensures Shaped(s)
  {
    forall i | 0 <= i < |s.assignments| ensures s.assignments[i].cpu < |s.queues| {
      UniqueIndex(s.assignments, ThreadOf, i);
      assert Assigned(s, s.assignments[i].thread).Some?;
    }
  }
}
