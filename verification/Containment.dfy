/** The job hierarchy with resource accounting (kernel/src/containment.rs): every reservation is charged
    to its job and all of that job's ancestors. Jobs are kept in creation order and are never removed, so
    the job with identity `n` sits at index `n - 1`. */
module Containment {
  import opened Common

  const MAX_CONTAINMENT_JOBS: nat := 64
  const MAX_CHILDREN_PER_JOB: nat := 16
  const MAX_PROCESSES_PER_JOB: nat := 128

  // ---------------------------------------------------------------- five resources

  datatype Resource = Processes | Threads | Memory | Cpu | Handles

  /** Five 64-bit counters; limits have the same shape. */
  datatype Usage = Usage(processes: nat, threads: nat, memory: nat, cpu: nat, handles: nat) {
    function Of(k: Resource): nat {
      match k
      case Processes => processes
      case Threads => threads
      case Memory => memory
      case Cpu => cpu
      case Handles => handles
    }
  }

  const ZERO := Usage(0, 0, 0, 0, 0)

  function Plus(a: Usage, b: Usage): Usage {
    Usage(a.processes + b.processes, a.threads + b.threads, a.memory + b.memory, a.cpu + b.cpu, a.handles + b.handles)
  }

  /** `allows` and `no_relaxation`: no component is larger. */
  predicate Within(a: Usage, b: Usage) {
    && a.processes <= b.processes && a.threads <= b.threads && a.memory <= b.memory
    && a.cpu <= b.cpu && a.handles <= b.handles
  }

  predicate Fits(u: Usage) {
    && u.processes <= U64_MAX && u.threads <= U64_MAX && u.memory <= U64_MAX && u.cpu <= U64_MAX
    && u.handles <= U64_MAX
  }

  /** Componentwise `saturating_sub`. */
  function Excess(a: Usage, b: Usage): Usage {
    Usage(SatSub(a.processes, b.processes), SatSub(a.threads, b.threads), SatSub(a.memory, b.memory),
          SatSub(a.cpu, b.cpu), SatSub(a.handles, b.handles))
  }

  function CheckedAdd(a: Usage, b: Usage): Option<Usage> {
    if Fits(Plus(a, b)) then Some(Plus(a, b)) else None
  }

  function CheckedSub(a: Usage, b: Usage): Option<Usage> {
    if Within(b, a) then Some(Excess(a, b)) else None
  }

  lemma WithinPointwise(a: Usage, b: Usage)
    ensures Within(a, b) <==> forall k :: a.Of(k) <= b.Of(k)
  {
    if forall k :: a.Of(k) <= b.Of(k) {
      assert a.Of(Processes) <= b.Of(Processes) && a.Of(Threads) <= b.Of(Threads) && a.Of(Memory) <= b.Of(Memory);
      assert a.Of(Cpu) <= b.Of(Cpu) && a.Of(Handles) <= b.Of(Handles);
    }
  }

  lemma EqualPointwise(a: Usage, b: Usage)
    requires forall k :: a.Of(k) == b.Of(k)
    ensures a == b
  {
    WithinPointwise(a, b);
    WithinPointwise(b, a);
  }

  // ---------------------------------------------------------------- the tree

  datatype Reservation = Reservation(process: nat, usage: Usage)

  function ProcessOf(r: Reservation): nat { r.process }

  datatype Job = Job(id: nat, parent: Option<nat>, limits: Usage, usage: Usage, children: seq<nat>,
                     processes: seq<Reservation>, retired: bool)

  datatype Tree = Tree(nextJob: nat, jobs: seq<Job>)

  datatype Error =
    | JobLimit | ChildLimit | ProcessLimit | InvalidJob | InvalidProcess | DuplicateProcess | Retired | Root
    | LimitExceeded | LimitRelaxation | UsageOverflow | UsageUnderflow | ProcessNotFound

  /** Identities are positions and parents come before their children. */
  predicate Ordered(jobs: seq<Job>) {
    forall i :: 0 <= i < |jobs| ==>
      jobs[i].id == i + 1 && (jobs[i].parent.Some? ==> 1 <= jobs[i].parent.value <= i)
  }

  /** `job_index`. */
  function Find(jobs: seq<Job>, id: nat): Option<nat> {
    if 1 <= id <= |jobs| then Some(id - 1) else None
  }

  /** Whether job `i` is `j` or one of its ancestors. */
  predicate InChain(jobs: seq<Job>, i: nat, j: nat)
    requires Ordered(jobs) && j < |jobs|
    decreases j
  {
    i == j || (jobs[j].parent.Some? && InChain(jobs, i, jobs[j].parent.value - 1))
  }

  /** `check_chain_capacity`: the refusal of the first job on the way up that cannot take `d`. */
  function ChainCapacity(jobs: seq<Job>, i: nat, d: Usage): Option<Error>
    requires Ordered(jobs) && i < |jobs|
    decreases i
  {
    var job := jobs[i];
    if job.retired then Some(Retired)
    else if CheckedAdd(job.usage, d).None? then Some(UsageOverflow)
    else if !Within(Plus(job.usage, d), job.limits) then Some(LimitExceeded)
    else if job.parent.None? then None
    else ChainCapacity(jobs, job.parent.value - 1, d)
  }

  /** The two forests differ in usage counters only. */
  predicate OnlyUsage(jobs: seq<Job>, jobs': seq<Job>) {
    |jobs'| == |jobs| && forall x :: 0 <= x < |jobs| ==> jobs'[x] == jobs[x].(usage := jobs'[x].usage)
  }

  function Changed(u: Usage, d: Usage, add: bool): Option<Usage> {
    if add then CheckedAdd(u, d) else CheckedSub(u, d)
  }

  /** `apply_chain_delta`: on failure the jobs below the failing one have already changed. */
  function ApplyChain(jobs: seq<Job>, i: nat, d: Usage, add: bool): (r: (seq<Job>, Option<Error>))
    requires Ordered(jobs) && i < |jobs|
    ensures OnlyUsage(jobs, r.0)
    decreases i
  {
    match Changed(jobs[i].usage, d, add)
    case None => (jobs, Some(if add then UsageOverflow else UsageUnderflow))
    case Some(u) =>
      var jobs1 := jobs[i := jobs[i].(usage := u)];
      if jobs[i].parent.None? then (jobs1, None) else ApplyChain(jobs1, jobs[i].parent.value - 1, d, add)
  }

  // ---------------------------------------------------------------- operations

  function CreateNode(t: Tree, parent: Option<nat>, limits: Usage): (Tree, Result<nat, Error>) {
    if |t.jobs| >= MAX_CONTAINMENT_JOBS || t.nextJob == 0 || t.nextJob == U64_MAX then (t, Err(JobLimit))
    else (Tree(t.nextJob + 1, t.jobs + [Job(t.nextJob, parent, limits, ZERO, [], [], false)]), Ok(t.nextJob))
  }

  function CreateRoot(t: Tree, limits: Usage): (Tree, Result<nat, Error>) {
    if t.jobs != [] then (t, Err(JobLimit)) else CreateNode(t, None, limits)
  }

  function CreateChild(t: Tree, parent: nat, limits: Usage): (Tree, Result<nat, Error>) {
    match Find(t.jobs, parent)
    case None => (t, Err(InvalidJob))
    case Some(p) =>
      if t.jobs[p].retired then (t, Err(Retired))
      else if |t.jobs[p].children| >= MAX_CHILDREN_PER_JOB then (t, Err(ChildLimit))
      else
        var (t1, r) := CreateNode(t, Some(parent), limits);
        if r.Err? then (t1, r)
        else (t1.(jobs := t1.jobs[p := t1.jobs[p].(children := t1.jobs[p].children + [r.value])]), r)
  }

  function SetLimits(t: Tree, job: nat, limits: Usage): (Tree, Result<(), Error>) {
    match Find(t.jobs, job)
    case None => (t, Err(InvalidJob))
    case Some(i) =>
      if t.jobs[i].retired then (t, Err(Retired))
      else if !Within(limits, t.jobs[i].limits) then (t, Err(LimitRelaxation))
      else if !Within(t.jobs[i].usage, limits) then (t, Err(LimitExceeded))
      else (t.(jobs := t.jobs[i := t.jobs[i].(limits := limits)]), Ok(()))
  }

  predicate Holds(job: Job, process: nat) {
    IndexOf(job.processes, ProcessOf, process).Some?
  }

  predicate Reserved(jobs: seq<Job>, process: nat) {
    exists i :: 0 <= i < |jobs| && Holds(jobs[i], process)
  }

  function Outcome<T>(t: Tree, jobs: seq<Job>, failed: Option<Error>, value: T): (Tree, Result<T, Error>) {
    (t.(jobs := jobs), if failed.Some? then Err(failed.value) else Ok(value))
  }

  function AdmitProcess(t: Tree, job: nat, process: nat, usage: Usage): (Tree, Result<(), Error>)
    requires Ordered(t.jobs)
  {
    if process == 0 || usage.processes != 1 then (t, Err(InvalidProcess))
    else
      match Find(t.jobs, job)
      case None => (t, Err(InvalidJob))
      case Some(i) =>
        if t.jobs[i].retired then (t, Err(Retired))
        else if Reserved(t.jobs, process) then (t, Err(DuplicateProcess))
        else if |t.jobs[i].processes| >= MAX_PROCESSES_PER_JOB then (t, Err(ProcessLimit))
        else
          var refused := ChainCapacity(t.jobs, i, usage);
          if refused.Some? then (t, Err(refused.value))
          else
            var (jobs, failed) := ApplyChain(t.jobs, i, usage, true);
            if failed.Some? then Outcome(t, jobs, failed, ())
            else
              (t.(jobs := jobs[i := jobs[i].(processes := jobs[i].processes + [Reservation(process, usage)])]), Ok(()))
  }

  /** The condition under which `set_process_usage` runs its charging phase. */
  predicate SomeAtLeast(a: Usage, b: Usage) {
    a.memory >= b.memory || a.threads >= b.threads || a.cpu >= b.cpu || a.handles >= b.handles
  }

  function SetProcessUsage(t: Tree, job: nat, process: nat, usage: Usage): (Tree, Result<(), Error>)
    requires Ordered(t.jobs)
  {
    match Find(t.jobs, job)
    case None => (t, Err(InvalidJob))
    case Some(i) =>
      match IndexOf(t.jobs[i].processes, ProcessOf, process)
      case None => (t, Err(ProcessNotFound))
      case Some(a) =>
        var current := t.jobs[i].processes[a].usage;
        if usage.processes == 0 || usage.processes != current.processes then (t, Err(InvalidProcess))
        else
          var more := Excess(usage, current);
          var charging := SomeAtLeast(usage, current);
          var refused := if charging then ChainCapacity(t.jobs, i, more) else None;
          if refused.Some? then (t, Err(refused.value))
          else
            var (jobs1, failed1) := if charging then ApplyChain(t.jobs, i, more, true) else (t.jobs, None);
            if failed1.Some? then Outcome(t, jobs1, failed1, ())
            else
              var (jobs2, failed2) := ApplyChain(jobs1, i, Excess(current, usage), false);
              if failed2.Some? then Outcome(t, jobs2, failed2, ())
              else
                var rs := jobs2[i].processes[a := Reservation(process, usage)];
                (t.(jobs := jobs2[i := jobs2[i].(processes := rs)]), Ok(()))
  }

  function ReleaseProcess(t: Tree, job: nat, process: nat): (Tree, Result<Usage, Error>)
    requires Ordered(t.jobs)
  {
    match Find(t.jobs, job)
    case None => (t, Err(InvalidJob))
    case Some(i) =>
      match IndexOf(t.jobs[i].processes, ProcessOf, process)
      case None => (t, Err(ProcessNotFound))
      case Some(a) =>
        var usage := t.jobs[i].processes[a].usage;
        var (jobs, failed) := ApplyChain(t.jobs[i := t.jobs[i].(processes := SwapRemove(t.jobs[i].processes, a))], i,
            usage, false);
        Outcome(t, jobs, failed, usage)
  }

  /** What `terminate_subtree` of job `r` leaves of job `i`: descendants are emptied and retired, proper
      ancestors lose exactly the subtree's usage, and the parent loses its link. */
  function Terminated(jobs: seq<Job>, r: nat, i: nat): Job
    requires Ordered(jobs) && r < |jobs| && i < |jobs|
  {
    var job := jobs[i];
    if InChain(jobs, r, i) then Job(job.id, None, job.limits, ZERO, [], [], true)
    else if InChain(jobs, i, r) then
      job.(usage := Excess(job.usage, jobs[r].usage),
           children := if jobs[r].parent == Some(job.id) then Without(job.children, jobs[r].id) else job.children)
    else job
  }

  function TerminatedForest(jobs: seq<Job>, r: nat): seq<Job>
    requires Ordered(jobs) && r < |jobs|
  {
    seq(|jobs|, i requires 0 <= i < |jobs| => Terminated(jobs, r, i))
  }

  /** The number of reservations held by the descendants of `r` among the first `n` jobs. */
  function Population(jobs: seq<Job>, r: nat, n: nat): nat
    requires Ordered(jobs) && r < |jobs| && n <= |jobs|
  {
    if n == 0 then 0 else Population(jobs, r, n - 1) + if InChain(jobs, r, n - 1) then |jobs[n - 1].processes| else 0
  }

  function TerminateSubtree(t: Tree, root: nat): (Tree, Result<nat, Error>)
    requires Ordered(t.jobs)
  {
    match Find(t.jobs, root)
    case None => (t, Err(InvalidJob))
    case Some(r) =>
      if t.jobs[r].parent.None? then (t, Err(Root))
      else if t.jobs[r].retired then (t, Err(Retired))
      else
        (t.(jobs := TerminatedForest(t.jobs, r)), Ok(Population(t.jobs, r, |t.jobs|)))
  }
}
