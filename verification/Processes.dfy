/** Process and thread lifecycle (kernel/src/process_model.rs, `ProcessTable`), as values. */
module Processes {
  import opened Common

  const MAX_PROCESSES: nat := 128
  const MAX_THREADS: nat := 256
  const MAX_THREADS_PER_PROCESS: nat := 16
  const MAX_CHILDREN_PER_PROCESS: nat := 16

  datatype ThreadState = Runnable | Running | Blocked | Sleeping | Stopped | Exited
  datatype ProcessState = Created | Running | Exited

  datatype ThreadExit = ThreadExit(thread: nat, process: nat, status: nat)
  datatype ProcessExit = ProcessExit(process: nat, status: nat)

  datatype Thread = Thread(
    id: nat, owner: nat, name: string, state: ThreadState, resume: Option<ThreadState>,
    detached: bool, exit: Option<ThreadExit>)

  datatype Process = Process(
    id: nat, parent: Option<nat>, state: ProcessState, threads: seq<Thread>,
    children: seq<nat>, exit: Option<ProcessExit>)

  datatype Table = Table(nextProcess: nat, nextThread: nat, processes: seq<Process>, threadCount: nat)

  datatype CreateError =
    | ProcessLimitReached | ThreadLimitReached | DuplicateThread | InvalidProcess
    | ProcessExited | ThreadLimitPerProcessReached | ChildLimitReached
  datatype StateError = InvalidThread | InvalidTransition
  datatype JoinError = NoSuchThread | NotExited | Detached
  datatype ReapError = NoSuchProcess | StillRunning | HasThreads | HasChildren

  function Pid(p: Process): nat { p.id }
  function Tid(t: Thread): nat { t.id }

  const EMPTY_TABLE: Table := Table(1, 1, [], 0)

  // ---------------------------------------------------------------- searching

  function ProcessAt(ps: seq<Process>, p: nat): Option<Process> {
    Lookup(ps, Pid, p)
  }

  /** The index of the first process that holds thread `t`. */
  function Holder(ps: seq<Process>, t: nat): (r: Option<nat>)
    ensures r.Some? ==> r.value < |ps| && IndexOf(ps[r.value].threads, Tid, t).Some?
                        && forall j :: 0 <= j < r.value ==> IndexOf(ps[j].threads, Tid, t).None?
    ensures r.None? ==> forall j :: 0 <= j < |ps| ==> IndexOf(ps[j].threads, Tid, t).None?
  {
    HolderFrom(ps, t, 0)
  }

  function HolderFrom(ps: seq<Process>, t: nat, i: nat): (r: Option<nat>)
    requires i <= |ps|
    ensures r.Some? ==> i <= r.value < |ps| && IndexOf(ps[r.value].threads, Tid, t).Some?
                        && forall j :: i <= j < r.value ==> IndexOf(ps[j].threads, Tid, t).None?
    ensures r.None? ==> forall j :: i <= j < |ps| ==> IndexOf(ps[j].threads, Tid, t).None?
    decreases |ps| - i
  {
    if i == |ps| then None
    else if IndexOf(ps[i].threads, Tid, t).Some? then Some(i)
    else HolderFrom(ps, t, i + 1)
  }

  function ThreadAt(ps: seq<Process>, t: nat): Option<Thread> {
    match Holder(ps, t)
    case None => None
    case Some(h) => Lookup(ps[h].threads, Tid, t)
  }

  /** Overwrite thread `t` in place. */
  function SetThread(ps: seq<Process>, t: nat, th: Thread): seq<Process>
    requires ThreadAt(ps, t).Some?
  {
    var h := Holder(ps, t).value;
    var j := IndexOf(ps[h].threads, Tid, t).value;
    ps[h := ps[h].(threads := ps[h].threads[j := th])]
  }

  // ---------------------------------------------------------------- creation

  function CreateProcess(tb: Table, parent: Option<nat>): (Table, Result<nat, CreateError>) {
    var ps := tb.processes;
    if |ps| >= MAX_PROCESSES then (tb, Err(ProcessLimitReached))
    else if parent.Some? && ProcessAt(ps, parent.value).None? then (tb, Err(InvalidProcess))
    else if parent.Some? && ProcessAt(ps, parent.value).value.state.Exited? then (tb, Err(ProcessExited))
    else if parent.Some? && |ProcessAt(ps, parent.value).value.children| >= MAX_CHILDREN_PER_PROCESS then
      (tb, Err(ChildLimitReached))
    else
      var id := tb.nextProcess;
      (tb.(nextProcess := SatInc(id), processes := AddProcess(ps, id, parent)), Ok(id))
  }

  function AddProcess(ps: seq<Process>, id: nat, parent: Option<nat>): seq<Process>
    requires parent.Some? ==> ProcessAt(ps, parent.value).Some?
  {
    var pr := Process(id, parent, Created, [], [], None);
    if parent.None? then ps + [pr] else StillThere(ps, pr, parent.value); AddChild(ps + [pr], parent.value, id)
  }

  /** The parent's look-up cannot fail after the check of `create_process`, though a process was pushed since. */
  lemma StillThere(ps: seq<Process>, pr: Process, p: nat)
    requires ProcessAt(ps, p).Some?
    ensures ProcessAt(ps + [pr], p).Some?
  {
    assert Pid((ps + [pr])[IndexOf(ps, Pid, p).value]) == p;
  }

  function AddChild(ps: seq<Process>, p: nat, id: nat): seq<Process>
    requires ProcessAt(ps, p).Some?
  {
    var i := IndexOf(ps, Pid, p).value;
    ps[i := ps[i].(children := ps[i].children + [id])]
  }

  function ValidateThreadCreation(tb: Table, p: nat): Option<CreateError> {
    if tb.threadCount >= MAX_THREADS then Some(ThreadLimitReached)
    else
      match ProcessAt(tb.processes, p)
      case None => Some(InvalidProcess)
      case Some(pr) =>
        if pr.state.Exited? then Some(ProcessExited)
        else if |pr.threads| >= MAX_THREADS_PER_PROCESS then Some(ThreadLimitPerProcessReached)
        else None
  }

  /** The search of `allocate_thread_id` from `raw` on: the first unused identity. */
  function FreeThreadId(ps: seq<Process>, raw: nat): Option<nat>
    decreases U64_MAX - raw
  {
    if raw >= U64_MAX then None
    else if ThreadAt(ps, raw).None? then Some(raw)
    else FreeThreadId(ps, raw + 1)
  }

  function NewThread(p: nat, t: nat, name: string): Thread {
    Thread(t, p, name, Runnable, None, false, None)
  }

  function InsertThread(tb: Table, p: nat, t: nat, name: string): Table
    requires ProcessAt(tb.processes, p).Some?
  {
    var i := IndexOf(tb.processes, Pid, p).value;
    var pr := tb.processes[i];
    tb.(processes := tb.processes[i := pr.(threads := pr.threads + [NewThread(p, t, name)],
        state := ProcessState.Running)],
        threadCount := tb.threadCount + 1)
  }

  function CreateThread(tb: Table, p: nat, name: string): (Table, Result<nat, CreateError>) {
    var bad := ValidateThreadCreation(tb, p);
    if bad.Some? then (tb, Err(bad.value))
    else
      match FreeThreadId(tb.processes, tb.nextThread)
      case None => (tb, Err(ThreadLimitReached))
      case Some(t) => (InsertThread(tb, p, t, name).(nextThread := t + 1), Ok(t))
  }

  function CreateThreadWithId(tb: Table, p: nat, t: nat, name: string): (Table, Result<nat, CreateError>) {
    var bad := ValidateThreadCreation(tb, p);
    if bad.Some? then (tb, Err(bad.value))
    else if ThreadAt(tb.processes, t).Some? then (tb, Err(DuplicateThread))
    else (InsertThread(tb, p, t, name), Ok(t))
  }


  function RollbackThread(tb: Table, t: nat): (Table, Result<(), StateError>) {
    match ThreadAt(tb.processes, t)
    case None => (tb, Err(InvalidThread))
    case Some(th) =>
      if !th.state.Runnable? || th.detached || th.exit.Some? then (tb, Err(InvalidTransition))
      else
        match IndexOf(tb.processes, Pid, th.owner)
        case None => (tb, Err(InvalidThread))
        case Some(i) =>
          var pr := tb.processes[i];
          match IndexOf(pr.threads, Tid, t)
          case None => (tb, Err(InvalidThread))
          case Some(j) =>
            var threads := RemoveAt(pr.threads, j);
            var pr' := pr.(threads := threads, state := if threads == [] then Created else pr.state);
            (tb.(processes := tb.processes[i := pr'], threadCount := SatSub(tb.threadCount, 1)), Ok(()))
  }

  /** Drop process number `i` and its edge from the parent. */
  function DropProcess(ps: seq<Process>, i: nat): seq<Process>
    requires i < |ps|
  {
    var ps1 := RemoveAt(ps, i);
    if ps[i].parent.None? then ps1 else DropChild(ps1, ps[i].parent.value, ps[i].id)
  }

  function DropChild(ps: seq<Process>, p: nat, id: nat): seq<Process> {
    match IndexOf(ps, Pid, p)
    case None => ps
    case Some(i) => ps[i := ps[i].(children := Without(ps[i].children, id))]
  }

  function RollbackProcess(tb: Table, p: nat): (Table, Result<(), StateError>) {
    match IndexOf(tb.processes, Pid, p)
    case None => (tb, Err(InvalidThread))
    case Some(i) =>
      var pr := tb.processes[i];
      if pr.exit.Some? || pr.children != [] then (tb, Err(InvalidTransition))
      else
        (tb.(processes := DropProcess(tb.processes, i), threadCount := SatSub(tb.threadCount, |pr.threads|)), Ok(()))
  }

  // ---------------------------------------------------------------- thread states

  /** Each lifecycle call on one thread: its new value, or the refusal. */
  datatype ThreadCall = Run | Yield | Block | Sleep | Wake | Stop | Continue

  function After(th: Thread, call: ThreadCall): Result<Thread, StateError> {
    match call
    case Run =>
      if th.state.Runnable? then Ok(th.(state := ThreadState.Running)) else Err(InvalidTransition)
    case Yield =>
      if th.state.Running? then Ok(th.(state := Runnable)) else Err(InvalidTransition)
    case Block =>
      if th.state.Runnable? || th.state.Running? then Ok(th.(state := Blocked)) else Err(InvalidTransition)
    case Sleep =>
      if th.state.Runnable? || th.state.Running? then Ok(th.(state := Sleeping)) else Err(InvalidTransition)
    case Wake =>
      if th.state.Blocked? || th.state.Sleeping? then Ok(th.(state := Runnable))
      else if th.state.Stopped? && (th.resume == Some(Blocked) || th.resume == Some(Sleeping)) then
        Ok(th.(resume := Some(Runnable)))
      else Err(InvalidTransition)
    case Stop =>
      if th.state.Stopped? || th.state.Exited? || th.resume.Some? then Err(InvalidTransition)
      else
        var resume := if th.state.Running? then Runnable else th.state;
        Ok(th.(resume := Some(resume), state := Stopped))
    case Continue =>
      if th.state.Stopped? && th.resume.Some? then Ok(th.(state := th.resume.value, resume := None))
      else Err(InvalidTransition)
  }

  function CallThread(tb: Table, t: nat, call: ThreadCall): (Table, Result<(), StateError>) {
    match ThreadAt(tb.processes, t)
    case None => (tb, Err(InvalidThread))
    case Some(th) =>
      match After(th, call)
      case Err(e) => (tb, Err(e))
      case Ok(th') => (tb.(processes := SetThread(tb.processes, t, th')), Ok(()))
  }

  // ---------------------------------------------------------------- exit and reclamation

  predicate AllExited(threads: seq<Thread>) {
    forall j :: 0 <= j < |threads| ==> threads[j].state.Exited?
  }

  /** Remove the first exited thread `t` of process `p`. */
  function Reclaim(tb: Table, p: nat, t: nat): Option<Table> {
    match IndexOf(tb.processes, Pid, p)
    case None => None
    case Some(i) =>
      var pr := tb.processes[i];
      match IndexOf(pr.threads, Tid, t)
      case None => None
      case Some(j) =>
        if !pr.threads[j].state.Exited? then None
        else
          Some(tb.(processes := tb.processes[i := pr.(threads := RemoveAt(pr.threads, j))],
                   threadCount := SatSub(tb.threadCount, 1)))
  }

  datatype ExitOutcome = Exits(table: Table, process: Option<ProcessExit>) | Refused(table: Table,
      error: StateError) | ExitPanics

  function ExitThread(tb: Table, t: nat, status: nat): ExitOutcome {
    match ThreadAt(tb.processes, t)
    case None => Refused(tb, InvalidThread)
    case Some(th) =>
      if th.state.Exited? then Refused(tb, InvalidTransition)
      else
        var th' := th.(state := ThreadState.Exited, resume := None, exit := Some(ThreadExit(t, th.owner, status)));
        var ps := SetThread(tb.processes, t, th');
        match IndexOf(ps, Pid, th.owner)
        case None => Refused(tb.(processes := ps), InvalidThread)
        case Some(i) =>
          var over := AllExited(ps[i].threads);
          var gone := ProcessExit(th.owner, status);
          var ps1 := if over then ps[i := ps[i].(state := ProcessState.Exited, exit := Some(gone))] else ps;
          var tb1 := tb.(processes := ps1);
          var exit := if over then Some(gone) else None;
          if !th.detached then Exits(tb1, exit)
          else
            match Reclaim(tb1, th.owner, t)
            case None => ExitPanics
            case Some(tb2) => Exits(tb2, exit)
  }

  datatype CallOutcome<T, E> = Returns(table: Table, result: Result<T, E>) | CallPanics

  function DetachThread(tb: Table, t: nat): CallOutcome<(), StateError> {
    match ThreadAt(tb.processes, t)
    case None => Returns(tb, Err(InvalidThread))
    case Some(th) =>
      if th.detached then Returns(tb, Err(InvalidTransition))
      else
        var tb1 := tb.(processes := SetThread(tb.processes, t, th.(detached := true)));
        if !th.state.Exited? then Returns(tb1, Ok(()))
        else
          match Reclaim(tb1, th.owner, t)
          case None => CallPanics
          case Some(tb2) => Returns(tb2, Ok(()))
  }

  function JoinThread(tb: Table, t: nat): CallOutcome<ThreadExit, JoinError> {
    match ThreadAt(tb.processes, t)
    case None => Returns(tb, Err(NoSuchThread))
    case Some(th) =>
      if th.detached then Returns(tb, Err(Detached))
      else if th.exit.None? then Returns(tb, Err(NotExited))
      else
        match Reclaim(tb, th.owner, t)
        case None => CallPanics
        case Some(tb1) => Returns(tb1, Ok(th.exit.value))
  }

  // ---------------------------------------------------------------- hierarchy

  /** Clear the parent of every listed child that still exists. */
  function ClearParents(ps: seq<Process>, children: seq<nat>): seq<Process>
    decreases |children|
  {
    if children == [] then ps
    else
      var ps1 := match IndexOf(ps, Pid, children[0])
                 case None => ps
                 case Some(i) => ps[i := ps[i].(parent := None)];
      ClearParents(ps1, children[1..])
  }

  function OrphanChildren(tb: Table, p: nat): (Table, Option<nat>) {
    match IndexOf(tb.processes, Pid, p)
    case None => (tb, None)
    case Some(i) =>
      var children := tb.processes[i].children;
      var ps := tb.processes[i := tb.processes[i].(children := [])];
      (tb.(processes := ClearParents(ps, children)), Some(|children|))
  }

  function ReapProcess(tb: Table, p: nat): CallOutcome<ProcessExit, ReapError> {
    match IndexOf(tb.processes, Pid, p)
    case None => Returns(tb, Err(NoSuchProcess))
    case Some(i) =>
      var pr := tb.processes[i];
      if !pr.state.Exited? then Returns(tb, Err(StillRunning))
      else if pr.threads != [] then Returns(tb, Err(HasThreads))
      else if pr.children != [] then Returns(tb, Err(HasChildren))
      else if pr.exit.None? then CallPanics
      else Returns(tb.(processes := DropProcess(tb.processes, i)), Ok(pr.exit.value))
  }
}
