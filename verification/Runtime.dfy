/** Batch admission of execution contexts (kernel/src/execution_runtime.rs, `ExecutionRuntime`),
    with the rollback of a batch that fails part way. */
module Runtime {
  import opened Common
  import S = Scheduling
  import P = Processes
  import opened Execution

  const KERNEL_THREAD_ID_BASE: nat := 0x8000_0000_0000_0000

  datatype Context = Context(slot: nat, name: string)

  datatype RuntimeError =
    | EmptyContextSet | CpuAlreadyRegistered | Scheduling(smp: S.SmpError) | Failed(cause: ExecError)
    | RollbackFailed(rollback: ExecError)

  datatype Machine = Machine(exec: Exec, cpuProcesses: seq<Option<nat>>)

  datatype MachineOutcome<+T> = Served(machine: Machine, result: Result<T, RuntimeError>) | MachinePanicked

  /** The identity of an architecture context: the top bit, then the CPU, then the slot plus one. */
  function KernelThreadId(c: nat, slot: nat): Option<nat> {
    if slot + 1 > 255 then None else Some(KERNEL_THREAD_ID_BASE + c * 256 + slot + 1)
  }

  /** `rollback_process_creation`, first the scheduler entries of the listed threads. */
  function DischargeAll(e: Exec, threads: seq<nat>): Outcome<()>
    requires S.Shaped(e.sched)
    decreases |threads|
  {
    if threads == [] then Done(e, Ok(()))
    else
      var (s, r) := S.Discharge(e.sched, threads[0]);
      if r.Err? then Refuse(e.(sched := s), Sched(r.error))
      else
        match Activate(e.(sched := s), r.value.switch)
        case None => Panicked
        case Some(e1) => DischargeAll(e1, threads[1..])
  }

  function Tids(threads: seq<P.Thread>): seq<nat> {
    seq(|threads|, i requires 0 <= i < |threads| => threads[i].id)
  }

  function RollbackProcess(e: Exec, p: nat): Outcome<()>
    requires S.Shaped(e.sched)
  {
    match P.ProcessAt(e.table.processes, p)
    case None => Refuse(e, State(P.InvalidThread))
    case Some(pr) =>
      match DischargeAll(e, Tids(pr.threads))
      case Panicked => Panicked
      case Done(e1, Err(error)) => Refuse(e1, error)
      case Done(e1, Ok(_)) =>
        var (tb, r) := P.RollbackProcess(e1.table, p);
        if r.Err? then Refuse(e1.(table := tb), State(r.error)) else Done(e1.(table := tb), Ok(()))
  }

  /** The admission loop: it stops at the first refusal. */
  function AdmitContexts(e: Exec, p: nat, c: nat, contexts: seq<Context>): Outcome<()>
    decreases |contexts|
  {
    if contexts == [] then Done(e, Ok(()))
    else
      match KernelThreadId(c, contexts[0].slot)
      case None => Panicked
      case Some(t) =>
        match CreateThreadWithId(e, p, t, contexts[0].name, {c})
        case Panicked => Panicked
        case Done(e1, Err(error)) => Refuse(e1, error)
        case Done(e1, Ok(_)) => AdmitContexts(e1, p, c, contexts[1..])
  }

  function RegisterCpuContexts(m: Machine, c: nat, contexts: seq<Context>): MachineOutcome<nat>
    requires S.Shaped(m.exec.sched)
  {
    if contexts == [] then Served(m, Err(EmptyContextSet))
    else if c >= |m.cpuProcesses| then Served(m, Err(Scheduling(S.InvalidCpu)))
    else if m.cpuProcesses[c].Some? then Served(m, Err(CpuAlreadyRegistered))
    else
      var online := S.OnlineCpu(m.exec.sched, c);
      if online.1.Err? then Served(m, Err(Scheduling(online.1.error)))
      else
        var made := P.CreateProcess(m.exec.table, None);
        var e := Exec(made.0, online.0);
        if made.1.Err? then Served(m.(exec := e), Err(Failed(Create(made.1.error))))
        else
          match AdmitContexts(e, made.1.value, c, contexts)
          case Panicked => MachinePanicked
          case Done(e1, Ok(_)) =>
            Served(Machine(e1, m.cpuProcesses[c := Some(made.1.value)]), Ok(made.1.value))
          case Done(e1, Err(error)) => Rolled(m, e1, made.1.value, error)
  }

  /** The answer to a refused admission, after the rollback of process `p`. */
  function Rolled<T>(m: Machine, e: Exec, p: nat, error: ExecError): MachineOutcome<T> {
    if !S.Shaped(e.sched) then MachinePanicked
    else
      match RollbackProcess(e, p)
      case Panicked => MachinePanicked
      case Done(e2, Err(rollback)) => Served(m.(exec := e2), Err(RollbackFailed(rollback)))
      case Done(e2, Ok(_)) => Served(m.(exec := e2), Err(Failed(error)))
  }

  datatype UserContext = UserContext(process: nat, thread: nat, cpu: nat)

  function RegisterUserContext(m: Machine, parent: Option<nat>, name: string, c: nat): MachineOutcome<UserContext> {
    var made := P.CreateProcess(m.exec.table, parent);
    var e := m.exec.(table := made.0);
    if made.1.Err? then Served(m.(exec := e), Err(Failed(Create(made.1.error))))
    else
      match CreateThread(e, made.1.value, name, {c})
      case Panicked => MachinePanicked
      case Done(e1, Ok(admission)) =>
        Served(m.(exec := e1), Ok(UserContext(made.1.value, admission.placement.thread, admission.placement.cpu)))
      case Done(e1, Err(error)) => Rolled(m, e1, made.1.value, error)
  }
}
