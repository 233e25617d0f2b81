/** The mutable runtime (`ExecutionRuntime` in kernel/src/execution_runtime.rs): batch admission of architecture
    contexts with rollback. Each method returns `None` where the source would panic. */
module ExecutionRuntime {
  import opened Common
  import S = Scheduling
  import P = Processes
  import X = Execution
  import E = SmpExecution
  import opened Runtime
  import RT = Runtime

  ghost predicate Agrees<T>(outcome: MachineOutcome<T>, m: Machine, r: Option<Result<T, RuntimeError>>) {
    match outcome
    case MachinePanicked => r.None?
    case Served(m1, result) => m == m1 && r == Some(result)
  }

  class ExecutionRuntime {
    const execution: E.SmpExecution
    var cpuProcesses: seq<Option<nat>>

    function State(): Machine
      reads this, execution.processes, execution.scheduler, execution.scheduler.queues
    {
      Machine(execution.State(), cpuProcesses)
    }

    constructor (execution: E.SmpExecution)
      ensures this.execution == execution && cpuProcesses == seq(S.MAX_CPUS, _ => None)
    {
      this.execution, this.cpuProcesses := execution, seq(S.MAX_CPUS, _ => None);
    }

    /** Brings the CPU online, creates a process and admits its contexts one by one. */
    method RegisterCpuContexts(c: nat, contexts: seq<Context>) returns (r: Option<Result<nat, RuntimeError>>)
      requires execution.scheduler.Valid()
      modifies this, execution.processes, execution.scheduler, execution.scheduler.queues
      ensures Agrees(RT.RegisterCpuContexts(old(State()), c, contexts), State(), r)
    {
      hide P.CreateProcess, RT.RollbackProcess, RT.AdmitContexts, S.Shaped;
      if contexts == [] { return Some(Err(EmptyContextSet)); }
      if c >= |cpuProcesses| { return Some(Err(Scheduling(S.InvalidCpu))); }
      if cpuProcesses[c].Some? { return Some(Err(CpuAlreadyRegistered)); }
      var online := execution.OnlineCpu(c);
      if online.Err? { return Some(Err(Scheduling(online.error.sched))); }
      var made := execution.CreateProcess(None);
      if made.Err? { return Some(Err(Failed(made.error))); }
      var failed := AdmitAll(made.value, c, contexts);
      if failed.None? { return None; }
      if failed.value.Err? {
        var refused := RollBack(made.value, failed.value.error);
        if refused.None? { return None; }
        return Some(Err(refused.value));
      }
      cpuProcesses := cpuProcesses[c := Some(made.value)];
      r := Some(Ok(made.value));
    }

    /** Undoes the creation of process `p` and says what to report. */
    method RollBack(p: nat, error: X.ExecError) returns (r: Option<RuntimeError>)
      requires execution.scheduler.Valid()
      modifies execution.processes, execution.scheduler, execution.scheduler.queues
      ensures match Rolled<()>(old(State()), old(execution.State()), p, error)
              case MachinePanicked => r.None?
              case Served(m, result) => m == State() && result.Err? && r == Some(result.error)
    {
      hide RT.RollbackProcess;
      var undone := execution.RollbackProcess(p);
      if undone.None? { return None; }
      r := Some(if undone.value.Err? then RollbackFailed(undone.value.error) else Failed(error));
    }

    /** The admission loop: it stops at the first refusal. */
    method AdmitAll(p: nat, c: nat, contexts: seq<Context>) returns (r: Option<Result<(), X.ExecError>>)
      requires execution.scheduler.Valid()
      modifies execution.processes, execution.scheduler, execution.scheduler.queues
      ensures execution.scheduler.Valid()
      ensures E.Agrees(AdmitContexts(old(execution.State()), p, c, contexts), execution.State(), r)
    {
      hide X.CreateThreadWithId;
      var k := 0;
      while k < |contexts|
        invariant 0 <= k <= |contexts| && execution.scheduler.Valid()
        invariant AdmitContexts(execution.State(), p, c, contexts[k..]) ==
                  AdmitContexts(old(execution.State()), p, c, contexts)
      {
        assert contexts[k..][1..] == contexts[k + 1..];
        var t := KernelThreadId(c, contexts[k].slot);
        if t.None? { return None; }
        var made := execution.CreateThreadWithId(p, t.value, contexts[k].name, {c});
        if made.None? { return None; }
        if made.value.Err? { return Some(Err(made.value.error)); }
        k := k + 1;
      }
      r := Some(Ok(()));
    }

    method RegisterUserContext(parent: Option<nat>, name: string, c: nat)
        returns (r: Option<Result<UserContext, RuntimeError>>)
      requires execution.scheduler.Valid()
      modifies execution.processes, execution.scheduler, execution.scheduler.queues
      ensures Agrees(RT.RegisterUserContext(old(State()), parent, name, c), State(), r)
    {
      hide P.CreateProcess, RT.RollbackProcess, X.CreateThread;
      var made := execution.CreateProcess(parent);
      if made.Err? { return Some(Err(Failed(made.error))); }
      var admitted := execution.CreateThread(made.value, name, {c});
      if admitted.None? { return None; }
      if admitted.value.Err? {
        var refused := RollBack(made.value, admitted.value.error);
        if refused.None? { return None; }
        return Some(Err(refused.value));
      }
      var placement := admitted.value.value.placement;
      r := Some(Ok(UserContext(made.value, placement.thread, placement.cpu)));
    }
  }
}
