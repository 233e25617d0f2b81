/** Whole runs of the shared runtime (kernel/src/execution_runtime.rs): registrations, context calls and reaping,
    interleaved in any order with the coordinator's own calls. */
module RuntimeRuns {
  import opened Common
  import S = Scheduling
  import P = Processes
  import opened Execution
  import opened Coupling
  import opened Runtime
  import opened RuntimeAtomicity
  import Runs
  import Reaping

  datatype RuntimeOp =
    | Coordinate(op: Runs.Op)
    | RegisterCpu(cpu: nat, contexts: seq<Context>)
    | RegisterUser(parent: Option<nat>, name: string, cpu: nat)
    | ExitContext(context: UserContext, status: nat)
    | WakeContext(context: UserContext)
    | ReapContext(context: UserContext)

  /** The machine a registration leaves; `None` if it panics or its rollback fails. */
  function Registered<T>(r: MachineOutcome<T>): Option<Machine> {
    if r.MachinePanicked? || (r.result.Err? && r.result.error.RollbackFailed?) then None else Some(r.machine)
  }

  function WithExec(m: Machine, e: Option<Exec>): Option<Machine> {
    if e.None? then None else Some(m.(exec := e.value))
  }

  /** `validate_context_identity`. */
  predicate Identified(m: Machine, context: UserContext) {
    var th := ThreadAt(m.exec, context.thread);
    th.Some? && th.value.owner == context.process
  }

  /** The machine after one call, whatever it returned; `None` if it panics or a rollback fails. */
  function Step(m: Machine, op: RuntimeOp): Option<Machine>
    requires S.Shaped(m.exec.sched)
  {
    match op
    case Coordinate(call) => WithExec(m, Runs.Step(m.exec, call))
    case RegisterCpu(c, contexts) => Registered(RegisterCpuContexts(m, c, contexts))
    case RegisterUser(parent, name, c) => Registered(RegisterUserContext(m, parent, name, c))
    case ExitContext(context, status) =>
      if !Identified(m, context) then Some(m)
      else WithExec(m, Runs.Next(ExitThread(m.exec, context.thread, status)))
    case WakeContext(context) =>
      if !Identified(m, context) then Some(m) else WithExec(m, Runs.Next(WakeThread(m.exec, context.thread)))
    case ReapContext(context) =>
      var r := Reaping.ReapContext(m.exec.table, context.process, context.thread);
      if r.CallPanics? then None else Some(m.(exec := m.exec.(table := r.table)))
  }

  ghost function Run(m: Machine, ops: seq<RuntimeOp>): Option<Machine> {
    if ops == [] then Some(m)
    else
      match Run(m, ops[..|ops| - 1])
      case None => None
      case Some(m1) => if S.Shaped(m1.exec.sched) then Step(m1, ops[|ops| - 1]) else None
  }

  /** The call creates a process under an identity in use. */
  predicate Repeats(m: Machine, op: RuntimeOp) {
    match op
    case Coordinate(call) => Runs.Repeats(m.exec, call)
    case RegisterCpu(c, contexts) => GoesOnline(m, c, contexts) && Reuses(m.exec, None)
    case RegisterUser(parent, _, _) => Reuses(m.exec, parent)
    case _ => false
  }

  /** No call of the run creates a process under an identity in use. */
  ghost predicate Fresh(m: Machine, ops: seq<RuntimeOp>) {
    ops == []
    || (var front := ops[..|ops| - 1];
        Fresh(m, front) && (Run(m, front).Some? ==> !Repeats(Run(m, front).value, ops[|ops| - 1])))
  }

  /** Registrations are never moved or withdrawn. */
  ghost predicate KeepsRegistrations(m: Machine, m': Machine) {
    && |m'.cpuProcesses| == |m.cpuProcesses|
    && forall c :: 0 <= c < |m.cpuProcesses| && m.cpuProcesses[c].Some? ==> m'.cpuProcesses[c] == m.cpuProcesses[c]
  }

  lemma ReapContextSafe(e: Exec, p: nat, t: nat)
    requires Coupled(e)
    ensures var r := Reaping.ReapContext(e.table, p, t); r.Returns? && Coupled(e.(table := r.table))
  {
    hide P.OrphanChildren, P.JoinThread, P.ReapProcess, Coupled, AllCalm, OthersCalm, P.ThreadAt;
    if Reaping.CheckContext(e.table, p, t).None? {
      OrphanSafe(e, p);
      var e1 := OrphanChildren(e, p).0;
      JoinSafe(e1, t);
      var e2 := JoinThread(e1, t).exec;
      ReapSafe(e2, p);
    }
  }

  /** One call of the runtime keeps the coupling, never panics and never fails to roll back. */
  lemma StepSafe(m: Machine, op: RuntimeOp)
    requires Coupled(m.exec) && !Repeats(m, op) && (op.RegisterCpu? ==> SlotsValid(op.contexts))
    ensures S.Shaped(m.exec.sched)
    ensures Step(m, op).Some? && Coupled(Step(m, op).value.exec) && KeepsRegistrations(m, Step(m, op).value)
  {
    hide Coupled, Runs.Step, RegisterCpuContexts, RegisterUserContext, ExitThread, WakeThread, Reaping.ReapContext;
    hide Admissible, Restored, OthersCalm, Calm, Placed, Reuses, P.ThreadAt;
    CoupledShaped(m.exec);
    match op
    case Coordinate(call) => Runs.StepSafe(m.exec, call);
    case RegisterCpu(c, contexts) => RegisterAllOrNothing(m, c, contexts);
    case RegisterUser(parent, name, c) => RegisterUserAllOrNothing(m, parent, name, c);
    case ExitContext(context, status) => ExitSafe(m.exec, context.thread, status);
    case WakeContext(context) => WakeSafe(m.exec, context.thread);
    case ReapContext(context) => ReapContextSafe(m.exec, context.process, context.thread);
  }

  /** Safety of the whole runtime. Whatever registrations, context calls, reaping and coordinator calls
      interleave, none panics, no rollback fails, the lifecycle and the scheduler stay coupled and no CPU's
      registration is lost, unless a call creates a process under an identity in use. */
  lemma {:induction false} RuntimeRunsAreSafe(m: Machine, ops: seq<RuntimeOp>)
    requires Coupled(m.exec) && Fresh(m, ops)
    requires forall i :: 0 <= i < |ops| && ops[i].RegisterCpu? ==> SlotsValid(ops[i].contexts)
    ensures Run(m, ops).Some? && Coupled(Run(m, ops).value.exec) && KeepsRegistrations(m, Run(m, ops).value)
  {
    hide Coupled, Step, Repeats;
    if ops != [] {
      var front := ops[..|ops| - 1];
      RuntimeRunsAreSafe(m, front);
      StepSafe(Run(m, front).value, ops[|ops| - 1]);
    }
  }
}
