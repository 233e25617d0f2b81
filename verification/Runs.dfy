/** Sequences of calls to the coordinator, and that each call is safe. */
module Runs {
  import opened Common
  import S = Scheduling
  import SI = SchedulingInvariant
  import P = Processes
  import opened Execution
  import opened Coupling

  /** The public operations of `SmpExecution`. */
  datatype Op =
    | OnlineOp(cpu: nat)
    | CreateProcessOp(parent: Option<nat>)
    | CreateThreadOp(process: nat, name: string, affinity: set<nat>)
    | CreateThreadWithIdOp(process: nat, thread: nat, name: string, affinity: set<nat>)
    | TickOp(cpu: nat)
    | YieldOp(cpu: nat)
    | BlockOp(thread: nat)
    | SleepOp(thread: nat)
    | WakeOp(thread: nat)
    | StopOp(thread: nat)
    | ContinueOp(thread: nat)
    | SetAffinityOp(thread: nat, affinity: set<nat>)
    | MigrateOp(thread: nat, cpu: nat)
    | RebalanceOp(eligible: set<nat>)
    | ExitOp(thread: nat, status: nat)
    | DetachOp(thread: nat)
    | JoinOp(thread: nat)
    | ReapOp(process: nat)
    | OrphanOp(process: nat)

  function Next<T>(r: Outcome<T>): Option<Exec> {
    if r.Panicked? then None else Some(r.exec)
  }

  function TableNext<T, E>(r: TableOutcome<T, E>): Option<Exec> {
    if r.TablePanicked? then None else Some(r.exec)
  }

  /** The state after one call, whatever it returned; `None` if it panics. */
  function Step(e: Exec, op: Op): Option<Exec>
    requires S.Shaped(e.sched)
  {
    match op
    case OnlineOp(c) => Next(OnlineCpu(e, c))
    case CreateProcessOp(parent) => Next(CreateProcess(e, parent))
    case CreateThreadOp(p, name, affinity) => Next(CreateThread(e, p, name, affinity))
    case CreateThreadWithIdOp(p, t, name, affinity) => Next(CreateThreadWithId(e, p, t, name, affinity))
    case TickOp(c) => Next(Tick(e, c))
    case YieldOp(c) => Next(Yield(e, c))
    case BlockOp(t) => Next(BlockThread(e, t))
    case SleepOp(t) => Next(SleepThread(e, t))
    case WakeOp(t) => Next(WakeThread(e, t))
    case StopOp(t) => Next(StopThread(e, t))
    case ContinueOp(t) => Next(ContinueThread(e, t))
    case SetAffinityOp(t, affinity) => Next(SetAffinity(e, t, affinity))
    case MigrateOp(t, c) => Next(Migrate(e, t, c))
    case RebalanceOp(eligible) => Next(RebalanceOnce(e, eligible))
    case ExitOp(t, status) => Next(ExitThread(e, t, status))
    case DetachOp(t) => TableNext(DetachThread(e, t))
    case JoinOp(t) => TableNext(JoinThread(e, t))
    case ReapOp(p) => TableNext(ReapProcess(e, p))
    case OrphanOp(p) => Some(OrphanChildren(e, p).0)
  }

  /** The call creates a process under an identity in use. */
  predicate Repeats(e: Exec, op: Op) {
    op.CreateProcessOp? && Reuses(e, op.parent)
  }

  /** The number of processes a run creates at most. */
  function Creations(ops: seq<Op>): nat {
    if ops == [] then 0 else Creations(ops[..|ops| - 1]) + if ops[|ops| - 1].CreateProcessOp? then 1 else 0
  }

  /** The state after a run; `None` once a call panics or indexes out of range. */
  ghost function Run(e: Exec, ops: seq<Op>): Option<Exec> {
    if ops == [] then Some(e)
    else
      match Run(e, ops[..|ops| - 1])
      case None => None
      case Some(e1) => if S.Shaped(e1.sched) then Step(e1, ops[|ops| - 1]) else None
  }

  /** No call of the run creates a process under an identity in use. */
  ghost predicate Fresh(e: Exec, ops: seq<Op>) {
    ops == []
    || (var front := ops[..|ops| - 1];
        Fresh(e, front) && (Run(e, front).Some? ==> !Repeats(Run(e, front).value, ops[|ops| - 1])))
  }

  lemma {:induction false} FreshPrefix(e: Exec, ops: seq<Op>, n: nat)
    requires Fresh(e, ops) && n <= |ops|
    ensures Fresh(e, ops[..n])
  {
    if n == |ops| {
      assert ops[..n] == ops;
    } else {
      FreshPrefix(e, ops[..|ops| - 1], n);
      assert ops[..|ops| - 1][..n] == ops[..n];
    }
  }

  // ---------------------------------------------------------------- safety

  /** The calls that change a thread's state. */
  predicate OnThread(op: Op) {
    op.BlockOp? || op.SleepOp? || op.WakeOp? || op.StopOp? || op.ContinueOp? || op.ExitOp? || op.DetachOp? || op.JoinOp?
  }

  lemma ThreadStepSafe(e: Exec, op: Op)
    requires Coupled(e) && OnThread(op)
    ensures S.Shaped(e.sched) && Step(e, op).Some? && Coupled(Step(e, op).value)
  {
    hide OthersCalm, AllCalm, Calm, Coupled, SI.IsLeast, P.After, P.ThreadAt, S.Where, OnlineCpu, CreateProcess,
        CreateThread;
    hide CreateThreadWithId, Tick, Yield, SetAffinity, Migrate, RebalanceOnce, ReapProcess, OrphanChildren, Park,
        WakeThread;
    hide StopThread, ContinueThread, ExitThread, DetachThread, JoinThread;
    CoupledShaped(e);
    match op {
      case BlockOp(t) => ParkSafe(e, t, P.Block);
      case SleepOp(t) => ParkSafe(e, t, P.Sleep);
      case WakeOp(t) => WakeSafe(e, t);
      case StopOp(t) => StopSafe(e, t);
      case ContinueOp(t) => ContinueSafe(e, t);
      case ExitOp(t, status) => ExitSafe(e, t, status);
      case DetachOp(t) => DetachSafe(e, t);
      case JoinOp(t) => JoinSafe(e, t);
    }
  }

  /** No call panics, and every call keeps the coupling invariant, except exactly process creation under an
      identity in use. */
  lemma StepSafe(e: Exec, op: Op)
    requires Coupled(e)
    ensures S.Shaped(e.sched) && Step(e, op).Some?
    ensures Coupled(Step(e, op).value) <==> !Repeats(e, op)
  {
    hide OthersCalm, AllCalm, Calm, Coupled, SI.IsLeast, P.After, P.ThreadAt, S.Where, OnlineCpu, CreateProcess,
        CreateThread;
    hide CreateThreadWithId, Tick, Yield, SetAffinity, Migrate, RebalanceOnce, ReapProcess, OrphanChildren, Park,
        WakeThread;
    hide StopThread, ContinueThread, ExitThread, DetachThread, JoinThread;
    CoupledShaped(e);
    match op {
      case OnlineOp(c) => OnlineCpuSafe(e, c);
      case CreateProcessOp(parent) => CreateProcessExactly(e, parent);
      case CreateThreadOp(p, name, affinity) => CreateThreadSafe(e, p, name, affinity);
      case CreateThreadWithIdOp(p, t, name, affinity) => CreateThreadWithIdSafe(e, p, t, name, affinity);
      case TickOp(c) => TickSafe(e, c);
      case YieldOp(c) => YieldSafe(e, c);
      case SetAffinityOp(t, affinity) => SetAffinitySafe(e, t, affinity);
      case MigrateOp(t, c) => MigrateSafe(e, t, c);
      case RebalanceOp(eligible) => RebalanceSafe(e, eligible);
      case ReapOp(p) => ReapSafe(e, p);
      case OrphanOp(p) => OrphanSafe(e, p);
      case _ => ThreadStepSafe(e, op);
    }
  }
}
