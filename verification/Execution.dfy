/** The coordinator of process lifecycle and SMP scheduling (kernel/src/smp_execution.rs,
    `SmpExecution`), as values.

    Every `expect` of the source's coordinator is an explicit `Panicked` outcome here, so that its absence is
    a theorem and not a precondition. */
module Execution {
  import opened Common
  import R = RoundRobin
  import S = Scheduling
  import B = Balance
  import P = Processes

  datatype Exec = Exec(table: P.Table, sched: S.Smp)

  datatype ExecError = Create(create: P.CreateError) | State(state: P.StateError) | Sched(sched: S.SmpError)

  datatype Outcome<+T> = Done(exec: Exec, result: Result<T, ExecError>) | Panicked

  datatype ExitResult = ExitResult(queue: S.Transition, process: Option<P.ProcessExit>)
  datatype RebalanceResult = RebalanceResult(plan: B.Plan, migration: S.Migration)

  function ThreadAt(e: Exec, t: nat): Option<P.Thread> {
    P.ThreadAt(e.table.processes, t)
  }

  function Refuse<T>(e: Exec, error: ExecError): Outcome<T> {
    Done(e, Err(error))
  }

  // ---------------------------------------------------------------- following the scheduler's switches

  /** `activate`: the thread switched to becomes running; `None` is a failed `expect`. */
  function Activate(e: Exec, sw: Option<R.Switch>): Option<Exec> {
    if sw.None? then Some(e)
    else
      var (tb, r) := P.CallThread(e.table, sw.value.to, P.Run);
      if r.Err? then None else Some(e.(table := tb))
  }

  /** `rotate`: the running thread yields to the next one. */
  function Rotate(e: Exec, sw: Option<R.Switch>): Option<Exec> {
    if sw.None? then Some(e)
    else if sw.value.from.None? then None
    else
      var (tb, r) := P.CallThread(e.table, sw.value.from.value, P.Yield);
      if r.Err? then None else Activate(e.(table := tb), sw)
  }

  function ApplyMigration(e: Exec, t: nat, m: S.Migration): Option<Exec> {
    if !m.sourceWasCurrent then Activate(e, m.destinationSwitch)
    else
      var (tb, r) := P.CallThread(e.table, t, P.Yield);
      if r.Err? then None
      else
        match Activate(e.(table := tb), m.sourceSwitch)
        case None => None
        case Some(e1) => Activate(e1, m.destinationSwitch)
  }

  function Finish<T>(e: Option<Exec>, value: T): Outcome<T> {
    if e.None? then Panicked else Done(e.value, Ok(value))
  }

  // ---------------------------------------------------------------- operations

  function OnlineCpu(e: Exec, c: nat): Outcome<bool> {
    var online := S.OnlineCpu(e.sched, c);
    Done(e.(sched := online.0), if online.1.Ok? then Ok(online.1.value) else Err(Sched(online.1.error)))
  }

  function CreateProcess(e: Exec, parent: Option<nat>): Outcome<nat> {
    var made := P.CreateProcess(e.table, parent);
    Done(e.(table := made.0), if made.1.Ok? then Ok(made.1.value) else Err(Create(made.1.error)))
  }

  /** Admission of thread `t`, already in table `tb`; a refusal rolls the thread back. */
  function AdmitCreated(e: Exec, tb: P.Table, t: nat, affinity: set<nat>): Outcome<S.Admission> {
    var (s, r) := S.Admit(e.sched, t, affinity);
    if r.Err? then
      var (tb1, r1) := P.RollbackThread(tb, t);
      if r1.Err? then Panicked else Refuse(Exec(tb1, s), Sched(r.error))
      else Finish(Activate(Exec(tb, s), r.value.switch), r.value)
  }

  function CreateThread(e: Exec, p: nat, name: string, affinity: set<nat>): Outcome<S.Admission> {
    var bad, unfit := P.ValidateThreadCreation(e.table, p), S.ValidateAdmission(e.sched, affinity);
    if bad.Some? then Refuse(e, Create(bad.value))
    else if unfit.Some? then Refuse(e, Sched(unfit.value))
    else
      var (tb, r) := P.CreateThread(e.table, p, name);
      if r.Err? then Refuse(e.(table := tb), Create(r.error)) else AdmitCreated(e, tb, r.value, affinity)
  }

  function CreateThreadWithId(e: Exec, p: nat, t: nat, name: string, affinity: set<nat>): Outcome<S.Admission> {
    var bad, unfit := P.ValidateThreadCreation(e.table, p), S.ValidateAdmission(e.sched, affinity);
    if bad.Some? then Refuse(e, Create(bad.value))
    else if unfit.Some? then Refuse(e, Sched(unfit.value))
    else
      var (tb, r) := P.CreateThreadWithId(e.table, p, t, name);
      if r.Err? then Refuse(e.(table := tb), Create(r.error)) else AdmitCreated(e, tb, t, affinity)
  }

  function Tick(e: Exec, c: nat): Outcome<Option<R.Switch>> {
    var (s, r) := S.TickCpu(e.sched, c);
    if r.Err? then Refuse(e.(sched := s), Sched(r.error)) else Finish(Rotate(e.(sched := s), r.value), r.value)
  }

  function Yield(e: Exec, c: nat): Outcome<Option<R.Switch>> {
    var (s, r) := S.YieldCpu(e.sched, c);
    if r.Err? then Refuse(e.(sched := s), Sched(r.error)) else Finish(Rotate(e.(sched := s), r.value), r.value)
  }

  /** Take a thread out of its line under the lifecycle call `call` (block, sleep or stop). */
  function Suspend(e: Exec, t: nat, call: P.ThreadCall): Outcome<S.Transition>
    requires S.Shaped(e.sched)
  {
    var (s, r) := S.Block(e.sched, t);
    if r.Err? then Refuse(e.(sched := s), Sched(r.error))
    else
      var (tb, r1) := P.CallThread(e.table, t, call);
      if r1.Err? then Panicked else Finish(Activate(Exec(tb, s), r.value.switch), r.value)
  }

  function Park(e: Exec, t: nat, call: P.ThreadCall): Outcome<S.Transition>
    requires S.Shaped(e.sched)
  {
    match ThreadAt(e, t)
    case None => Refuse(e, State(P.InvalidThread))
    case Some(th) =>
      if !(th.state.Runnable? || th.state.Running?) then Refuse(e, State(P.InvalidTransition))
      else Suspend(e, t, call)
  }

  function BlockThread(e: Exec, t: nat): Outcome<S.Transition>
    requires S.Shaped(e.sched)
  {
    Park(e, t, P.Block)
  }

  function SleepThread(e: Exec, t: nat): Outcome<S.Transition>
    requires S.Shaped(e.sched)
  {
    Park(e, t, P.Sleep)
  }

  /** Put a parked thread back in line under the lifecycle call `call` (wake or continue). */
  function Resume(e: Exec, t: nat, call: P.ThreadCall): Outcome<Option<S.Admission>>
    requires S.Shaped(e.sched)
  {
    var (s, r) := S.Wake(e.sched, t);
    if r.Err? then Refuse(e.(sched := s), Sched(r.error))
    else
      var (tb, r1) := P.CallThread(e.table, t, call);
      if r1.Err? then Panicked else Finish(Activate(Exec(tb, s), r.value.switch), Some(r.value))
  }

  function WakeThread(e: Exec, t: nat): Outcome<Option<S.Admission>>
    requires S.Shaped(e.sched)
  {
    match ThreadAt(e, t)
    case None => Refuse(e, State(P.InvalidThread))
    case Some(th) =>
      if th.state.Blocked? || th.state.Sleeping? then Resume(e, t, P.Wake)
      else if th.state.Stopped? then
        var (tb, r) := P.CallThread(e.table, t, P.Wake);
        if r.Err? then Refuse(e.(table := tb), State(r.error)) else Done(e.(table := tb), Ok(None))
        else Refuse(e, State(P.InvalidTransition))
  }

  function StopThread(e: Exec, t: nat): Outcome<Option<S.Transition>>
    requires S.Shaped(e.sched)
  {
    match ThreadAt(e, t)
    case None => Refuse(e, State(P.InvalidThread))
    case Some(th) =>
      if th.state.Runnable? || th.state.Running? then
        match Suspend(e, t, P.Stop)
        case Panicked => Panicked
        case Done(e1, r) => Done(e1, if r.Ok? then Ok(Some(r.value)) else Err(r.error))
      else if th.state.Blocked? || th.state.Sleeping? then
        var (tb, r) := P.CallThread(e.table, t, P.Stop);
        if r.Err? then Panicked else Done(e.(table := tb), Ok(None))
        else Refuse(e, State(P.InvalidTransition))
  }

  function ContinueThread(e: Exec, t: nat): Outcome<Option<S.Admission>>
    requires S.Shaped(e.sched)
  {
    match ThreadAt(e, t)
    case None => Refuse(e, State(P.InvalidThread))
    case Some(th) =>
      if !th.state.Stopped? then Refuse(e, State(P.InvalidTransition))
      else if th.resume.None? then Panicked
      else if th.resume.value.Runnable? then Resume(e, t, P.Continue)
      else
        var (tb, r) := P.CallThread(e.table, t, P.Continue);
        if r.Err? then Panicked else Done(e.(table := tb), Ok(None))
  }

  function SetAffinity(e: Exec, t: nat, affinity: set<nat>): Outcome<S.Migration>
    requires S.Shaped(e.sched)
  {
    match ThreadAt(e, t)
    case None => Refuse(e, State(P.InvalidThread))
    case Some(th) =>
      if th.state.Exited? then Refuse(e, State(P.InvalidTransition))
      else
        var (s, r) := S.SetAffinity(e.sched, t, affinity);
        if r.Err? then Refuse(e.(sched := s), Sched(r.error))
        else Finish(ApplyMigration(e.(sched := s), t, r.value), r.value)
  }

  function Migrate(e: Exec, t: nat, to: nat): Outcome<S.Migration>
    requires S.Shaped(e.sched)
  {
    match ThreadAt(e, t)
    case None => Refuse(e, State(P.InvalidThread))
    case Some(th) =>
      if th.state.Exited? then Refuse(e, State(P.InvalidTransition))
      else
        var (s, r) := S.Migrate(e.sched, t, to);
        if r.Err? then Refuse(e.(sched := s), Sched(r.error))
        else Finish(ApplyMigration(e.(sched := s), t, r.value), r.value)
  }

  function RebalanceOnce(e: Exec, eligible: set<nat>): Outcome<Option<RebalanceResult>>
    requires S.Shaped(e.sched)
  {
    match B.RebalancePlan(e.sched, eligible)
    case Err(error) => Refuse(e, Sched(error))
    case Ok(None) => Done(e, Ok(None))
    case Ok(Some(plan)) =>
      match Migrate(e, plan.thread, plan.to)
      case Panicked => Panicked
      case Done(e1, r) => Done(e1, if r.Ok? then Ok(Some(RebalanceResult(plan, r.value))) else Err(r.error))
  }

  function ExitThread(e: Exec, t: nat, status: nat): Outcome<ExitResult>
    requires S.Shaped(e.sched)
  {
    match ThreadAt(e, t)
    case None => Refuse(e, State(P.InvalidThread))
    case Some(th) =>
      if th.state.Exited? then Refuse(e, State(P.InvalidTransition))
      else
        var (s, r) := S.Discharge(e.sched, t);
        if r.Err? then Refuse(e.(sched := s), Sched(r.error))
        else
          match P.ExitThread(e.table, t, status)
          case Exits(tb, exit) => Finish(Activate(Exec(tb, s), r.value.switch), ExitResult(r.value, exit))
          case _ => Panicked
  }

  /** The remaining public operations change only the process table. */
  datatype TableOutcome<T, E> = TableDone(exec: Exec, result: Result<T, E>) | TablePanicked

  function OnTable<T, E>(e: Exec, r: P.CallOutcome<T, E>): TableOutcome<T, E> {
    if r.CallPanics? then TablePanicked else TableDone(e.(table := r.table), r.result)
  }

  function DetachThread(e: Exec, t: nat): TableOutcome<(), P.StateError> {
    OnTable(e, P.DetachThread(e.table, t))
  }

  function JoinThread(e: Exec, t: nat): TableOutcome<P.ThreadExit, P.JoinError> {
    OnTable(e, P.JoinThread(e.table, t))
  }

  function ReapProcess(e: Exec, p: nat): TableOutcome<P.ProcessExit, P.ReapError> {
    OnTable(e, P.ReapProcess(e.table, p))
  }

  function OrphanChildren(e: Exec, p: nat): (Exec, Option<nat>) {
    var (tb, r) := P.OrphanChildren(e.table, p);
    (e.(table := tb), r)
  }
}
