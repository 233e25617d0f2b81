/** The mutable coordinator (`SmpExecution` in kernel/src/smp_execution.rs) of a process table and a scheduler.

    Each method returns `None` where the source would panic in an `expect`. Its first promise is the operation on
    values; the second is that from a coupled state it does not panic and ends in a coupled state. */
module SmpExecution {
  import opened Common
  import R = RoundRobin
  import S = Scheduling
  import B = Balance
  import P = Processes
  import PT = ProcessTable
  import SR = SmpRoundRobin
  import opened Execution
  import X = Execution
  import opened Coupling
  import RT = Runtime

  ghost predicate Agrees<T>(outcome: Outcome<T>, e: Exec, r: Option<Result<T, ExecError>>) {
    match outcome
    case Panicked => r.None?
    case Done(e1, result) => e == e1 && r == Some(result)
  }

  ghost predicate TableAgrees<T, E>(outcome: TableOutcome<T, E>, e: Exec, r: Option<Result<T, E>>) {
    match outcome
    case TablePanicked => r.None?
    case TableDone(e1, result) => e == e1 && r == Some(result)
  }

  class SmpExecution {
    const processes: PT.ProcessTable
    const scheduler: SR.SmpRoundRobin

    function State(): Exec
      reads processes, scheduler, scheduler.queues
    {
      Exec(processes.State(), scheduler.State())
    }

    constructor (processes: PT.ProcessTable, scheduler: SR.SmpRoundRobin)
      ensures this.processes == processes && this.scheduler == scheduler
    {
      this.processes, this.scheduler := processes, scheduler;
    }

    // -------------------------------------------------------------- following the scheduler's switches

    method Activate(sw: Option<R.Switch>) returns (ok: bool)
      modifies processes
      ensures var e := X.Activate(old(State()), sw); ok == e.Some? && (ok ==> State() == e.value)
    {
      if sw.None? { return true; }
      var r := processes.Call(sw.value.to, P.Run);
      ok := r.Ok?;
    }

    method Rotate(sw: Option<R.Switch>) returns (ok: bool)
      modifies processes
      ensures var e := X.Rotate(old(State()), sw); ok == e.Some? && (ok ==> State() == e.value)
    {
      hide P.CallThread;
      if sw.None? { return true; }
      if sw.value.from.None? { return false; }
      var r := processes.Call(sw.value.from.value, P.Yield);
      if r.Err? { return false; }
      ok := Activate(sw);
    }

    method ApplyMigration(t: nat, m: S.Migration) returns (ok: bool)
      modifies processes
      ensures var e := X.ApplyMigration(old(State()), t, m); ok == e.Some? && (ok ==> State() == e.value)
    {
      hide P.CallThread, X.Activate;
      if m.sourceWasCurrent {
        var r := processes.Call(t, P.Yield);
        if r.Err? { return false; }
        var first := Activate(m.sourceSwitch);
        if !first { return false; }
      }
      ok := Activate(m.destinationSwitch);
    }

    // -------------------------------------------------------------- operations

    method CreateThread(p: nat, name: string, affinity: set<nat>) returns (r: Option<Result<S.Admission, ExecError>>)
      requires scheduler.Valid()
      modifies processes, scheduler, scheduler.queues
      ensures scheduler.Valid() && Agrees(X.CreateThread(old(State()), p, name, affinity), State(), r)
      ensures old(Coupled(State())) ==> r.Some? && Coupled(State())
    {
      hide P.CreateThread, S.Admit, P.RollbackThread, X.Activate, Coupled;
      if Coupled(State()) { CreateThreadSafe(State(), p, name, affinity); }
      var bad, unfit := P.ValidateThreadCreation(processes.State(), p),
          S.ValidateAdmission(scheduler.State(), affinity);
      if bad.Some? { return Some(Err(Create(bad.value))); }
      if unfit.Some? { return Some(Err(Sched(unfit.value))); }
      var made := processes.CreateThread(p, name);
      if made.Err? { return Some(Err(Create(made.error))); }
      r := AdmitThread(made.value, affinity);
    }

    method CreateThreadWithId(p: nat, t: nat, name: string, affinity: set<nat>)
        returns (r: Option<Result<S.Admission, ExecError>>)
      requires scheduler.Valid()
      modifies processes, scheduler, scheduler.queues
      ensures scheduler.Valid() && Agrees(X.CreateThreadWithId(old(State()), p, t, name, affinity), State(), r)
      ensures old(Coupled(State())) ==> r.Some? && Coupled(State())
    {
      hide P.CreateThreadWithId, S.Admit, P.RollbackThread, X.Activate, Coupled;
      if Coupled(State()) { CreateThreadWithIdSafe(State(), p, t, name, affinity); }
      var bad, unfit := P.ValidateThreadCreation(processes.State(), p),
          S.ValidateAdmission(scheduler.State(), affinity);
      if bad.Some? { return Some(Err(Create(bad.value))); }
      if unfit.Some? { return Some(Err(Sched(unfit.value))); }
      var made := processes.CreateThreadWithId(p, t, name);
      if made.Err? { return Some(Err(Create(made.error))); }
      r := AdmitThread(t, affinity);
    }

    /** Hands a thread just created to the scheduler, and rolls it back if that is refused. */
    method AdmitThread(t: nat, affinity: set<nat>) returns (r: Option<Result<S.Admission, ExecError>>)
      requires scheduler.Valid()
      modifies processes, scheduler, scheduler.queues
      ensures scheduler.Valid() && Agrees(AdmitCreated(old(State()), old(processes.State()), t, affinity), State(), r)
    {
      hide S.Admit, P.RollbackThread, X.Activate;
      var admitted := scheduler.Admit(t, affinity);
      if admitted.Err? {
        var undone := processes.RollbackThread(t);
        if undone.Err? { return None; }
        return Some(Err(Sched(admitted.error)));
      }
      var ok := Activate(admitted.value.switch);
      if !ok { return None; }
      r := Some(Ok(admitted.value));
    }

    method Tick(c: nat) returns (r: Option<Result<Option<R.Switch>, ExecError>>)
      requires scheduler.Valid()
      modifies processes, scheduler, scheduler.queues
      ensures Agrees(X.Tick(old(State()), c), State(), r)
      ensures old(Coupled(State())) ==> r.Some? && Coupled(State())
    {
      hide S.TickCpu, X.Rotate, Coupled;
      if Coupled(State()) { TickSafe(State(), c); }
      var ticked := scheduler.Tick(c);
      if ticked.Err? { return Some(Err(Sched(ticked.error))); }
      var ok := Rotate(ticked.value);
      if !ok { return None; }
      r := Some(Ok(ticked.value));
    }

    method YieldCurrent(c: nat) returns (r: Option<Result<Option<R.Switch>, ExecError>>)
      requires scheduler.Valid()
      modifies processes, scheduler, scheduler.queues
      ensures Agrees(X.Yield(old(State()), c), State(), r)
      ensures old(Coupled(State())) ==> r.Some? && Coupled(State())
    {
      hide S.YieldCpu, X.Rotate, Coupled;
      if Coupled(State()) { YieldSafe(State(), c); }
      var yielded := scheduler.YieldCurrent(c);
      if yielded.Err? { return Some(Err(Sched(yielded.error))); }
      var ok := Rotate(yielded.value);
      if !ok { return None; }
      r := Some(Ok(yielded.value));
    }

    /** Out of its line, then the lifecycle call, then the thread that takes over. */
    method Suspend(t: nat, call: P.ThreadCall) returns (r: Option<Result<S.Transition, ExecError>>)
      requires scheduler.Valid()
      modifies processes, scheduler, scheduler.queues
      ensures Agrees(X.Suspend(old(State()), t, call), State(), r)
    {
      hide S.Block, P.CallThread, X.Activate;
      var blocked := scheduler.Block(t);
      if blocked.Err? { return Some(Err(Sched(blocked.error))); }
      var called := processes.Call(t, call);
      if called.Err? { return None; }
      var ok := Activate(blocked.value.switch);
      if !ok { return None; }
      r := Some(Ok(blocked.value));
    }

    /** Block and sleep. */
    method ParkThread(t: nat, call: P.ThreadCall) returns (r: Option<Result<S.Transition, ExecError>>)
      requires scheduler.Valid()
      modifies processes, scheduler, scheduler.queues
      ensures Agrees(Park(old(State()), t, call), State(), r)
      ensures old(Coupled(State())) && (call.Block? || call.Sleep?) ==> r.Some? && Coupled(State())
    {
      hide X.Suspend, Coupled, P.ThreadAt;
      if Coupled(State()) && (call.Block? || call.Sleep?) { ParkSafe(State(), t, call); }
      var found := P.ThreadAt(processes.processes, t);
      if found.None? { return Some(Err(X.State(P.InvalidThread))); }
      if !(found.value.state.Runnable? || found.value.state.Running?) { return Some(Err(X.State(P.InvalidTransition)));
          }
      r := Suspend(t, call);
    }

    /** Back in line, then the lifecycle call, then the switch if its CPU was idle. */
    method Resume(t: nat, call: P.ThreadCall) returns (r: Option<Result<Option<S.Admission>, ExecError>>)
      requires scheduler.Valid()
      modifies processes, scheduler, scheduler.queues
      ensures Agrees(X.Resume(old(State()), t, call), State(), r)
    {
      hide S.Wake, P.CallThread, X.Activate;
      var woken := scheduler.Wake(t);
      if woken.Err? { return Some(Err(Sched(woken.error))); }
      var called := processes.Call(t, call);
      if called.Err? { return None; }
      var ok := Activate(woken.value.switch);
      if !ok { return None; }
      r := Some(Ok(Some(woken.value)));
    }

    method WakeThread(t: nat) returns (r: Option<Result<Option<S.Admission>, ExecError>>)
      requires scheduler.Valid()
      modifies processes, scheduler, scheduler.queues
      ensures Agrees(X.WakeThread(old(State()), t), State(), r)
      ensures old(Coupled(State())) ==> r.Some? && Coupled(State())
    {
      hide X.Resume, Coupled, P.ThreadAt, P.CallThread;
      if Coupled(State()) { WakeSafe(State(), t); }
      var found := P.ThreadAt(processes.processes, t);
      if found.None? { return Some(Err(X.State(P.InvalidThread))); }
      if found.value.state.Blocked? || found.value.state.Sleeping? {
        r := Resume(t, P.Wake);
      } else if found.value.state.Stopped? {
        var called := processes.Call(t, P.Wake);
        r := Some(if called.Err? then Err(X.State(called.error)) else Ok(None));
      } else {
        r := Some(Err(X.State(P.InvalidTransition)));
      }
    }

    method StopThread(t: nat) returns (r: Option<Result<Option<S.Transition>, ExecError>>)
      requires scheduler.Valid()
      modifies processes, scheduler, scheduler.queues
      ensures Agrees(X.StopThread(old(State()), t), State(), r)
      ensures old(Coupled(State())) ==> r.Some? && Coupled(State())
    {
      hide X.Suspend, Coupled, P.ThreadAt, P.CallThread;
      if Coupled(State()) { StopSafe(State(), t); }
      var found := P.ThreadAt(processes.processes, t);
      if found.None? { return Some(Err(X.State(P.InvalidThread))); }
      if found.value.state.Runnable? || found.value.state.Running? {
        var suspended := Suspend(t, P.Stop);
        if suspended.None? { return None; }
        r := Some(if suspended.value.Ok? then Ok(Some(suspended.value.value)) else Err(suspended.value.error));
      } else if found.value.state.Blocked? || found.value.state.Sleeping? {
        var called := processes.Call(t, P.Stop);
        if called.Err? { return None; }
        r := Some(Ok(None));
      } else {
        r := Some(Err(X.State(P.InvalidTransition)));
      }
    }

    method ContinueThread(t: nat) returns (r: Option<Result<Option<S.Admission>, ExecError>>)
      requires scheduler.Valid()
      modifies processes, scheduler, scheduler.queues
      ensures Agrees(X.ContinueThread(old(State()), t), State(), r)
      ensures old(Coupled(State())) ==> r.Some? && Coupled(State())
    {
      hide X.Resume, Coupled, P.ThreadAt, P.CallThread;
      if Coupled(State()) { ContinueSafe(State(), t); }
      var found := P.ThreadAt(processes.processes, t);
      if found.None? { return Some(Err(X.State(P.InvalidThread))); }
      if !found.value.state.Stopped? { return Some(Err(X.State(P.InvalidTransition))); }
      if found.value.resume.None? { return None; }
      if found.value.resume.value.Runnable? {
        r := Resume(t, P.Continue);
      } else {
        var called := processes.Call(t, P.Continue);
        if called.Err? { return None; }
        r := Some(Ok(None));
      }
    }

    method SetAffinity(t: nat, affinity: set<nat>) returns (r: Option<Result<S.Migration, ExecError>>)
      requires scheduler.Valid()
      modifies processes, scheduler, scheduler.queues
      ensures Agrees(X.SetAffinity(old(State()), t, affinity), State(), r)
      ensures old(Coupled(State())) ==> r.Some? && Coupled(State())
    {
      hide S.SetAffinity, X.ApplyMigration, Coupled, P.ThreadAt;
      if Coupled(State()) { SetAffinitySafe(State(), t, affinity); }
      var found := P.ThreadAt(processes.processes, t);
      if found.None? { return Some(Err(X.State(P.InvalidThread))); }
      if found.value.state.Exited? { return Some(Err(X.State(P.InvalidTransition))); }
      var moved := scheduler.SetAffinity(t, affinity);
      if moved.Err? { return Some(Err(Sched(moved.error))); }
      var ok := ApplyMigration(t, moved.value);
      if !ok { return None; }
      r := Some(Ok(moved.value));
    }

    method Migrate(t: nat, to: nat) returns (r: Option<Result<S.Migration, ExecError>>)
      requires scheduler.Valid()
      modifies processes, scheduler, scheduler.queues
      ensures Agrees(X.Migrate(old(State()), t, to), State(), r)
      ensures old(Coupled(State())) ==> r.Some? && Coupled(State())
    {
      hide S.Migrate, X.ApplyMigration, Coupled, P.ThreadAt;
      if Coupled(State()) { MigrateSafe(State(), t, to); }
      var found := P.ThreadAt(processes.processes, t);
      if found.None? { return Some(Err(X.State(P.InvalidThread))); }
      if found.value.state.Exited? { return Some(Err(X.State(P.InvalidTransition))); }
      var moved := scheduler.Migrate(t, to);
      if moved.Err? { return Some(Err(Sched(moved.error))); }
      var ok := ApplyMigration(t, moved.value);
      if !ok { return None; }
      r := Some(Ok(moved.value));
    }

    method RebalanceOnce(eligible: set<nat>) returns (r: Option<Result<Option<RebalanceResult>, ExecError>>)
      requires scheduler.Valid()
      modifies processes, scheduler, scheduler.queues
      ensures Agrees(X.RebalanceOnce(old(State()), eligible), State(), r)
      ensures old(Coupled(State())) ==> r.Some? && Coupled(State())
    {
      hide B.RebalancePlan, X.Migrate, Coupled;
      if Coupled(State()) { RebalanceSafe(State(), eligible); }
      var planned := scheduler.RebalancePlan(eligible);
      if planned.Err? { return Some(Err(Sched(planned.error))); }
      if planned.value.None? { return Some(Ok(None)); }
      var plan := planned.value.value;
      var moved := Migrate(plan.thread, plan.to);
      if moved.None? { return None; }
      r := Some(if moved.value.Ok? then Ok(Some(RebalanceResult(plan, moved.value.value))) else Err(moved.value.error));
    }

    method ExitThread(t: nat, status: nat) returns (r: Option<Result<ExitResult, ExecError>>)
      requires scheduler.Valid()
      modifies processes, scheduler, scheduler.queues
      ensures Agrees(X.ExitThread(old(State()), t, status), State(), r)
      ensures old(Coupled(State())) ==> r.Some? && Coupled(State())
    {
      hide S.Discharge, P.ExitThread, X.Activate, Coupled, P.ThreadAt;
      if Coupled(State()) { ExitSafe(State(), t, status); }
      var found := P.ThreadAt(processes.processes, t);
      if found.None? { return Some(Err(X.State(P.InvalidThread))); }
      if found.value.state.Exited? { return Some(Err(X.State(P.InvalidTransition))); }
      var removed := scheduler.Discharge(t);
      if removed.Err? { return Some(Err(Sched(removed.error))); }
      var exited := processes.ExitThread(t, status);
      if exited.None? || exited.value.Err? { return None; }
      var ok := Activate(removed.value.switch);
      if !ok { return None; }
      r := Some(Ok(ExitResult(removed.value, exited.value.value)));
    }

    // -------------------------------------------------------------- the process table alone

    method OnlineCpu(c: nat) returns (r: Result<bool, ExecError>)
      requires scheduler.Valid()
      modifies scheduler
      ensures scheduler.Valid() && Done(State(), r) == X.OnlineCpu(old(State()), c)
    {
      var online := scheduler.OnlineCpu(c);
      r := if online.Ok? then Ok(online.value) else Err(Sched(online.error));
    }

    method CreateProcess(parent: Option<nat>) returns (r: Result<nat, ExecError>)
      modifies processes
      ensures Done(State(), r) == X.CreateProcess(old(State()), parent)
    {
      hide P.CreateProcess;
      var made := processes.CreateProcess(parent);
      r := if made.Ok? then Ok(made.value) else Err(Create(made.error));
    }

    method DetachThread(t: nat) returns (r: Option<Result<(), P.StateError>>)
      modifies processes
      ensures TableAgrees(X.DetachThread(old(State()), t), State(), r)
      ensures old(Coupled(State())) ==> r.Some? && Coupled(State())
    {
      hide P.DetachThread, Coupled;
      if Coupled(State()) { DetachSafe(State(), t); }
      r := processes.DetachThread(t);
    }

    method JoinThread(t: nat) returns (r: Option<Result<P.ThreadExit, P.JoinError>>)
      modifies processes
      ensures TableAgrees(X.JoinThread(old(State()), t), State(), r)
      ensures old(Coupled(State())) ==> r.Some? && Coupled(State())
    {
      hide P.JoinThread, Coupled;
      if Coupled(State()) { JoinSafe(State(), t); }
      r := processes.JoinThread(t);
    }

    method ReapProcess(p: nat) returns (r: Option<Result<P.ProcessExit, P.ReapError>>)
      modifies processes
      ensures TableAgrees(X.ReapProcess(old(State()), p), State(), r)
      ensures old(Coupled(State())) ==> r.Some? && Coupled(State())
    {
      hide P.ReapProcess, Coupled;
      if Coupled(State()) { ReapSafe(State(), p); }
      r := processes.ReapProcess(p);
    }

    method OrphanChildren(p: nat) returns (orphans: Option<nat>)
      modifies processes
      ensures (State(), orphans) == X.OrphanChildren(old(State()), p)
    {
      hide P.OrphanChildren;
      orphans := processes.OrphanChildren(p);
    }

    /** Removes the threads of process `p` from the scheduler one by one, then the process. */
    method RollbackProcess(p: nat) returns (r: Option<Result<(), ExecError>>)
      requires scheduler.Valid()
      modifies processes, scheduler, scheduler.queues
      ensures Agrees(RT.RollbackProcess(old(State()), p), State(), r)
    {
      hide S.Discharge, P.RollbackProcess, P.ProcessAt, X.Activate;
      var found := P.ProcessAt(processes.processes, p);
      if found.None? { return Some(Err(X.State(P.InvalidThread))); }
      var threads := RT.Tids(found.value.threads);
      var k := 0;
      while k < |threads|
        invariant 0 <= k <= |threads| && scheduler.Valid()
        invariant RT.DischargeAll(State(), threads[k..]) == RT.DischargeAll(old(State()), threads)
      {
        assert threads[k..][1..] == threads[k + 1..];
        var removed := scheduler.Discharge(threads[k]);
        if removed.Err? { return Some(Err(Sched(removed.error))); }
        var ok := Activate(removed.value.switch);
        if !ok { return None; }
        k := k + 1;
      }
      var dropped := processes.RollbackProcess(p);
      r := Some(if dropped.Err? then Err(X.State(dropped.error)) else Ok(()));
    }
  }
}
