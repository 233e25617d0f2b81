/** Process identities over whole runs. */
module Ageing {
  import opened Common
  import R = RoundRobin
  import S = Scheduling
  import SI = SchedulingInvariant
  import B = Balance
  import P = Processes
  import PI = ProcessInvariant
  import opened Execution
  import opened Coupling
  import opened Runs

  /** Identities are never handed out twice, and an exited process never comes back to life: it keeps
      its exit record until it is reaped, and then its identity stays unused. */
  ghost predicate Aged(tb: P.Table, tb': P.Table) {
    && tb.nextProcess <= tb'.nextProcess
    && (forall p: nat {:trigger P.ProcessAt(tb'.processes, p)} :: p < tb.nextProcess ==>
          var was, now := P.ProcessAt(tb.processes, p), P.ProcessAt(tb'.processes, p);
          && (was.None? ==> now.None?)
          && (was.Some? && was.value.state.Exited? && now.Some? ==>
              now.value.state.Exited?
              && now.value.exit == was.value.exit))
  }

  lemma AgedTrans(a: P.Table, b: P.Table, c: P.Table)
    requires Aged(a, b) && Aged(b, c)
    ensures Aged(a, c)
  {
  }

  lemma CallAges(tb: P.Table, t: nat, call: P.ThreadCall)
    requires PI.TableInv(tb)
    ensures var tb' := P.CallThread(tb, t, call).0;
            PI.TableInv(tb') && Aged(tb, tb') && tb'.nextProcess == tb.nextProcess
  {
    PI.CallEffect(tb, t, call);
  }

  lemma ActivateAges(e: Exec, sw: Option<R.Switch>)
    requires PI.TableInv(e.table)
    ensures var r := Activate(e, sw);
            r.Some? ==>
              PI.TableInv(r.value.table) && Aged(e.table, r.value.table)
              && r.value.table.nextProcess == e.table.nextProcess
  {
    if sw.Some? { CallAges(e.table, sw.value.to, P.Run); }
  }

  /** A call followed by an activation, the shape of most operations. */
  lemma CallThenActivateAges(tb: P.Table, t: nat, call: P.ThreadCall, s: S.Smp, sw: Option<R.Switch>)
    requires PI.TableInv(tb)
    ensures var tb1 := P.CallThread(tb, t, call).0; var r := Activate(Exec(tb1, s), sw);
            && PI.TableInv(tb1) && Aged(tb, tb1) && tb1.nextProcess == tb.nextProcess
            && (r.Some? ==>
                PI.TableInv(r.value.table) && Aged(tb, r.value.table)
                && r.value.table.nextProcess == tb.nextProcess)
  {
    CallAges(tb, t, call);
    var tb1 := P.CallThread(tb, t, call).0;
    var r := Activate(Exec(tb1, s), sw);
    ActivateAges(Exec(tb1, s), sw);
    if r.Some? { AgedTrans(tb, tb1, r.value.table); }
  }

  ghost predicate AgedStep(e: Exec, r: Option<Exec>) {
    r.Some? ==> Aged(e.table, r.value.table) && r.value.table.nextProcess == e.table.nextProcess
  }

  lemma RotateAges(e: Exec, sw: Option<R.Switch>)
    requires PI.TableInv(e.table)
    ensures AgedStep(e, Rotate(e, sw))
  {
    if sw.Some? && sw.value.from.Some? {
      CallThenActivateAges(e.table, sw.value.from.value, P.Yield, e.sched, sw);
    }
  }

  lemma ApplyMigrationAges(e: Exec, t: nat, m: S.Migration)
    requires PI.TableInv(e.table)
    ensures AgedStep(e, ApplyMigration(e, t, m))
  {
    if !m.sourceWasCurrent {
      ActivateAges(e, m.destinationSwitch);
    } else {
      CallThenActivateAges(e.table, t, P.Yield, e.sched, m.sourceSwitch);
      var r := Activate(e.(table := P.CallThread(e.table, t, P.Yield).0), m.sourceSwitch);
      if r.Some? {
        ActivateAges(r.value, m.destinationSwitch);
        var r2 := Activate(r.value, m.destinationSwitch);
        if r2.Some? { AgedTrans(e.table, r.value.table, r2.value.table); }
      }
    }
  }

  lemma ExitAges(tb: P.Table, t: nat, status: nat)
    requires PI.TableInv(tb) && P.ExitThread(tb, t, status).Exits?
    ensures var tb' := P.ExitThread(tb, t, status).table;
            PI.TableInv(tb') && Aged(tb, tb') && tb'.nextProcess == tb.nextProcess
  {
    PI.ExitEffect(tb, t, status);
    PI.FoundThread(tb, t);
    PI.LiveOwner(tb, t);
  }

  /** A created thread's process is not exited; inserting keeps it so. */
  lemma AdmitCreatedAges(e: Exec, tb: P.Table, t: nat, affinity: set<nat>)
    requires PI.TableInv(tb) && Aged(e.table, tb) && tb.nextProcess == e.table.nextProcess
    requires S.Admit(e.sched, t, affinity).1.Ok?
    ensures AgedStep(e, Next(AdmitCreated(e, tb, t, affinity)))
  {
    var (s, r) := S.Admit(e.sched, t, affinity);
    ActivateAges(Exec(tb, s), r.value.switch);
    var e' := Activate(Exec(tb, s), r.value.switch);
    if e'.Some? { AgedTrans(e.table, tb, e'.value.table); }
  }

  lemma InsertAges(tb: P.Table, p: nat, t: nat, name: string)
    requires PI.TableInv(tb) && P.ValidateThreadCreation(tb, p).None? && P.ThreadAt(tb.processes, t).None?
    ensures var tb' := P.InsertThread(tb, p, t, name); Aged(tb, tb') && tb'.nextProcess == tb.nextProcess
  {
    PI.InsertEffect(tb, p, t, name);
  }

  lemma SuspendAges(e: Exec, t: nat, call: P.ThreadCall)
    requires PI.TableInv(e.table) && S.Shaped(e.sched)
    ensures AgedStep(e, Next(Suspend(e, t, call)))
  {
    var (s, r) := S.Block(e.sched, t);
    if r.Ok? { CallThenActivateAges(e.table, t, call, s, r.value.switch); }
  }

  lemma ResumeAges(e: Exec, t: nat, call: P.ThreadCall)
    requires PI.TableInv(e.table) && S.Shaped(e.sched)
    ensures AgedStep(e, Next(Resume(e, t, call)))
  {
    var (s, r) := S.Wake(e.sched, t);
    if r.Ok? { CallThenActivateAges(e.table, t, call, s, r.value.switch); }
  }

  lemma MigrateAges(e: Exec, t: nat, to: nat)
    requires PI.TableInv(e.table) && S.Shaped(e.sched)
    ensures AgedStep(e, Next(Migrate(e, t, to)))
  {
    hide PI.TableInv, ApplyMigration, P.ThreadAt, P.ProcessAt, S.Migrate;
    AgedRefl(e.table);
    var (s, r) := S.Migrate(e.sched, t, to);
    if r.Ok? { ApplyMigrationAges(e.(sched := s), t, r.value); }
  }

  lemma ParkAges(e: Exec, t: nat, call: P.ThreadCall)
    requires PI.TableInv(e.table) && S.Shaped(e.sched)
    ensures AgedStep(e, Next(Park(e, t, call)))
  {
    hide PI.TableInv, Suspend, P.ThreadAt, P.ProcessAt;
    SuspendAges(e, t, call);
    AgedRefl(e.table);
  }

  lemma WakeAges(e: Exec, t: nat)
    requires PI.TableInv(e.table) && S.Shaped(e.sched)
    ensures AgedStep(e, Next(WakeThread(e, t)))
  {
    hide PI.TableInv, Resume, P.ThreadAt, P.ProcessAt, P.CallThread;
    ResumeAges(e, t, P.Wake);
    CallAges(e.table, t, P.Wake);
    AgedRefl(e.table);
  }

  lemma StopAges(e: Exec, t: nat)
    requires PI.TableInv(e.table) && S.Shaped(e.sched)
    ensures AgedStep(e, Next(StopThread(e, t)))
  {
    hide PI.TableInv, Suspend, P.ThreadAt, P.ProcessAt, P.CallThread;
    SuspendAges(e, t, P.Stop);
    CallAges(e.table, t, P.Stop);
    AgedRefl(e.table);
  }

  lemma ContinueAges(e: Exec, t: nat)
    requires PI.TableInv(e.table) && S.Shaped(e.sched)
    ensures AgedStep(e, Next(ContinueThread(e, t)))
  {
    hide PI.TableInv, Resume, P.ThreadAt, P.ProcessAt, P.CallThread;
    ResumeAges(e, t, P.Continue);
    CallAges(e.table, t, P.Continue);
    AgedRefl(e.table);
  }

  lemma TickAges(e: Exec, c: nat)
    requires PI.TableInv(e.table)
    ensures AgedStep(e, Next(Tick(e, c))) && AgedStep(e, Next(Yield(e, c)))
  {
    hide PI.TableInv, Rotate, P.ProcessAt;
    var (s, r) := S.TickCpu(e.sched, c);
    if r.Ok? { RotateAges(e.(sched := s), r.value); }
    var (s1, r1) := S.YieldCpu(e.sched, c);
    if r1.Ok? { RotateAges(e.(sched := s1), r1.value); }
    AgedRefl(e.table);
  }

  lemma SetAffinityAges(e: Exec, t: nat, affinity: set<nat>)
    requires PI.TableInv(e.table) && S.Shaped(e.sched)
    ensures AgedStep(e, Next(SetAffinity(e, t, affinity)))
  {
    hide PI.TableInv, ApplyMigration, P.ThreadAt, P.ProcessAt, S.SetAffinity;
    var (s, r) := S.SetAffinity(e.sched, t, affinity);
    if r.Ok? { ApplyMigrationAges(e.(sched := s), t, r.value); }
    AgedRefl(e.table);
  }

  lemma RebalanceAges(e: Exec, eligible: set<nat>)
    requires PI.TableInv(e.table) && S.Shaped(e.sched)
    ensures AgedStep(e, Next(RebalanceOnce(e, eligible)))
  {
    hide PI.TableInv, Migrate, P.ProcessAt;
    var r := B.RebalancePlan(e.sched, eligible);
    if r.Ok? && r.value.Some? { MigrateAges(e, r.value.value.thread, r.value.value.to); }
    AgedRefl(e.table);
  }

  lemma ExitOpAges(e: Exec, t: nat, status: nat)
    requires Coupled(e) && S.Shaped(e.sched)
    ensures AgedStep(e, Next(ExitThread(e, t, status)))
  {
    hide P.ExitThread, P.ThreadAt, PI.TableInv, S.SmpInv, S.Discharge, Activate, Aged;
    AgedRefl(e.table);
    PI.ExitEffect(e.table, t, status);
    var (s, r) := S.Discharge(e.sched, t);
    if r.Ok? && P.ExitThread(e.table, t, status).Exits? {
      ExitAges(e.table, t, status);
      var tb := P.ExitThread(e.table, t, status).table;
      ActivateAges(Exec(tb, s), r.value.switch);
      var e' := Activate(Exec(tb, s), r.value.switch);
      if e'.Some? { AgedTrans(e.table, tb, e'.value.table); }
    }
  }

  lemma CreateThreadAges(e: Exec, p: nat, name: string, affinity: set<nat>)
    requires Coupled(e)
    ensures AgedStep(e, Next(CreateThread(e, p, name, affinity)))
  {
    hide AdmitCreated, P.ProcessAt, P.CreateThread;
    AgedRefl(e.table);
    if P.ValidateThreadCreation(e.table, p).None? && S.ValidateAdmission(e.sched, affinity).None? {
      PI.CreateThreadEffect(e.table, p, name);
      var (tb, r) := P.CreateThread(e.table, p, name);
      if r.Ok? {
        InsertAges(e.table, p, r.value, name);
        FreshAdmitted(e, r.value, affinity);
        AdmitCreatedAges(e, tb, r.value, affinity);
      }
    }
  }

  lemma CreateThreadWithIdAges(e: Exec, p: nat, t: nat, name: string, affinity: set<nat>)
    requires Coupled(e)
    ensures AgedStep(e, Next(CreateThreadWithId(e, p, t, name, affinity)))
  {
    hide AdmitCreated, P.ProcessAt;
    AgedRefl(e.table);
    if P.ValidateThreadCreation(e.table, p).None? && S.ValidateAdmission(e.sched, affinity).None?
        && ThreadAt(e, t).None? {
      PI.InsertEffect(e.table, p, t, name);
      InsertAges(e.table, p, t, name);
      FreshAdmitted(e, t, affinity);
      AdmitCreatedAges(e, P.InsertThread(e.table, p, t, name), t, affinity);
    }
  }

  lemma FreshAdmitted(e: Exec, t: nat, affinity: set<nat>)
    requires Coupled(e) && S.ValidateAdmission(e.sched, affinity).None? && ThreadAt(e, t).None?
    ensures S.Admit(e.sched, t, affinity).1.Ok?
  {
    assert Linked(ThreadAt(e, t), S.Where(e.sched, t));
    SI.AdmitEffect(e.sched, t, affinity);
  }

  lemma DetachAges(e: Exec, t: nat)
    requires PI.TableInv(e.table)
    ensures AgedStep(e, TableNext(DetachThread(e, t)))
  {
    PI.DetachEffect(e.table, t);
  }

  lemma JoinAges(e: Exec, t: nat)
    requires PI.TableInv(e.table)
    ensures AgedStep(e, TableNext(JoinThread(e, t)))
  {
    PI.JoinThreadEffect(e.table, t);
  }

  lemma ReapAges(e: Exec, p: nat)
    requires PI.TableInv(e.table)
    ensures AgedStep(e, TableNext(ReapProcess(e, p)))
  {
    PI.ReapEffect(e.table, p);
  }

  lemma OrphanAges(e: Exec, p: nat)
    requires PI.TableInv(e.table)
    ensures AgedStep(e, Some(OrphanChildren(e, p).0))
  {
    PI.OrphanEffect(e.table, p);
  }

  lemma CreateProcessAges(e: Exec, parent: Option<nat>)
    requires PI.TableInv(e.table) && !Reuses(e, parent)
    ensures var e' := CreateProcess(e, parent).exec;
            Aged(e.table, e'.table) && e'.table.nextProcess <= e.table.nextProcess + 1
  {
    if PI.FreshIdentity(e.table) { PI.CreateProcessEffect(e.table, parent); }
  }

  /** One call ages the process table. */
  lemma StepAges(e: Exec, op: Op)
    requires Coupled(e) && S.Shaped(e.sched) && Step(e, op).Some?
    requires !Repeats(e, op)
    ensures Aged(e.table, Step(e, op).value.table)
    ensures Step(e, op).value.table.nextProcess <= e.table.nextProcess + if op.CreateProcessOp? then 1 else 0
  {
    hide PI.TableInv, Aged, AllLinked, S.SmpInv;
    hide CreateProcess, CreateThread, CreateThreadWithId, Tick, Yield, Park, WakeThread, StopThread;
    hide ContinueThread, SetAffinity, Migrate, RebalanceOnce, ExitThread, DetachThread, JoinThread, ReapProcess,
        OrphanChildren;
    match op
    case OnlineOp(c) => AgedRefl(e.table);
    case CreateProcessOp(parent) => CreateProcessAges(e, parent);
    case CreateThreadOp(p, name, affinity) => CreateThreadAges(e, p, name, affinity);
    case CreateThreadWithIdOp(p, t, name, affinity) => CreateThreadWithIdAges(e, p, t, name, affinity);
    case TickOp(c) => TickAges(e, c);
    case YieldOp(c) => TickAges(e, c);
    case BlockOp(t) => ParkAges(e, t, P.Block);
    case SleepOp(t) => ParkAges(e, t, P.Sleep);
    case WakeOp(t) => WakeAges(e, t);
    case StopOp(t) => StopAges(e, t);
    case ContinueOp(t) => ContinueAges(e, t);
    case SetAffinityOp(t, affinity) => SetAffinityAges(e, t, affinity);
    case MigrateOp(t, c) => MigrateAges(e, t, c);
    case RebalanceOp(eligible) => RebalanceAges(e, eligible);
    case ExitOp(t, status) => ExitOpAges(e, t, status);
    case DetachOp(t) => DetachAges(e, t);
    case JoinOp(t) => JoinAges(e, t);
    case ReapOp(p) => ReapAges(e, p);
    case OrphanOp(p) => OrphanAges(e, p);
  }

  lemma AgedRefl(tb: P.Table)
    ensures Aged(tb, tb)
  {
  }

  /** Safety of whole runs. From a coupled state every sequence of calls completes without a panic and ends
      coupled, unless it creates a process under an identity in use; identities below the counter are never
      reused and exited processes stay exited. */
  lemma {:induction false} RunsAreSafe(e: Exec, ops: seq<Op>)
    requires Coupled(e) && Fresh(e, ops)
    ensures Run(e, ops).Some? && Coupled(Run(e, ops).value)
    ensures Aged(e.table, Run(e, ops).value.table)
    ensures Run(e, ops).value.table.nextProcess <= e.table.nextProcess + Creations(ops)
  {
    hide Coupled, Step;
    if ops == [] {
      AgedRefl(e.table);
    } else {
      var front, op := ops[..|ops| - 1], ops[|ops| - 1];
      RunsAreSafe(e, front);
      var e1 := Run(e, front).value;
      StepSafe(e1, op);
      StepAges(e1, op);
      AgedTrans(e.table, e1.table, Step(e1, op).value.table);
    }
  }

  /** The condition on identities is exact: every state of a run is coupled iff no call of the run creates a
      process under an identity in use. */
  lemma RunsCoupledIffFresh(e: Exec, ops: seq<Op>)
    requires Coupled(e)
    ensures Fresh(e, ops) <==> forall n {:trigger ops[..n]} :: 0 <= n <= |ops| ==>
              Run(e, ops[..n]).Some? && Coupled(Run(e, ops[..n]).value)
  {
    hide Coupled, Step;
    if Fresh(e, ops) {
      forall n {:trigger ops[..n]} | 0 <= n <= |ops| ensures Run(e, ops[..n]).Some? && Coupled(Run(e, ops[..n]).value) {
        FreshPrefix(e, ops, n);
        RunsAreSafe(e, ops[..n]);
      }
    } else {
      var n := FirstRepeat(e, ops);
      var e1 := Run(e, ops[..n]).value;
      StepSafe(e1, ops[n]);
      assert ops[..n + 1][..n] == ops[..n];
    }
  }

  /** The first call of a run that creates a process under an identity in use. */
  lemma {:induction false} FirstRepeat(e: Exec, ops: seq<Op>) returns (n: nat)
    requires Coupled(e) && !Fresh(e, ops)
    ensures n < |ops| && Run(e, ops[..n]).Some? && Coupled(Run(e, ops[..n]).value)
            && Repeats(Run(e, ops[..n]).value, ops[n])
  {
    hide Coupled, Step, Repeats;
    var front := ops[..|ops| - 1];
    if Fresh(e, front) {
      RunsAreSafe(e, front);
      n := |front|;
    } else {
      n := FirstRepeat(e, front);
      assert front[..n] == ops[..n];
    }
  }

  /** While the counter has room for every process the run creates, no identity is used twice. */
  lemma {:induction false} RoomIsFresh(e: Exec, ops: seq<Op>)
    requires Coupled(e) && e.table.nextProcess + Creations(ops) <= U64_MAX
    ensures Fresh(e, ops)
  {
    hide Step;
    if ops != [] {
      var front := ops[..|ops| - 1];
      RoomIsFresh(e, front);
      RunsAreSafe(e, front);
      if ops[|ops| - 1].CreateProcessOp? { PI.FreshBelowLast(Run(e, front).value.table); }
    }
  }
}
