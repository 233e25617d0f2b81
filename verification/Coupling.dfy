/** The coupling invariant between process lifecycle and SMP scheduling, kept by every operation
    of the coordinator; under it no `expect` fails. */
module Coupling {
  import opened Common
  import R = RoundRobin
  import S = Scheduling
  import SI = SchedulingInvariant
  import B = Balance
  import P = Processes
  import PI = ProcessInvariant
  import opened Execution

  /** A thread's lifecycle state and its place in the scheduler say the same thing. */
  predicate Linked(th: Option<P.Thread>, place: S.Place) {
    match place
    case Absent => th.None? || th.value.state.Exited?
    case Parked(_) => th.Some? && (th.value.state.Blocked? || th.value.state.Sleeping? || th.value.state.Stopped?)
    case Queued(_) => th.Some? && th.value.state.Runnable?
    case OnCpu(_) => th.Some? && th.value.state.Running?
  }

  ghost predicate AllLinked(e: Exec) {
    forall t {:trigger ThreadAt(e, t)} {:trigger S.Where(e.sched, t)} :: Linked(ThreadAt(e, t), S.Where(e.sched, t))
  }

  ghost predicate Coupled(e: Exec) {
    PI.TableInv(e.table) && S.SmpInv(e.sched) && AllLinked(e)
  }

  lemma CoupledShaped(e: Exec)
    requires Coupled(e)
    ensures S.Shaped(e.sched)
  {
    S.InvShaped(e.sched);
  }

  /** A thread up to whether it currently has the CPU. */
  function Calm(th: Option<P.Thread>): Option<P.Thread> {
    if th.Some? && th.value.state.Running? then Some(th.value.(state := P.Runnable)) else th
  }

  /** Threads other than `t` at most gained or lost the CPU. */
  ghost predicate OthersCalm(e: Exec, e': Exec, t: nat) {
    forall x {:trigger ThreadAt(e', x)} :: x != t ==> Calm(ThreadAt(e', x)) == Calm(ThreadAt(e, x))
  }

  ghost predicate AllCalm(e: Exec, e': Exec) {
    forall x {:trigger ThreadAt(e', x)} :: Calm(ThreadAt(e', x)) == Calm(ThreadAt(e, x))
  }

  /** No panic, the invariant holds afterwards, and a refused call changes nothing. */
  ghost predicate Safe<T>(e: Exec, r: Outcome<T>) {
    r.Done? && Coupled(r.exec) && (r.result.Err? ==> r.exec == e)
  }

  /** Activation succeeds on a runnable thread and changes only it. */
  lemma ActivateEffect(e: Exec, sw: Option<R.Switch>)
    requires PI.TableInv(e.table)
    requires sw.Some? ==> ThreadAt(e, sw.value.to).Some? && ThreadAt(e, sw.value.to).value.state.Runnable?
    ensures var r := Activate(e, sw);
            && r.Some? && r.value.sched == e.sched && PI.TableInv(r.value.table)
            && (forall x :: ThreadAt(r.value, x) ==
                  if sw.Some? && x == sw.value.to then Some(ThreadAt(e, x).value.(state := P.ThreadState.Running))
                  else ThreadAt(e, x))
  {
    if sw.Some? { PI.CallEffect(e.table, sw.value.to, P.Run); }
  }

  /** Suspending a standing thread parks it and promotes the next in line. */
  lemma SuspendSafe(e: Exec, t: nat, call: P.ThreadCall)
    requires Coupled(e) && SI.Standing(S.Where(e.sched, t)) && (call.Block? || call.Sleep? || call.Stop?)
    ensures S.Shaped(e.sched)
    ensures var r := Suspend(e, t, call);
            && r.Done? && r.result.Ok? && Coupled(r.exec) && OthersCalm(e, r.exec, t)
            && ThreadAt(r.exec, t) == Some(P.After(ThreadAt(e, t).value, call).value)
  {
    hide PI.TableInv;
    hide S.SmpInv;
    hide P.ThreadAt;
    hide P.CallThread;
    SI.BlockEffect(e.sched, t);
    StandingStops(e, t, call);
    PI.CallEffect(e.table, t, call);
    var (s, r) := S.Block(e.sched, t);
    var tb := P.CallThread(e.table, t, call).0;
    var sw := r.value.switch;
    if sw.Some? { assert Linked(ThreadAt(e, sw.value.to), S.Where(e.sched, sw.value.to)); }
    ActivateEffect(Exec(tb, s), sw);
    var e' := Activate(Exec(tb, s), sw).value;
    forall x ensures Linked(ThreadAt(e', x), S.Where(s, x)) {
      assert Linked(ThreadAt(e, x), S.Where(e.sched, x));
    }
  }

  lemma StandingStops(e: Exec, t: nat, call: P.ThreadCall)
    requires Coupled(e) && SI.Standing(S.Where(e.sched, t)) && (call.Block? || call.Sleep? || call.Stop?)
    ensures ThreadAt(e, t).Some? && P.After(ThreadAt(e, t).value, call).Ok?
    ensures P.After(ThreadAt(e, t).value, call).value.state in {P.Blocked, P.Sleeping, P.Stopped}
  {
    assert Linked(ThreadAt(e, t), S.Where(e.sched, t));
    PI.FoundThread(e.table, t);
  }

  /** The thread stands in line where the reported placement says. */
  ghost predicate Placed(e: Exec, p: S.Placement) {
    SI.Standing(S.Where(e.sched, p.thread)) && S.Where(e.sched, p.thread).cpu == p.cpu
  }

  /** Resuming a parked thread puts it in line, or straight on an idle CPU. */
  lemma ResumeSafe(e: Exec, t: nat, call: P.ThreadCall)
    requires Coupled(e) && S.Where(e.sched, t).Parked?
    requires ThreadAt(e, t).Some? && P.After(ThreadAt(e, t).value, call).Ok?
    requires P.After(ThreadAt(e, t).value, call).value.state.Runnable?
    ensures S.Shaped(e.sched)
    ensures var r := Resume(e, t, call);
            && r.Done? && r.result.Ok? && r.result.value.Some? && Coupled(r.exec) && OthersCalm(e, r.exec, t)
            && Calm(ThreadAt(r.exec, t)) == Some(P.After(ThreadAt(e, t).value, call).value)
            && r.result.value.value.placement.thread == t && Placed(r.exec, r.result.value.value.placement)
  {
    hide PI.TableInv;
    hide S.SmpInv;
    hide P.ThreadAt;
    hide P.CallThread;
    SI.WakeEffect(e.sched, t);
    PI.CallEffect(e.table, t, call);
    var (s, r) := S.Wake(e.sched, t);
    var tb := P.CallThread(e.table, t, call).0;
    var sw := r.value.switch;
    ActivateEffect(Exec(tb, s), sw);
    var e' := Activate(Exec(tb, s), sw).value;
    forall x ensures Linked(ThreadAt(e', x), S.Where(s, x)) {
      assert Linked(ThreadAt(e, x), S.Where(e.sched, x));
    }
  }

  /** A lifecycle call on a parked thread that leaves it parked needs no scheduler change. */
  lemma ParkedCallSafe(e: Exec, t: nat, call: P.ThreadCall)
    requires Coupled(e) && S.Where(e.sched, t).Parked?
    requires ThreadAt(e, t).Some? && P.After(ThreadAt(e, t).value, call).Ok?
    requires P.After(ThreadAt(e, t).value, call).value.state in {P.Blocked, P.Sleeping, P.Stopped}
    ensures var (tb, r) := P.CallThread(e.table, t, call); var e' := e.(table := tb);
            && r.Ok? && Coupled(e') && OthersCalm(e, e', t)
            && ThreadAt(e', t) == Some(P.After(ThreadAt(e, t).value, call).value)
  {
    hide PI.TableInv;
    hide S.SmpInv;
    hide P.ThreadAt;
    PI.CallEffect(e.table, t, call);
    var e' := e.(table := P.CallThread(e.table, t, call).0);
    forall x ensures Linked(ThreadAt(e', x), S.Where(e.sched, x)) {
      assert Linked(ThreadAt(e, x), S.Where(e.sched, x));
    }
  }

  /** `block_thread` and `sleep_thread` succeed exactly on runnable and running threads. */
  lemma ParkSafe(e: Exec, t: nat, call: P.ThreadCall)
    requires Coupled(e) && (call.Block? || call.Sleep?)
    ensures S.Shaped(e.sched)
    ensures var r := Park(e, t, call); var th := ThreadAt(e, t);
            && Safe(e, r)
            && (r.result.Ok? <==> th.Some? && (th.value.state.Runnable? || th.value.state.Running?))
            && OthersCalm(e, r.exec, t)
            && (r.result.Ok? ==> ThreadAt(r.exec, t) == Some(P.After(th.value, call).value))
  {
    CoupledShaped(e);
    var th := ThreadAt(e, t);
    assert Linked(th, S.Where(e.sched, t));
    if th.Some? && (th.value.state.Runnable? || th.value.state.Running?) { SuspendSafe(e, t, call); }
  }

  /** `wake_thread` succeeds exactly on waiting threads, stopped or not. A stopped one stays parked
      and remembers the wake; the others stand in line at once. */
  lemma WakeSafe(e: Exec, t: nat)
    requires Coupled(e)
    ensures S.Shaped(e.sched)
    ensures var r := WakeThread(e, t); var th := ThreadAt(e, t);
            && Safe(e, r)
            && (r.result.Ok? <==> th.Some? && (th.value.state.Blocked? || th.value.state.Sleeping?
                                               || (th.value.state.Stopped? && th.value.resume != Some(P.Runnable))))
            && OthersCalm(e, r.exec, t)
            && (r.result.Ok? ==> P.After(th.value, P.Wake).Ok?
                                 && Calm(ThreadAt(r.exec, t)) == Some(P.After(th.value, P.Wake).value))
            && (r.result.Ok? ==> (r.result.value.None? <==> th.value.state.Stopped?))
            && (r.result.Ok? && r.result.value.Some? ==> Placed(r.exec, r.result.value.value.placement))
  {
    CoupledShaped(e);
    var th := ThreadAt(e, t);
    assert Linked(th, S.Where(e.sched, t));
    if th.Some? {
      if th.value.state.Blocked? || th.value.state.Sleeping? {
        ResumeSafe(e, t, P.Wake);
      } else if P.After(th.value, P.Wake).Ok? {
        ParkedCallSafe(e, t, P.Wake);
      } else {
        PI.CallEffect(e.table, t, P.Wake);
      }
    }
  }

  /** `stop_thread` succeeds exactly on threads that are neither stopped nor exited. */
  lemma StopSafe(e: Exec, t: nat)
    requires Coupled(e)
    ensures S.Shaped(e.sched)
    ensures var r := StopThread(e, t); var th := ThreadAt(e, t);
            && Safe(e, r)
            && (r.result.Ok? <==> th.Some? && !th.value.state.Stopped? && !th.value.state.Exited?)
            && OthersCalm(e, r.exec, t)
            && (r.result.Ok? ==>
                P.After(th.value, P.Stop).Ok?
                && ThreadAt(r.exec, t) == Some(P.After(th.value, P.Stop).value))
  {
    CoupledShaped(e);
    var th := ThreadAt(e, t);
    assert Linked(th, S.Where(e.sched, t));
    if th.Some? {
      if th.value.state.Runnable? || th.value.state.Running? {
        StandingStops(e, t, P.Stop);
        SuspendSafe(e, t, P.Stop);
      } else if th.value.state.Blocked? || th.value.state.Sleeping? {
        PI.FoundThread(e.table, t);
        ParkedCallSafe(e, t, P.Stop);
      }
    }
  }

  /** `continue_thread` succeeds exactly on stopped threads; one whose wait is over stands in line. */
  lemma ContinueSafe(e: Exec, t: nat)
    requires Coupled(e)
    ensures S.Shaped(e.sched)
    ensures var r := ContinueThread(e, t); var th := ThreadAt(e, t);
            && Safe(e, r)
            && (r.result.Ok? <==> th.Some? && th.value.state.Stopped?)
            && OthersCalm(e, r.exec, t)
            && (r.result.Ok? ==>
                  && P.After(th.value, P.Continue).Ok?
                  && Calm(ThreadAt(r.exec, t)) == Some(P.After(th.value, P.Continue).value)
                  && (th.value.resume == Some(P.Runnable) <==> SI.Standing(S.Where(r.exec.sched, t)))
                  && (r.result.value.Some? ==> Placed(r.exec, r.result.value.value.placement)))
  {
    hide PI.TableInv, S.SmpInv, P.ThreadAt, P.CallThread, Resume;
    CoupledShaped(e);
    var th := ThreadAt(e, t);
    assert Linked(th, S.Where(e.sched, t));
    if th.Some? && th.value.state.Stopped? {
      PI.FoundThread(e.table, t);
      if th.value.resume.value.Runnable? {
        ResumeSafe(e, t, P.Continue);
      } else {
        ParkedCallSafe(e, t, P.Continue);
      }
    }
  }

  /** Following a rotation of one CPU's line. */
  lemma RotateSafe(e: Exec, s: S.Smp, c: nat, sw: Option<R.Switch>)
    requires Coupled(e) && S.SmpInv(s) && SI.Rotated(e.sched, s, c, sw)
    ensures var r := Rotate(e.(sched := s), sw);
            && r.Some? && r.value.sched == s && Coupled(r.value) && AllCalm(e, r.value)
  {
    hide PI.TableInv;
    hide S.SmpInv;
    hide P.ThreadAt;
    hide P.CallThread;
    if sw.None? {
      forall x ensures Linked(ThreadAt(e, x), S.Where(s, x)) {
        assert Linked(ThreadAt(e, x), S.Where(e.sched, x));
      }
    } else {
      var from, to := sw.value.from.value, sw.value.to;
      assert Linked(ThreadAt(e, from), S.Where(e.sched, from));
      assert Linked(ThreadAt(e, to), S.Where(e.sched, to));
      PI.CallEffect(e.table, from, P.Yield);
      var e1 := Exec(P.CallThread(e.table, from, P.Yield).0, s);
      ActivateEffect(e1, sw);
      var e' := Activate(e1, sw).value;
      forall x ensures Linked(ThreadAt(e', x), S.Where(s, x)) {
        assert Linked(ThreadAt(e, x), S.Where(e.sched, x));
      }
    }
  }

  lemma TickSafe(e: Exec, c: nat)
    requires Coupled(e)
    ensures var r := Tick(e, c);
            Safe(e, r) && (r.result.Ok? <==> c in e.sched.online) && AllCalm(e, r.exec)
            && r.exec.sched == S.TickCpu(e.sched, c).0
  {
    SI.TickCpuEffect(e.sched, c);
    var (s, r) := S.TickCpu(e.sched, c);
    if r.Ok? { RotateSafe(e, s, c, r.value); }
  }

  lemma YieldSafe(e: Exec, c: nat)
    requires Coupled(e)
    ensures var r := Yield(e, c);
            Safe(e, r) && (r.result.Ok? <==> c in e.sched.online) && AllCalm(e, r.exec)
            && r.exec.sched == S.YieldCpu(e.sched, c).0
  {
    SI.YieldCpuEffect(e.sched, c);
    var (s, r) := S.YieldCpu(e.sched, c);
    if r.Ok? { RotateSafe(e, s, c, r.value); }
  }

  /** The thread that leaves the CPU for another yields first. */
  lemma YieldMigrant(e: Exec, s: S.Smp, t: nat, m: S.Migration)
    requires Coupled(e) && SI.Relocated(e.sched, s, t, m) && m.sourceWasCurrent
    ensures var (tb, r) := P.CallThread(e.table, t, P.Yield); var e1 := Exec(tb, s);
            && r.Ok? && PI.TableInv(tb)
            && (forall x :: ThreadAt(e1, x) == if x == t then Calm(ThreadAt(e, t)) else ThreadAt(e, x))
            && ThreadAt(e1, t).Some? && ThreadAt(e1, t).value.state.Runnable?
  {
    hide P.ThreadAt;
    hide S.SmpInv;
    assert Linked(ThreadAt(e, t), S.Where(e.sched, t));
    PI.CallEffect(e.table, t, P.Yield);
  }

  /** Following a migration: the freed CPU promotes its next thread, an idle target starts the
      migrant. */
  lemma RelocateSafe(e: Exec, s: S.Smp, t: nat, m: S.Migration)
    requires Coupled(e) && S.SmpInv(s) && SI.Relocated(e.sched, s, t, m)
    ensures var r := ApplyMigration(e.(sched := s), t, m);
            && r.Some? && r.value.sched == s && Coupled(r.value) && AllCalm(e, r.value)
  {
    hide PI.TableInv;
    hide S.SmpInv;
    hide P.ThreadAt;
    hide P.CallThread;
    hide Activate;
    assert Linked(ThreadAt(e, t), S.Where(e.sched, t));
    var e1 := e.(sched := s);
    if m.sourceWasCurrent {
      YieldMigrant(e, s, t, m);
      e1 := Exec(P.CallThread(e.table, t, P.Yield).0, s);
    }
    if m.sourceSwitch.Some? {
      var u := m.sourceSwitch.value.to;
      assert Linked(ThreadAt(e, u), S.Where(e.sched, u));
    }
    ActivateEffect(e1, m.sourceSwitch);
    var e2 := Activate(e1, m.sourceSwitch).value;
    ActivateEffect(e2, m.destinationSwitch);
    var e' := Activate(e2, m.destinationSwitch).value;
    NoSwitch(e1);
    forall x ensures Linked(ThreadAt(e', x), S.Where(s, x)) {
      assert Linked(ThreadAt(e, x), S.Where(e.sched, x));
    }
  }

  lemma NoSwitch(e: Exec)
    ensures Activate(e, None) == Some(e)
  {
  }

  /** `set_affinity` succeeds exactly on live threads with a valid mask. */
  lemma SetAffinitySafe(e: Exec, t: nat, affinity: set<nat>)
    requires Coupled(e)
    ensures S.Shaped(e.sched)
    ensures var r := SetAffinity(e, t, affinity); var th := ThreadAt(e, t);
            && Safe(e, r) && AllCalm(e, r.exec)
            && (r.result.Ok? <==> th.Some? && !th.value.state.Exited? && S.ValidateAffinity(e.sched, affinity).None?)
            && (th.Some? && !th.value.state.Exited? ==> r.exec.sched == S.SetAffinity(e.sched, t, affinity).0)
  {
    CoupledShaped(e);
    SI.SetAffinityEffect(e.sched, t, affinity);
    assert Linked(ThreadAt(e, t), S.Where(e.sched, t));
    var (s, r) := S.SetAffinity(e.sched, t, affinity);
    if r.Ok? { RelocateSafe(e, s, t, r.value); }
  }

  /** `migrate` succeeds exactly on live threads allowed on an online target. */
  lemma MigrateSafe(e: Exec, t: nat, to: nat)
    requires Coupled(e)
    ensures S.Shaped(e.sched)
    ensures var r := Migrate(e, t, to); var th := ThreadAt(e, t);
            && Safe(e, r) && AllCalm(e, r.exec)
            && (r.result.Ok? <==> th.Some? && !th.value.state.Exited? && to in e.sched.online
                                  && S.Assigned(e.sched, t).Some? && to in S.Assigned(e.sched, t).value.affinity)
            && (th.Some? && !th.value.state.Exited? ==> r.exec.sched == S.Migrate(e.sched, t, to).0)
  {
    CoupledShaped(e);
    SI.MigrateEffect(e.sched, t, to);
    assert Linked(ThreadAt(e, t), S.Where(e.sched, t));
    var (s, r) := S.Migrate(e.sched, t, to);
    if r.Ok? { RelocateSafe(e, s, t, r.value); }
  }

  /** `exit_thread` succeeds exactly on live threads and takes them off the scheduler. */
  lemma ExitSafe(e: Exec, t: nat, status: nat)
    requires Coupled(e)
    ensures S.Shaped(e.sched)
    ensures var r := ExitThread(e, t, status); var th := ThreadAt(e, t);
            && Safe(e, r)
            && (r.result.Ok? <==> th.Some? && !th.value.state.Exited?)
            && OthersCalm(e, r.exec, t)
            && (r.result.Ok? ==> S.Where(r.exec.sched, t) == S.Absent)
            && (r.result.Ok? ==>
                  ThreadAt(r.exec, t) == if th.value.detached then None else Some(PI.ExitedThread(th.value, status)))
  {
    hide PI.TableInv;
    hide S.SmpInv;
    hide P.ThreadAt;
    hide P.ExitThread;
    hide Activate;
    SI.DischargeEffect(e.sched, t);
    PI.ExitEffect(e.table, t, status);
    var th := ThreadAt(e, t);
    assert Linked(th, S.Where(e.sched, t));
    if th.Some? && !th.value.state.Exited? {
      var (s, r) := S.Discharge(e.sched, t);
      var tb := P.ExitThread(e.table, t, status).table;
      var sw := r.value.switch;
      if sw.Some? { assert Linked(ThreadAt(e, sw.value.to), S.Where(e.sched, sw.value.to)); }
      ActivateEffect(Exec(tb, s), sw);
      var e' := Activate(Exec(tb, s), sw).value;
      forall x ensures Linked(ThreadAt(e', x), S.Where(s, x)) {
        assert Linked(ThreadAt(e, x), S.Where(e.sched, x));
      }
    }
  }

  /** Admission of a thread just inserted cannot fail once it was validated, so the rollback path of
      thread creation is dead. */
  lemma AdmitCreatedSafe(e: Exec, tb: P.Table, t: nat, th: P.Thread, affinity: set<nat>)
    requires Coupled(e) && S.ValidateAdmission(e.sched, affinity).None? && ThreadAt(e, t).None?
    requires PI.TableInv(tb) && th.state.Runnable?
    requires forall x :: P.ThreadAt(tb.processes, x) == if x == t then Some(th) else ThreadAt(e, x)
    ensures var r := AdmitCreated(e, tb, t, affinity);
            && r.Done? && r.result.Ok? && Coupled(r.exec) && OthersCalm(e, r.exec, t)
            && r.result.value.placement.thread == t
                && SI.IsLeast(e.sched, affinity, |e.sched.queues|, r.result.value.placement.cpu)
            && Calm(ThreadAt(r.exec, t)) == Some(th) && Placed(r.exec, r.result.value.placement)
            && r.exec.sched == S.Admit(e.sched, t, affinity).0
  {
    hide PI.TableInv;
    hide S.SmpInv;
    hide P.ThreadAt;
    hide Activate;
    assert Linked(ThreadAt(e, t), S.Where(e.sched, t));
    SI.AdmitEffect(e.sched, t, affinity);
    var (s, r) := S.Admit(e.sched, t, affinity);
    ActivateEffect(Exec(tb, s), r.value.switch);
    var e' := Activate(Exec(tb, s), r.value.switch).value;
    forall x ensures Linked(ThreadAt(e', x), S.Where(s, x)) {
      assert Linked(ThreadAt(e, x), S.Where(e.sched, x));
    }
  }

  /** `create_thread` fails only on the two validations or when identities are exhausted. */
  lemma CreateThreadSafe(e: Exec, p: nat, name: string, affinity: set<nat>)
    requires Coupled(e)
    ensures var r := CreateThread(e, p, name, affinity);
            && Safe(e, r)
            && (r.result.Ok? <==>
                P.ValidateThreadCreation(e.table, p).None?
                && S.ValidateAdmission(e.sched, affinity).None?
                && P.FreeThreadId(e.table.processes, e.table.nextThread).Some?)
            && (r.result.Ok? ==> var t := r.result.value.placement.thread;
                  && Some(t) == P.FreeThreadId(e.table.processes, e.table.nextThread) && ThreadAt(e, t).None?
                  && SI.IsLeast(e.sched, affinity, |e.sched.queues|, r.result.value.placement.cpu)
                  && OthersCalm(e, r.exec, t) && Calm(ThreadAt(r.exec, t)) == Some(P.NewThread(p, t, name))
                  && Placed(r.exec, r.result.value.placement))
  {
    if P.ValidateThreadCreation(e.table, p).None? && S.ValidateAdmission(e.sched, affinity).None? {
      PI.CreateThreadEffect(e.table, p, name);
      var (tb, r) := P.CreateThread(e.table, p, name);
      if r.Ok? {
        PI.InsertEffect(e.table, p, r.value, name);
        AdmitCreatedSafe(e, tb, r.value, P.NewThread(p, r.value, name), affinity);
      }
    }
  }

  /** `create_thread_with_id` fails only on the two validations or on a known identity. */
  lemma CreateThreadWithIdSafe(e: Exec, p: nat, t: nat, name: string, affinity: set<nat>)
    requires Coupled(e)
    ensures var r := CreateThreadWithId(e, p, t, name, affinity);
            && Safe(e, r)
            && (r.result.Ok? <==>
                P.ValidateThreadCreation(e.table, p).None?
                && S.ValidateAdmission(e.sched, affinity).None?
                && ThreadAt(e, t).None?)
            && (r.result.Ok? ==>
                  && r.result.value.placement.thread == t
                      && SI.IsLeast(e.sched, affinity, |e.sched.queues|, r.result.value.placement.cpu)
                  && OthersCalm(e, r.exec, t) && Calm(ThreadAt(r.exec, t)) == Some(P.NewThread(p, t, name))
                  && Placed(r.exec, r.result.value.placement))
  {
    if P.ValidateThreadCreation(e.table, p).None? && S.ValidateAdmission(e.sched, affinity).None?
        && ThreadAt(e, t).None? {
      PI.InsertEffect(e.table, p, t, name);
      AdmitCreatedSafe(e, P.InsertThread(e.table, p, t, name), t, P.NewThread(p, t, name), affinity);
    }
  }

  lemma OnlineCpuSafe(e: Exec, c: nat)
    requires Coupled(e)
    ensures Safe(e, OnlineCpu(e, c)) && AllCalm(e, OnlineCpu(e, c).exec)
    ensures OnlineCpu(e, c).result.Ok? <==> c < |e.sched.queues|
  {
    SI.OnlineCpuEffect(e.sched, c);
    var s := S.OnlineCpu(e.sched, c).0;
    forall x ensures Linked(ThreadAt(e, x), S.Where(s, x)) {
      assert Linked(ThreadAt(e, x), S.Where(e.sched, x));
    }
  }

  lemma CreateProcessSafe(e: Exec, parent: Option<nat>)
    requires Coupled(e) && PI.FreshIdentity(e.table)
    ensures Safe(e, CreateProcess(e, parent)) && AllCalm(e, CreateProcess(e, parent).exec)
  {
    PI.CreateProcessEffect(e.table, parent);
    var tb := P.CreateProcess(e.table, parent).0;
    forall x ensures Linked(P.ThreadAt(tb.processes, x), S.Where(e.sched, x)) {
      assert Linked(ThreadAt(e, x), S.Where(e.sched, x));
    }
  }

  /** Process creation gives away an identity in use, which a saturated counter makes it do. */
  predicate Reuses(e: Exec, parent: Option<nat>) {
    P.CreateProcess(e.table, parent).1.Ok? && !PI.FreshIdentity(e.table)
  }

  /** Process creation keeps the coupling iff it does not give away an identity in use. */
  lemma CreateProcessExactly(e: Exec, parent: Option<nat>)
    requires Coupled(e)
    ensures Coupled(CreateProcess(e, parent).exec) <==> !Reuses(e, parent)
    ensures CreateProcess(e, parent).Done? && (!Reuses(e, parent) ==> AllCalm(e, CreateProcess(e, parent).exec))
  {
    if PI.FreshIdentity(e.table) {
      CreateProcessSafe(e, parent);
    } else if P.CreateProcess(e.table, parent).1.Ok? {
      PI.UniqueIffUnused(e.table, parent);
    }
  }

  /** One balancing step: it moves a thread iff a legal move exists, keeps the total load and lowers the
      imbalance by at least two. */
  lemma RebalanceSafe(e: Exec, eligible: set<nat>)
    requires Coupled(e)
    ensures S.Shaped(e.sched)
    ensures var r := RebalanceOnce(e, eligible);
            && Safe(e, r) && AllCalm(e, r.exec)
            && (r.result.Ok? <==> S.ValidateAffinity(e.sched, eligible).None?)
            && (r.result.Ok? ==>
                  (r.result.value.None? <==> forall t: nat, from: nat,
                      to: nat :: !B.LegalMove(e.sched, eligible, t, from, to)))
            && (r.result.Ok? && r.result.value.None? ==> r.exec == e)
            && (r.result.Ok? && r.result.value.Some? ==>
                  && B.SoundPlan(e.sched, eligible, r.result.value.value.plan)
                  && r.result.value.value.migration.placement.migrated
                  && B.TotalLoad(r.exec.sched.queues) == B.TotalLoad(e.sched.queues)
                  && B.Imbalance(r.exec.sched.queues) + 2 <= B.Imbalance(e.sched.queues)
                  && B.SameButCpu(e.sched, r.exec.sched) && r.exec.sched.online == e.sched.online)
  {
    hide S.SmpInv;
    hide P.ThreadAt;
    CoupledShaped(e);
    if S.ValidateAffinity(e.sched, eligible).None? {
      B.PlanIsBest(e.sched, eligible);
      var plan := B.RebalancePlan(e.sched, eligible).value;
      if plan.Some? {
        B.PlannedMoveImproves(e.sched, eligible, plan.value);
        assert Linked(ThreadAt(e, plan.value.thread), S.Where(e.sched, plan.value.thread));
        MigrateSafe(e, plan.value.thread, plan.value.to);
      }
    }
  }

  // ---------------------------------------------------------------- operations on the table alone

  lemma DetachSafe(e: Exec, t: nat)
    requires Coupled(e)
    ensures var r := DetachThread(e, t);
            && r.TableDone? && Coupled(r.exec) && (r.result.Err? ==> r.exec == e) && OthersCalm(e, r.exec, t)
            && r.exec.sched == e.sched
  {
    PI.DetachEffect(e.table, t);
    forall x ensures Linked(P.ThreadAt(P.DetachThread(e.table, t).table.processes, x), S.Where(e.sched, x)) {
      assert Linked(ThreadAt(e, x), S.Where(e.sched, x));
    }
  }

  lemma JoinSafe(e: Exec, t: nat)
    requires Coupled(e)
    ensures var r := JoinThread(e, t);
            && r.TableDone? && Coupled(r.exec) && (r.result.Err? ==> r.exec == e) && OthersCalm(e, r.exec, t)
            && (r.result.Ok? <==> ThreadAt(e, t).Some? && ThreadAt(e, t).value.state.Exited?)
            && r.exec.sched == e.sched
  {
    PI.JoinThreadEffect(e.table, t);
    forall x ensures Linked(P.ThreadAt(P.JoinThread(e.table, t).table.processes, x), S.Where(e.sched, x)) {
      assert Linked(ThreadAt(e, x), S.Where(e.sched, x));
    }
  }

  lemma ReapSafe(e: Exec, p: nat)
    requires Coupled(e)
    ensures var r := ReapProcess(e, p);
            && r.TableDone? && Coupled(r.exec) && (r.result.Err? ==> r.exec == e) && AllCalm(e, r.exec)
            && r.exec.sched == e.sched
  {
    PI.ReapEffect(e.table, p);
    forall x ensures Linked(P.ThreadAt(P.ReapProcess(e.table, p).table.processes, x), S.Where(e.sched, x)) {
      assert Linked(ThreadAt(e, x), S.Where(e.sched, x));
    }
  }

  lemma OrphanSafe(e: Exec, p: nat)
    requires Coupled(e)
    ensures var (e', r) := OrphanChildren(e, p);
            Coupled(e') && (r.None? ==> e' == e) && AllCalm(e, e') && e'.sched == e.sched
  {
    PI.OrphanEffect(e.table, p);
    forall x ensures Linked(P.ThreadAt(P.OrphanChildren(e.table, p).0.processes, x), S.Where(e.sched, x)) {
      assert Linked(ThreadAt(e, x), S.Where(e.sched, x));
    }
  }

  /** The states a coordinator starts from are coupled. */
  lemma InitialCoupled(capacity: nat, quantum: nat, online: set<nat>)
    requires quantum <= U64_MAX && S.WithOnlineMask(capacity, quantum, online).Ok?
    ensures Coupled(Exec(P.EMPTY_TABLE, S.WithOnlineMask(capacity, quantum, online).value))
  {
    SI.NewSmpInv(capacity, quantum, online);
    PI.EmptyTableInv();
  }
}
