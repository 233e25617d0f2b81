/** Bounded waiting over whole runs of the coordinator. */
module Waiting {
  import opened Common
  import opened RoundRobin
  import S = Scheduling
  import SI = SchedulingInvariant
  import B = Balance
  import P = Processes
  import PI = ProcessInvariant
  import opened Execution
  import opened Coupling
  import opened Runs
  import Ageing

  /** One queue event leads from `q` to `q'`; who leaves is gone. */
  ghost predicate Evolves(q: Queue, q': Queue, ev: QueueEvent) {
    q' == Apply(q, ev) && (ev.Leaves? ==> ev.thread !in Line(q'))
  }

  /** No CPU is taken away, and queue `c` sees at most one event, a timer tick only if `ticked`. */
  ghost predicate Moves(s: S.Smp, s': S.Smp, c: nat, ticked: bool) {
    && |s'.queues| == |s.queues| && s.online <= s'.online
    && (c < |s.queues| ==> exists ev: QueueEvent ::
        (ev.TimerTick? <==> ticked)
        && Evolves(s.queues[c], s'.queues[c], ev))
  }

  lemma StaysPut(s: S.Smp, s': S.Smp, c: nat)
    requires s'.queues == s.queues && s.online <= s'.online
    ensures Moves(s, s', c, false)
  {
    if c < |s.queues| { assert Evolves(s.queues[c], s'.queues[c], Untouched); }
  }

  lemma OneJoins(s: S.Smp, s': S.Smp, d: nat, t: nat, c: nat)
    requires d < |s.queues| && s'.queues == s.queues[d := Enqueue(s.queues[d], t).0] && s'.online == s.online
    ensures Moves(s, s', c, false)
  {
    if c < |s.queues| { assert Evolves(s.queues[c], s'.queues[c], if c == d then Joins(t) else Untouched); }
  }

  lemma OneLeaves(s: S.Smp, s': S.Smp, d: nat, t: nat, c: nat)
    requires d < |s.queues| && QueueOk(s.queues[d]) && t in Line(s.queues[d])
    requires s'.queues == s.queues[d := Remove(s.queues[d], t).0] && s'.online == s.online
    ensures Moves(s, s', c, false)
  {
    SI.LineWithout(s.queues[d], t);
    if c < |s.queues| { assert Evolves(s.queues[c], s'.queues[c], if c == d then Leaves(t) else Untouched); }
  }

  lemma OneRelocates(s: S.Smp, s': S.Smp, from: nat, to: nat, t: nat, c: nat)
    requires from < |s.queues| && to < |s.queues| && from != to && QueueOk(s.queues[from]) && t in Line(s.queues[from])
    requires s'.queues == s.queues[from := Remove(s.queues[from], t).0][to := Enqueue(s.queues[to], t).0]
    requires s'.online == s.online
    ensures Moves(s, s', c, false)
  {
    SI.LineWithout(s.queues[from], t);
    if c < |s.queues| {
      assert Evolves(s.queues[c], s'.queues[c], if c == from then Leaves(t) else if c == to then Joins(t)
          else Untouched);
    }
  }

  lemma AdmitMoves(s: S.Smp, t: nat, affinity: set<nat>, c: nat)
    ensures Moves(s, S.Admit(s, t, affinity).0, c, false)
  {
    var (s', r) := S.Admit(s, t, affinity);
    if r.Ok? { OneJoins(s, s', r.value.placement.cpu, t, c); } else { StaysPut(s, s', c); }
  }

  lemma BlockMoves(s: S.Smp, t: nat, c: nat)
    requires S.SmpInv(s)
    ensures S.Shaped(s) && Moves(s, S.Block(s, t).0, c, false)
  {
    SI.BlockEffect(s, t);
    var (s', r) := S.Block(s, t);
    if r.Ok? {
      assert t in Line(s.queues[r.value.cpu]);
      OneLeaves(s, s', r.value.cpu, t, c);
    } else {
      StaysPut(s, s', c);
    }
  }

  lemma WakeMoves(s: S.Smp, t: nat, c: nat)
    requires S.SmpInv(s)
    ensures S.Shaped(s) && Moves(s, S.Wake(s, t).0, c, false)
  {
    SI.WakeEffect(s, t);
    var (s', r) := S.Wake(s, t);
    if r.Ok? { OneJoins(s, s', r.value.placement.cpu, t, c); } else { StaysPut(s, s', c); }
  }

  lemma DischargeMoves(s: S.Smp, t: nat, c: nat)
    requires S.SmpInv(s)
    ensures S.Shaped(s) && Moves(s, S.Discharge(s, t).0, c, false)
  {
    SI.DischargeEffect(s, t);
    var (s', r) := S.Discharge(s, t);
    if r.Ok? && SI.Standing(S.Where(s, t)) {
      assert t in Line(s.queues[r.value.cpu]);
      OneLeaves(s, s', r.value.cpu, t, c);
    } else {
      StaysPut(s, s', c);
    }
  }

  lemma MoveRunnableMoves(s: S.Smp, t: nat, i: nat, a': S.Assignment, c: nat)
    requires S.SmpInv(s) && SI.Standing(S.Where(s, t)) && IndexOf(s.assignments, S.ThreadOf, t) == Some(i)
    requires a'.thread == t && a'.state.Runnable? && S.AssignmentOk(s, a') && a'.cpu != s.assignments[i].cpu
    ensures s.assignments[i].cpu < |s.queues|
    ensures Moves(s, S.MoveRunnable(s, t, s.assignments[i].cpu, a'.cpu).0, c, false)
  {
    SI.MoveEffect(s, t, i, a');
    var from := s.assignments[i].cpu;
    assert S.Assigned(s, t) == Some(s.assignments[i]);
    assert t in Line(s.queues[from]);
    OneRelocates(s, S.MoveRunnable(s, t, from, a'.cpu).0, from, a'.cpu, t, c);
  }

  lemma SameQueues(s: S.Smp, s': S.Smp, s'': S.Smp, c: nat, ticked: bool)
    requires Moves(s, s', c, ticked) && s''.queues == s'.queues && s''.online == s'.online
    ensures Moves(s, s'', c, ticked)
  {
  }

  lemma MigrateMoves(s: S.Smp, t: nat, to: nat, c: nat)
    requires S.SmpInv(s)
    ensures S.Shaped(s) && Moves(s, S.Migrate(s, t, to).0, c, false)
  {
    S.InvShaped(s);
    SI.MigrateEffect(s, t, to);
    var (s', r) := S.Migrate(s, t, to);
    if r.Ok? && SI.Standing(S.Where(s, t)) && r.value.placement.migrated {
      var i := IndexOf(s.assignments, S.ThreadOf, t).value;
      assert S.Assigned(s, t) == Some(s.assignments[i]);
      MoveRunnableMoves(s, t, i, s.assignments[i].(cpu := to), c);
      SameQueues(s, S.MoveRunnable(s, t, s.assignments[i].cpu, to).0, s', c, false);
    } else {
      StaysPut(s, s', c);
    }
  }

  lemma SetAffinityMoves(s: S.Smp, t: nat, affinity: set<nat>, c: nat)
    requires S.SmpInv(s)
    ensures S.Shaped(s) && Moves(s, S.SetAffinity(s, t, affinity).0, c, false)
  {
    S.InvShaped(s);
    SI.SetAffinityEffect(s, t, affinity);
    var (s', r) := S.SetAffinity(s, t, affinity);
    if r.Ok? && SI.Standing(S.Where(s, t)) && r.value.placement.migrated {
      var i := IndexOf(s.assignments, S.ThreadOf, t).value;
      var a := s.assignments[i];
      assert S.Assigned(s, t) == Some(a);
      SI.LeastLoadedIsLeast(s, affinity);
      var a' := a.(affinity := affinity, cpu := S.LeastLoaded(s, affinity).value);
      MoveRunnableMoves(s, t, i, a', c);
      SameQueues(s, S.MoveRunnable(s, t, a.cpu, a'.cpu).0, s', c, false);
    } else {
      StaysPut(s, s', c);
    }
  }

  // ---------------------------------------------------------------- calls of the coordinator

  lemma RotateSched(e: Exec, sw: Option<Switch>)
    ensures Rotate(e, sw).Some? ==> Rotate(e, sw).value.sched == e.sched
  {
  }

  ghost predicate StepMoves(e: Exec, r: Option<Exec>, c: nat, ticked: bool) {
    r.Some? ==> Moves(e.sched, r.value.sched, c, ticked)
  }

  lemma SuspendMoves(e: Exec, t: nat, call: P.ThreadCall, c: nat)
    requires S.SmpInv(e.sched)
    ensures S.Shaped(e.sched) && StepMoves(e, Next(Suspend(e, t, call)), c, false)
  {
    hide Moves, S.SmpInv, P.CallThread;
    BlockMoves(e.sched, t, c);
  }

  lemma ResumeMoves(e: Exec, t: nat, call: P.ThreadCall, c: nat)
    requires S.SmpInv(e.sched)
    ensures S.Shaped(e.sched) && StepMoves(e, Next(Resume(e, t, call)), c, false)
  {
    hide Moves, S.SmpInv, P.CallThread;
    WakeMoves(e.sched, t, c);
  }

  /** Calls on one thread's state. */
  lemma ThreadCallMoves(e: Exec, op: Op, c: nat)
    requires S.SmpInv(e.sched) && S.Shaped(e.sched)
    requires op.BlockOp? || op.SleepOp? || op.WakeOp? || op.StopOp? || op.ContinueOp?
    ensures StepMoves(e, Step(e, op), c, false)
  {
    hide Moves, S.SmpInv, P.CallThread, Suspend, Resume, P.ThreadAt;
    var t := op.thread;
    SuspendMoves(e, t, P.Block, c);
    SuspendMoves(e, t, P.Sleep, c);
    SuspendMoves(e, t, P.Stop, c);
    ResumeMoves(e, t, P.Wake, c);
    ResumeMoves(e, t, P.Continue, c);
    StaysPut(e.sched, e.sched, c);
  }

  lemma MigrateCallMoves(e: Exec, t: nat, to: nat, c: nat)
    requires Coupled(e)
    ensures S.Shaped(e.sched) && StepMoves(e, Next(Migrate(e, t, to)), c, false)
  {
    hide Moves, PI.TableInv, P.ThreadAt, S.SmpInv;
    MigrateSafe(e, t, to);
    MigrateMoves(e.sched, t, to, c);
    StaysPut(e.sched, e.sched, c);
  }

  lemma SetAffinityCallMoves(e: Exec, t: nat, affinity: set<nat>, c: nat)
    requires Coupled(e)
    ensures S.Shaped(e.sched) && StepMoves(e, Next(SetAffinity(e, t, affinity)), c, false)
  {
    hide Moves, PI.TableInv, P.ThreadAt, S.SmpInv;
    SetAffinitySafe(e, t, affinity);
    SetAffinityMoves(e.sched, t, affinity, c);
    StaysPut(e.sched, e.sched, c);
  }

  lemma RebalanceMoves(e: Exec, eligible: set<nat>, c: nat)
    requires Coupled(e)
    ensures S.Shaped(e.sched) && StepMoves(e, Next(RebalanceOnce(e, eligible)), c, false)
  {
    hide Moves, PI.TableInv, P.ThreadAt, S.SmpInv, Migrate;
    CoupledShaped(e);
    StaysPut(e.sched, e.sched, c);
    var r := B.RebalancePlan(e.sched, eligible);
    if r.Ok? && r.value.Some? { MigrateCallMoves(e, r.value.value.thread, r.value.value.to, c); }
  }

  lemma AdmitCreatedMoves(e: Exec, tb: P.Table, t: nat, affinity: set<nat>, c: nat)
    ensures StepMoves(e, Next(AdmitCreated(e, tb, t, affinity)), c, false)
  {
    hide Moves, P.RollbackThread, P.CallThread, S.Admit;
    AdmitMoves(e.sched, t, affinity, c);
  }

  lemma CreateMoves(e: Exec, op: Op, c: nat)
    requires S.Shaped(e.sched) && (op.CreateThreadOp? || op.CreateThreadWithIdOp?)
    ensures StepMoves(e, Step(e, op), c, false)
  {
    hide Moves, AdmitCreated, P.CreateThread, P.CreateThreadWithId;
    StaysPut(e.sched, e.sched, c);
    if op.CreateThreadOp? {
      var (tb, r) := P.CreateThread(e.table, op.process, op.name);
      if r.Ok? { AdmitCreatedMoves(e, tb, r.value, op.affinity, c); }
    } else {
      AdmitCreatedMoves(e, P.CreateThreadWithId(e.table, op.process, op.thread, op.name).0, op.thread, op.affinity, c);
    }
  }

  lemma ExitMoves(e: Exec, t: nat, status: nat, c: nat)
    requires S.SmpInv(e.sched)
    ensures S.Shaped(e.sched) && StepMoves(e, Next(ExitThread(e, t, status)), c, false)
  {
    hide Moves, P.ExitThread, P.ThreadAt, P.CallThread, S.SmpInv;
    StaysPut(e.sched, e.sched, c);
    DischargeMoves(e.sched, t, c);
  }

  lemma TickMoves(e: Exec, d: nat, c: nat)
    requires c in e.sched.online ==> c < |e.sched.queues|
    ensures StepMoves(e, Next(Execution.Tick(e, d)), c, d == c && c in e.sched.online)
  {
    var (s, r) := S.TickCpu(e.sched, d);
    if r.Ok? {
      RotateSched(e.(sched := s), r.value);
      if c < |e.sched.queues| {
        assert Evolves(e.sched.queues[c], s.queues[c], if c == d then TimerTick else Untouched);
      }
    } else {
      StaysPut(e.sched, s, c);
    }
  }

  lemma YieldMoves(e: Exec, d: nat, c: nat)
    ensures StepMoves(e, Next(Yield(e, d)), c, false)
  {
    var (s, r) := S.YieldCpu(e.sched, d);
    if r.Ok? {
      RotateSched(e.(sched := s), r.value);
      if c < |e.sched.queues| {
        assert Evolves(e.sched.queues[c], s.queues[c], if c == d then Yields else Untouched);
      }
    } else {
      StaysPut(e.sched, s, c);
    }
  }

  /** Every call is at most one event on each CPU's queue, a timer tick only if it is a tick of that CPU. */
  lemma StepIsEvent(e: Exec, op: Op, c: nat)
    requires Coupled(e) && c in e.sched.online
    ensures S.Shaped(e.sched) && StepMoves(e, Step(e, op), c, op == TickOp(c))
  {
    hide Moves, PI.TableInv, P.ThreadAt, AllLinked;
    hide CreateProcess, Execution.Tick, Yield, RebalanceOnce, SetAffinity, Migrate, ExitThread, DetachThread,
        JoinThread, ReapProcess;
    CoupledShaped(e);
    assert c < |e.sched.queues|;
    StaysPut(e.sched, e.sched, c);
    match op
    case OnlineOp(d) => StaysPut(e.sched, S.OnlineCpu(e.sched, d).0, c);
    case CreateProcessOp(parent) => TableKeepsSched(e, op);
    case CreateThreadOp(_, _, _) => CreateMoves(e, op, c);
    case CreateThreadWithIdOp(_, _, _, _) => CreateMoves(e, op, c);
    case TickOp(d) => TickMoves(e, d, c);
    case YieldOp(d) => YieldMoves(e, d, c);
    case BlockOp(_) => ThreadCallMoves(e, op, c);
    case SleepOp(_) => ThreadCallMoves(e, op, c);
    case WakeOp(_) => ThreadCallMoves(e, op, c);
    case StopOp(_) => ThreadCallMoves(e, op, c);
    case ContinueOp(_) => ThreadCallMoves(e, op, c);
    case SetAffinityOp(t, affinity) => SetAffinityCallMoves(e, t, affinity, c);
    case MigrateOp(t, to) => MigrateCallMoves(e, t, to, c);
    case RebalanceOp(eligible) => RebalanceMoves(e, eligible, c);
    case ExitOp(t, status) => ExitMoves(e, t, status, c);
    case _ => TableKeepsSched(e, op);
  }

  lemma TableKeepsSched(e: Exec, op: Op)
    requires S.Shaped(e.sched)
    requires op.CreateProcessOp? || op.DetachOp? || op.JoinOp? || op.ReapOp? || op.OrphanOp?
    ensures Step(e, op).Some? ==> Step(e, op).value.sched == e.sched
  {
    hide P.CreateProcess, P.DetachThread, P.JoinThread, P.ReapProcess, P.OrphanChildren;
  }

  // ---------------------------------------------------------------- whole runs

  /** Timer ticks of CPU `c` in a run. */
  function CpuTicks(ops: seq<Op>, c: nat): nat {
    if ops == [] then 0 else CpuTicks(ops[..|ops| - 1], c) + if ops[|ops| - 1] == TickOp(c) then 1 else 0
  }

  ghost predicate OnQueue(e: Option<Exec>, c: nat, q: Queue) {
    e.Some? && c in e.value.sched.online && c < |e.value.sched.queues| && e.value.sched.queues[c] == q
  }

  /** Thread `t` stands in line or runs on CPU `c`. */
  ghost predicate StandsAt(e: Option<Exec>, c: nat, t: nat) {
    e.Some? && c < |e.value.sched.queues| && t in Line(e.value.sched.queues[c])
  }

  /** The history of one CPU's queue during a run. */
  ghost predicate History(e: Exec, ops: seq<Op>, c: nat, qs: seq<Queue>, evs: seq<QueueEvent>) {
    && QueueRun(qs, evs) && |evs| == |ops| && Ticks(evs) == CpuTicks(ops, c)
    && (forall i :: 0 <= i <= |ops| ==> OnQueue(Run(e, ops[..i]), c, qs[i]))
  }

  lemma HistoryGrows(e: Exec, ops: seq<Op>, op: Op, c: nat, qs: seq<Queue>, evs: seq<QueueEvent>, q: Queue,
      ev: QueueEvent)
    requires History(e, ops, c, qs, evs) && OnQueue(Run(e, ops + [op]), c, q)
    requires q == Apply(qs[|ops|], ev) && (ev.TimerTick? <==> op == TickOp(c))
    ensures History(e, ops + [op], c, qs + [q], evs + [ev])
  {
    hide Run, Apply, OnQueue;
    var all := ops + [op];
    assert all[..|ops|] == ops;
    assert (evs + [ev])[..|evs|] == evs;
    forall i | 0 <= i <= |all| ensures OnQueue(Run(e, all[..i]), c, (qs + [q])[i]) {
      if i <= |ops| { assert all[..i] == ops[..i]; } else { assert all[..i] == all; }
    }
  }

  /** The event by which one more call extends the history. */
  lemma NextEvent(e: Exec, ops: seq<Op>, op: Op, c: nat, t: nat, q: Queue) returns (q': Queue, ev: QueueEvent)
    requires Coupled(e) && Fresh(e, ops + [op])
    requires OnQueue(Run(e, ops), c, q) && StandsAt(Run(e, ops + [op]), c, t)
    ensures OnQueue(Run(e, ops + [op]), c, q') && q' == Apply(q, ev)
    ensures (ev.TimerTick? <==> op == TickOp(c)) && ev != Leaves(t)
  {
    hide Step, Coupled, Apply;
    assert (ops + [op])[..|ops|] == ops;
    Ageing.RunsAreSafe(e, ops);
    var e1 := Run(e, ops).value;
    StepIsEvent(e1, op, c);
    assert (ops + [op])[..|ops|] == ops;
    var e' := Step(e1, op).value;
    assert Run(e, ops + [op]) == Some(e');
    q' := e'.sched.queues[c];
    ev :| (ev.TimerTick? <==> op == TickOp(c)) && Evolves(q, q', ev);
  }

  lemma HistoryStarts(e: Exec, c: nat)
    requires Coupled(e) && c in e.sched.online
    ensures c < |e.sched.queues| && History(e, [], c, [e.sched.queues[c]], [])
  {
  }

  lemma {:induction false} HistoryExists(e: Exec, ops: seq<Op>, c: nat, t: nat)
      returns (qs: seq<Queue>, evs: seq<QueueEvent>)
    requires Coupled(e) && c in e.sched.online && Fresh(e, ops)
    requires forall i :: 0 <= i <= |ops| ==> StandsAt(Run(e, ops[..i]), c, t)
    ensures History(e, ops, c, qs, evs) && Leaves(t) !in evs
  {
    hide Step, Coupled, Run, StandsAt, OnQueue;
    if ops == [] {
      HistoryStarts(e, c);
      qs, evs := [e.sched.queues[c]], [];
    } else {
      FreshPrefix(e, ops, |ops| - 1);
      var front, op := ops[..|ops| - 1], ops[|ops| - 1];
      forall i | 0 <= i <= |front| ensures StandsAt(Run(e, front[..i]), c, t) {
        assert front[..i] == ops[..i];
      }
      qs, evs := HistoryExists(e, front, c, t);
      assert front[..|front|] == front && ops[..|ops|] == ops == front + [op];
      var q, ev := NextEvent(e, front, op, c, t, qs[|front|]);
      HistoryGrows(e, front, op, c, qs, evs, q, ev);
      qs, evs := qs + [q], evs + [ev];
    }
  }

  /** Bounded waiting in every run. A thread with `k` threads waiting before it on CPU `c` gets the CPU
      before `(k + 1) * quantum` timer ticks of that CPU have passed, whatever calls interleave, as long as
      they leave it on that CPU. */
  lemma BoundedWaitingInRuns(e: Exec, ops: seq<Op>, c: nat, k: nat)
    requires Coupled(e) && c in e.sched.online && Fresh(e, ops)
    requires c < |e.sched.queues| && k < |e.sched.queues[c].runnable|
    requires forall i :: 0 <= i <= |ops| ==> StandsAt(Run(e, ops[..i]), c, e.sched.queues[c].runnable[k])
    requires CpuTicks(ops, c) >= (k + 1) * e.sched.queues[c].quantum
    ensures exists i :: 0 <= i <= |ops| && Run(e, ops[..i]).Some?
                        && S.Where(Run(e, ops[..i]).value.sched, e.sched.queues[c].runnable[k]) == S.OnCpu(c)
  {
    hide Coupled, Step, Run;
    var q := e.sched.queues[c];
    var t := q.runnable[k];
    var qs, evs := HistoryExists(e, ops, c, t);
    assert ops[..0] == [];
    StartsAt(e, c);
    assert OnQueue(Run(e, ops[..0]), c, qs[0]);
    PatienceBound(q, k);
    BoundedWaiting(qs, evs, t);
    var n :| 0 <= n < |qs| && qs[n].current == Some(t);
    assert OnQueue(Run(e, ops[..n]), c, qs[n]);
    FreshPrefix(e, ops, n);
    Ageing.RunsAreSafe(e, ops[..n]);
    CoupledInv(Run(e, ops[..n]).value);
    CurrentIsOnCpu(Run(e, ops[..n]).value.sched, c, t);
  }

  lemma StartsAt(e: Exec, c: nat)
    requires Coupled(e) && c < |e.sched.queues|
    ensures Run(e, []) == Some(e) && QueueOk(e.sched.queues[c])
  {
  }

  lemma CoupledInv(e: Exec)
    requires Coupled(e)
    ensures S.SmpInv(e.sched)
  {
  }

  lemma CurrentIsOnCpu(s: S.Smp, c: nat, t: nat)
    requires S.SmpInv(s) && c < |s.queues| && s.queues[c].current == Some(t)
    ensures S.Where(s, t) == S.OnCpu(c)
  {
    assert Line(s.queues[c])[0] == t;
    assert t in Line(s.queues[c]);
  }
}
