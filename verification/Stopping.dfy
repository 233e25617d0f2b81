/** Stopping is transparent to waiting: over every run a live thread behaves as a stopped flag
    beside an independent wait state. */
module Stopping {
  import opened Common
  import S = Scheduling
  import SI = SchedulingInvariant
  import P = Processes
  import PI = ProcessInvariant
  import opened Execution
  import opened Coupling
  import opened Runs
  import opened Ageing

  datatype Wait = Ready | WaitingBlocked | WaitingSleeping

  /** The reference view of a live thread. */
  datatype Aspect = Aspect(stopped: bool, wait: Wait)

  function WaitOf(s: P.ThreadState): Wait {
    if s.Blocked? then WaitingBlocked else if s.Sleeping? then WaitingSleeping else Ready
  }

  /** `None` for a thread that does not exist or has exited. */
  function View(th: Option<P.Thread>): Option<Aspect> {
    if th.None? || th.value.state.Exited? then None
    else if th.value.state.Stopped? then
      Some(Aspect(true, if th.value.resume.Some? then WaitOf(th.value.resume.value) else Ready))
    else Some(Aspect(false, WaitOf(th.value.state)))
  }

  /** What one call does to thread `x` in the reference view: stop and continue set the flag whatever
      the wait, wake ends the wait whatever the flag, and only an unstopped ready thread can begin to
      wait. Calls on other threads and on CPUs do nothing. */
  function ViewStep(v: Aspect, op: Op, x: nat): Aspect {
    match op
    case StopOp(t) => if t == x then v.(stopped := true) else v
    case ContinueOp(t) => if t == x then v.(stopped := false) else v
    case WakeOp(t) => if t == x then v.(wait := Ready) else v
    case BlockOp(t) => if t == x && v == Aspect(false, Ready) then v.(wait := WaitingBlocked) else v
    case SleepOp(t) => if t == x && v == Aspect(false, Ready) then v.(wait := WaitingSleeping) else v
    case _ => v
  }

  function ViewRun(v: Aspect, ops: seq<Op>, x: nat): Aspect {
    if ops == [] then v else ViewStep(ViewRun(v, ops[..|ops| - 1], x), ops[|ops| - 1], x)
  }

  ghost predicate Keeps(e: Exec, e': Exec, op: Op, x: nat) {
    View(ThreadAt(e, x)).Some? ==>
      View(ThreadAt(e', x)) == Some(ViewStep(View(ThreadAt(e, x)).value, op, x))
  }

  lemma CalmView(th: Option<P.Thread>, th': Option<P.Thread>)
    requires Calm(th) == Calm(th')
    ensures View(th) == View(th')
  {
  }

  lemma OthersKeep(e: Exec, e': Exec, t: nat, op: Op, x: nat)
    requires OthersCalm(e, e', t) && x != t
    requires forall v :: ViewStep(v, op, x) == v
    ensures Keeps(e, e', op, x)
  {
  }

  lemma AllKeep(e: Exec, e': Exec, op: Op, x: nat)
    requires AllCalm(e, e') && forall v :: ViewStep(v, op, x) == v
    ensures Keeps(e, e', op, x)
  {
  }

  /** The five lifecycle calls act on the reference view as `ViewStep` says. */
  lemma CallView(th: P.Thread, call: P.ThreadCall, p: nat)
    requires PI.ThreadOk(th, p) && P.After(th, call).Ok? && !call.Run? && !call.Yield?
    ensures var v := View(Some(th)); var v' := View(Some(P.After(th, call).value));
            && v.Some? && v'.Some?
            && (call.Stop? ==> v'.value == v.value.(stopped := true))
            && (call.Continue? ==> v'.value == v.value.(stopped := false))
            && (call.Wake? ==> v'.value == v.value.(wait := Ready))
            && (call.Block? ==> v.value == Aspect(false, Ready) && v'.value == Aspect(false, WaitingBlocked))
            && (call.Sleep? ==> v.value == Aspect(false, Ready) && v'.value == Aspect(false, WaitingSleeping))
  {
  }

  /** A refused call would not have changed the reference view either. */
  lemma RefusedView(th: P.Thread, call: P.ThreadCall, p: nat)
    requires PI.ThreadOk(th, p) && View(Some(th)).Some? && P.After(th, call).Err?
    ensures var v := View(Some(th)).value;
            && (call.Stop? ==> v.stopped)
            && (call.Continue? ==> !v.stopped)
            && (call.Wake? ==> v.wait == Ready)
            && (call.Block? || call.Sleep? ==> v != Aspect(false, Ready))
  {
  }

  predicate Requests(op: Op, t: nat, call: P.ThreadCall) {
    match call
    case Stop => op == StopOp(t)
    case Continue => op == ContinueOp(t)
    case Wake => op == WakeOp(t)
    case Block => op == BlockOp(t)
    case Sleep => op == SleepOp(t)
    case _ => false
  }

  lemma RequestElsewhere(op: Op, t: nat, call: P.ThreadCall, x: nat)
    requires Requests(op, t, call) && x != t
    ensures forall v :: ViewStep(v, op, x) == v
  {
  }

  lemma OwnCallKeeps(th: P.Thread, now: Option<P.Thread>, call: P.ThreadCall, op: Op, t: nat)
    requires PI.ThreadOk(th, th.owner) && Requests(op, t, call)
    requires if P.After(th, call).Ok? then Calm(now) == Calm(Some(P.After(th, call).value)) else now == Some(th)
    ensures View(Some(th)).Some? ==> View(now) == Some(ViewStep(View(Some(th)).value, op, t))
  {
    hide P.After, PI.ThreadOk, Calm;
    if P.After(th, call).Ok? {
      CallView(th, call, th.owner);
      CalmView(now, Some(P.After(th, call).value));
    } else if View(Some(th)).Some? {
      RefusedView(th, call, th.owner);
    }
  }

  /** A call that succeeds as `After` and else changes nothing keeps the view in step. */
  lemma CallKeeps(e: Exec, e': Exec, t: nat, call: P.ThreadCall, op: Op, x: nat)
    requires Coupled(e) && OthersCalm(e, e', t)
    requires Requests(op, t, call)
    requires var th := ThreadAt(e, t);
             if th.Some? && P.After(th.value, call).Ok?
                 then Calm(ThreadAt(e', t)) == Calm(Some(P.After(th.value, call).value))
             else e' == e
    ensures Keeps(e, e', op, x)
  {
    hide PI.TableInv, S.SmpInv, P.ThreadAt, P.After, ViewStep, Requests, Calm, AllLinked, PI.ThreadOk;
    if x != t {
      RequestElsewhere(op, t, call, x);
      OthersKeep(e, e', t, op, x);
    } else if ThreadAt(e, t).Some? {
      PI.FoundThread(e.table, t);
      OwnThreadOk(e, t);
      OwnCallKeeps(ThreadAt(e, t).value, ThreadAt(e', t), call, op, t);
    }
  }

  lemma OwnThreadOk(e: Exec, t: nat)
    requires Coupled(e) && ThreadAt(e, t).Some?
    ensures PI.ThreadOk(ThreadAt(e, t).value, ThreadAt(e, t).value.owner)
  {
  }

  lemma DetachKeeps(e: Exec, t: nat, x: nat)
    requires Coupled(e)
    ensures DetachThread(e, t).TableDone? && Keeps(e, DetachThread(e, t).exec, DetachOp(t), x)
  {
    hide PI.TableInv, S.SmpInv, P.ThreadAt, P.DetachThread;
    PI.DetachEffect(e.table, t);
  }

  lemma JoinKeeps(e: Exec, t: nat, x: nat)
    requires Coupled(e)
    ensures JoinThread(e, t).TableDone? && Keeps(e, JoinThread(e, t).exec, JoinOp(t), x)
  {
    hide PI.TableInv, S.SmpInv, P.ThreadAt, P.JoinThread;
    PI.JoinThreadEffect(e.table, t);
  }

  lemma CreateKeeps(e: Exec, op: Op, x: nat)
    requires Coupled(e) && S.Shaped(e.sched)
    requires op.CreateThreadOp? || op.CreateThreadWithIdOp?
    ensures Step(e, op).Some? && Keeps(e, Step(e, op).value, op, x)
  {
    hide P.ThreadAt, S.SmpInv, PI.TableInv, CreateThread, CreateThreadWithId;
    var t;
    if op.CreateThreadOp? {
      CreateThreadSafe(e, op.process, op.name, op.affinity);
      var r := CreateThread(e, op.process, op.name, op.affinity);
      t := if r.result.Ok? then r.result.value.placement.thread else x + 1;
    } else {
      CreateThreadWithIdSafe(e, op.process, op.thread, op.name, op.affinity);
      t := op.thread;
    }
    var e' := Step(e, op).value;
    if x != t && e' != e { OthersKeep(e, e', t, op, x); }
  }

  /** Every call keeps the view of every live thread in step, except the thread's own exit. */
  lemma StepKeepsView(e: Exec, op: Op, x: nat)
    requires Coupled(e) && !Repeats(e, op)
    requires !(op.ExitOp? && op.thread == x)
    ensures S.Shaped(e.sched) && Step(e, op).Some? && Keeps(e, Step(e, op).value, op, x)
  {
    hide P.ThreadAt, S.SmpInv, PI.TableInv, AllLinked, AllCalm, OthersCalm, View;
    hide CreateProcess, CreateThread, CreateThreadWithId, Tick, Yield, Park, WakeThread, StopThread;
    hide ContinueThread, SetAffinity, Migrate, RebalanceOnce, ExitThread, DetachThread, JoinThread, ReapProcess,
        OrphanChildren;
    CoupledShaped(e);
    StepSafe(e, op);
    var e' := Step(e, op).value;
    match op
    case OnlineOp(c) => OnlineCpuSafe(e, c); AllKeep(e, e', op, x);
    case CreateProcessOp(parent) => CreateProcessExactly(e, parent); AllKeep(e, e', op, x);
    case CreateThreadOp(p, name, affinity) => CreateKeeps(e, op, x);
    case CreateThreadWithIdOp(p, t, name, affinity) => CreateKeeps(e, op, x);
    case TickOp(c) => TickSafe(e, c); AllKeep(e, e', op, x);
    case YieldOp(c) => YieldSafe(e, c); AllKeep(e, e', op, x);
    case BlockOp(t) => ParkSafe(e, t, P.Block); CallKeeps(e, e', t, P.Block, op, x);
    case SleepOp(t) => ParkSafe(e, t, P.Sleep); CallKeeps(e, e', t, P.Sleep, op, x);
    case WakeOp(t) => WakeSafe(e, t); CallKeeps(e, e', t, P.Wake, op, x);
    case StopOp(t) => StopSafe(e, t); CallKeeps(e, e', t, P.Stop, op, x);
    case ContinueOp(t) => ContinueSafe(e, t); CallKeeps(e, e', t, P.Continue, op, x);
    case SetAffinityOp(t, affinity) => SetAffinitySafe(e, t, affinity); AllKeep(e, e', op, x);
    case MigrateOp(t, c) => MigrateSafe(e, t, c); AllKeep(e, e', op, x);
    case RebalanceOp(eligible) => RebalanceSafe(e, eligible); AllKeep(e, e', op, x);
    case ExitOp(t, status) => ExitSafe(e, t, status); OthersKeep(e, e', t, op, x);
    case DetachOp(t) => DetachKeeps(e, t, x);
    case JoinOp(t) => JoinKeeps(e, t, x);
    case ReapOp(p) => ReapSafe(e, p); AllKeep(e, e', op, x);
    case OrphanOp(p) => OrphanSafe(e, p); AllKeep(e, e', op, x);
  }

  /** Over any run that does not end thread `x`, its view follows the reference machine, whatever all
      other threads and CPUs do. */
  lemma {:induction false} RunKeepsView(e: Exec, ops: seq<Op>, x: nat)
    requires Coupled(e) && Fresh(e, ops)
    requires View(ThreadAt(e, x)).Some?
    requires forall i :: 0 <= i < |ops| ==> !(ops[i].ExitOp? && ops[i].thread == x)
    ensures Run(e, ops).Some?
    ensures View(ThreadAt(Run(e, ops).value, x)) == Some(ViewRun(View(ThreadAt(e, x)).value, ops, x))
  {
    hide Coupled, Step, View, P.ThreadAt;
    if ops != [] {
      var front, op := ops[..|ops| - 1], ops[|ops| - 1];
      RunsAreSafe(e, front);
      RunKeepsView(e, front, x);
      StepKeepsView(Run(e, front).value, op, x);
    }
  }

  // ---------------------------------------------------------------- what the reference machine says

  /** The last word of stop and continue on `x`. */
  function Flag(stopped: bool, ops: seq<Op>, x: nat): bool {
    if ops == [] then stopped
    else
      var op := ops[|ops| - 1];
      if op == StopOp(x) then true else if op == ContinueOp(x) then false else Flag(stopped, ops[..|ops| - 1], x)
  }

  /** Without new waits, flag and wait evolve independently: the flag is the last stop or continue, and
      the wait is over iff some wake came, before, during or after a stop. */
  lemma {:induction false} FlagBesideWait(v: Aspect, ops: seq<Op>, x: nat)
    requires forall i :: 0 <= i < |ops| ==> ops[i] != BlockOp(x) && ops[i] != SleepOp(x)
    ensures ViewRun(v, ops, x) == Aspect(Flag(v.stopped, ops, x), if WakeOp(x) in ops then Ready else v.wait)
  {
    if ops != [] {
      var front, op := ops[..|ops| - 1], ops[|ops| - 1];
      FlagBesideWait(v, front, x);
      assert ops == front + [op];
    }
  }

  /** A stopped thread is in no run queue and on no CPU, however often it was woken. */
  lemma StoppedStandsNowhere(e: Exec, x: nat)
    requires Coupled(e) && View(ThreadAt(e, x)).Some? && View(ThreadAt(e, x)).value.stopped
    ensures S.Where(e.sched, x).Parked?
  {
  }

  /** An unstopped ready thread is in a run queue or on a CPU, so no accepted wake is ever lost. */
  lemma ReadyStands(e: Exec, x: nat)
    requires Coupled(e)
    ensures SI.Standing(S.Where(e.sched, x)) <==> View(ThreadAt(e, x)) == Some(Aspect(false, Ready))
  {
    assert Linked(ThreadAt(e, x), S.Where(e.sched, x));
  }
}
