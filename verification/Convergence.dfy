/** Repeating `rebalance_once` always ends, in a state where no legal move is left. */
module Convergence {
  import opened Common
  import R = RoundRobin
  import S = Scheduling
  import SI = SchedulingInvariant
  import B = Balance
  import opened Execution
  import opened Coupling
  import opened Runs

  function Repeat(op: Op, n: nat): (ops: seq<Op>)
    ensures |ops| == n
  {
    if n == 0 then [] else [op] + Repeat(op, n - 1)
  }

  ghost predicate NoLegalMove(s: S.Smp, eligible: set<nat>) {
    forall t: nat, from: nat, to: nat :: !B.LegalMove(s, eligible, t, from, to)
  }

  /** `e'` is reached from `e` by `n` balancing steps and only differs in where threads stand. */
  ghost predicate Rebalanced(e: Exec, eligible: set<nat>, n: nat, e': Exec) {
    && Run(e, Repeat(RebalanceOp(eligible), n)) == Some(e')
    && Coupled(e')
    && B.TotalLoad(e'.sched.queues) == B.TotalLoad(e.sched.queues)
    && B.SameButCpu(e.sched, e'.sched)
    && e'.sched.online == e.sched.online
    && AllCalm(e, e')
  }

  lemma {:induction false} RunPrepend(e: Exec, op: Op, ops: seq<Op>)
    requires S.Shaped(e.sched) && Step(e, op).Some?
    ensures Run(e, [op] + ops) == Run(Step(e, op).value, ops)
  {
    hide Step;
    var all := [op] + ops;
    if ops == [] {
      assert all[..0] == [] && all[0] == op;
      assert Run(e, all[..|all| - 1]) == Some(e);
    } else {
      var front := ops[..|ops| - 1];
      assert all[..|all| - 1] == [op] + front && all[|all| - 1] == ops[|ops| - 1];
      RunPrepend(e, op, front);
    }
  }

  lemma SameButCpuTrans(a: S.Smp, b: S.Smp, c: S.Smp)
    requires B.SameButCpu(a, b) && B.SameButCpu(b, c)
    ensures B.SameButCpu(a, c)
  {
  }

  lemma AllCalmTrans(a: Exec, b: Exec, c: Exec)
    requires AllCalm(a, b) && AllCalm(b, c)
    ensures AllCalm(a, c)
  {
  }

  lemma RebalancedTrans(e: Exec, eligible: set<nat>, e1: Exec, n: nat, e': Exec)
    requires Coupled(e) && S.Shaped(e.sched) && Step(e, RebalanceOp(eligible)) == Some(e1)
    requires B.TotalLoad(e1.sched.queues) == B.TotalLoad(e.sched.queues) && B.SameButCpu(e.sched, e1.sched)
    requires e1.sched.online == e.sched.online && AllCalm(e, e1)
    requires Rebalanced(e1, eligible, n, e')
    ensures Rebalanced(e, eligible, n + 1, e')
  {
    hide Coupled, Step, B.SameButCpu, AllCalm, Run;
    RunPrepend(e, RebalanceOp(eligible), Repeat(RebalanceOp(eligible), n));
    SameButCpuTrans(e.sched, e1.sched, e'.sched);
    AllCalmTrans(e, e1, e');
  }

  lemma RebalancedNone(e: Exec, eligible: set<nat>)
    requires Coupled(e)
    ensures Rebalanced(e, eligible, 0, e)
  {
  }

  /** One step either finds nothing to do or makes strict progress. */
  lemma StepProgress(e: Exec, eligible: set<nat>)
    requires Coupled(e) && S.ValidateAffinity(e.sched, eligible).None?
    ensures S.Shaped(e.sched) && Step(e, RebalanceOp(eligible)).Some?
    ensures var e1 := Step(e, RebalanceOp(eligible)).value;
            || (e1 == e && NoLegalMove(e.sched, eligible))
            || (&& Coupled(e1) && B.Imbalance(e1.sched.queues) + 2 <= B.Imbalance(e.sched.queues)
                && B.TotalLoad(e1.sched.queues) == B.TotalLoad(e.sched.queues) && B.SameButCpu(e.sched, e1.sched)
                && e1.sched.online == e.sched.online && AllCalm(e, e1))
  {
    hide Coupled, RebalanceOnce, B.LegalMove, B.SameButCpu, AllCalm;
    RebalanceSafe(e, eligible);
  }

  /** Balancing settles within `bound` steps. */
  ghost predicate SettlesWithin(e: Exec, eligible: set<nat>, bound: nat) {
    exists n: nat, e' :: n <= bound && Rebalanced(e, eligible, n, e') && NoLegalMove(e'.sched, eligible)
  }

  /** Convergence. Within half the initial sum of squared loads many steps, repeated balancing reaches a
      state with no legal move left. Total load, threads, masks and lifecycle states are conserved. */
  lemma {:induction false} RebalancingConverges(e: Exec, eligible: set<nat>)
    requires Coupled(e) && S.ValidateAffinity(e.sched, eligible).None?
    ensures SettlesWithin(e, eligible, B.Imbalance(e.sched.queues) / 2)
    decreases B.Imbalance(e.sched.queues)
  {
    hide Coupled, Step, Rebalanced, NoLegalMove;
    StepProgress(e, eligible);
    var e1 := Step(e, RebalanceOp(eligible)).value;
    if e1 == e && NoLegalMove(e.sched, eligible) {
      RebalancedNone(e, eligible);
    } else {
      RebalancingConverges(e1, eligible);
      var bound := B.Imbalance(e1.sched.queues) / 2;
      var n: nat, e' :| n <= bound && Rebalanced(e1, eligible, n, e') && NoLegalMove(e'.sched, eligible);
      RebalancedTrans(e, eligible, e1, n, e');
    }
  }

  /** In a settled state whose eligible CPUs hold only threads free to use all of them, the loads of any
      two eligible CPUs differ by at most one, and another step does nothing. */
  lemma SettledIsEven(e: Exec, eligible: set<nat>, c: nat, d: nat)
    requires Coupled(e) && S.ValidateAffinity(e.sched, eligible).None? && c in eligible && d in eligible
    requires NoLegalMove(e.sched, eligible)
    requires forall t :: SI.Standing(S.Where(e.sched, t)) && S.Where(e.sched, t).cpu in eligible ==>
               S.Assigned(e.sched, t).Some? && eligible <= S.Assigned(e.sched, t).value.affinity
    ensures R.Load(e.sched.queues[c]) <= R.Load(e.sched.queues[d]) + 1
    ensures S.Shaped(e.sched) && RebalanceOnce(e, eligible) == Done(e, Ok(None))
  {
    B.BalancedWithinOne(e.sched, eligible, c, d);
    RebalanceSafe(e, eligible);
  }
}
