/** Rebalance planning and its effect on CPU loads (kernel/src/scheduling.rs, `rebalance_plan`). */
module Balance {
  import opened Common
  import opened RoundRobin
  import opened Scheduling
  import opened SchedulingInvariant

  datatype Plan = Plan(thread: nat, from: nat, to: nat, sourceLoad: nat, destinationLoad: nat)

  predicate Movable(a: Assignment, from: nat, to: nat) {
    a.state.Runnable? && a.cpu == from && to in a.affinity
  }

  /** The first assignment that may move from `from` to `to`, passing over thread `skip`. */
  function FirstMovable(assignments: seq<Assignment>, from: nat, to: nat, skip: Option<nat>): (r: Option<nat>)
    ensures r.Some? ==> r != skip && exists a :: a in assignments && a.thread == r.value && Movable(a, from, to)
    ensures r.None? ==> forall a :: a in assignments && Movable(a, from, to) ==> Some(a.thread) == skip
  {
    if assignments == [] then None
    else
      var a := assignments[0];
      if Movable(a, from, to) && Some(a.thread) != skip then Some(a.thread)
      else FirstMovable(assignments[1..], from, to, skip)
  }

  /** A waiting thread if one qualifies, else the running one. */
  function Candidate(s: Smp, from: nat, to: nat): Option<nat>
    requires from < |s.queues|
  {
    var waiting := FirstMovable(s.assignments, from, to, s.queues[from].current);
    if waiting.Some? then waiting else FirstMovable(s.assignments, from, to, None)
  }

  function PairPlan(s: Smp, eligible: set<nat>, from: nat, to: nat): Option<Plan>
    requires from < |s.queues| && to < |s.queues|
  {
    var load, load' := Load(s.queues[from]), Load(s.queues[to]);
    if from !in eligible || load < 2 || to == from || to !in eligible || load <= load' + 1 then None
    else
      var t := Candidate(s, from, to);
      if t.None? then None else Some(Plan(t.value, from, to, load, load'))
  }

  function LexLess(p: Plan, q: Plan): bool {
    || p.from < q.from
    || (p.from == q.from && (p.to < q.to || (p.to == q.to && p.thread < q.thread)))
  }

  function Gain(p: Plan): int {
    p.sourceLoad - p.destinationLoad
  }

  function Better(best: Option<Plan>, p: Option<Plan>): Option<Plan> {
    if p.None? then best
    else if best.None? || Gain(p.value) > Gain(best.value)
            || (Gain(p.value) == Gain(best.value) && LexLess(p.value, best.value)) then p
    else best
  }

  /** The inner loop of `rebalance_plan`, from destination `to` on. */
  function ScanRow(s: Smp, eligible: set<nat>, from: nat, to: nat, best: Option<Plan>): Option<Plan>
    requires from < |s.queues| && to <= |s.queues|
    decreases |s.queues| - to
  {
    if to == |s.queues| then best
    else ScanRow(s, eligible, from, to + 1, Better(best, PairPlan(s, eligible, from, to)))
  }

  /** The outer loop, from source `from` on. */
  function ScanAll(s: Smp, eligible: set<nat>, from: nat, best: Option<Plan>): Option<Plan>
    requires from <= |s.queues|
    decreases |s.queues| - from
  {
    if from == |s.queues| then best
    else ScanAll(s, eligible, from + 1, ScanRow(s, eligible, from, 0, best))
  }

  function RebalancePlan(s: Smp, eligible: set<nat>): Result<Option<Plan>, SmpError> {
    var bad := ValidateAffinity(s, eligible);
    if bad.Some? then Err(bad.value) else Ok(ScanAll(s, eligible, 0, None))
  }

  // ---------------------------------------------------------------- what a plan means

  /** A move between two eligible CPUs that the thread's mask allows and that narrows a load
      difference of at least two. */
  ghost predicate LegalMove(s: Smp, eligible: set<nat>, t: nat, from: nat, to: nat) {
    && from in eligible && to in eligible && from != to && from < |s.queues| && to < |s.queues|
    && Assigned(s, t).Some? && Movable(Assigned(s, t).value, from, to)
    && Load(s.queues[from]) >= Load(s.queues[to]) + 2
  }

  predicate Before(from: nat, to: nat, from': nat, to': nat) {
    from < from' || (from == from' && to < to')
  }

  /** The plan is a legal move with true loads, and the running thread only goes if no waiting
      thread may make the same move. */
  ghost predicate SoundPlan(s: Smp, eligible: set<nat>, p: Plan) {
    && LegalMove(s, eligible, p.thread, p.from, p.to)
    && p.sourceLoad == Load(s.queues[p.from]) && p.destinationLoad == Load(s.queues[p.to])
    && (s.queues[p.from].current == Some(p.thread) ==>
          forall t :: LegalMove(s, eligible, t, p.from, p.to) ==> t == p.thread)
  }

  /** No legal move among the CPU pairs before `(f, d)` narrows a larger difference, nor an equal
      one at a lower pair. */
  ghost predicate Maximal(s: Smp, eligible: set<nat>, p: Plan, f: nat, d: nat) {
    forall t: nat, from: nat, to: nat {:trigger LegalMove(s, eligible, t, from, to)} ::
      LegalMove(s, eligible, t, from, to) && Before(from, to, f, d) ==>
        var gain := Load(s.queues[from]) - Load(s.queues[to]);
        gain < Gain(p) || (gain == Gain(p) && !Before(from, to, p.from, p.to))
  }

  ghost predicate BestBefore(s: Smp, eligible: set<nat>, best: Option<Plan>, f: nat, d: nat) {
    && (best.None? ==> forall t: nat, from: nat, to: nat {:trigger LegalMove(s, eligible, t, from, to)} ::
          LegalMove(s, eligible, t, from, to) ==> !Before(from, to, f, d))
    && (best.Some? ==> SoundPlan(s, eligible, best.value) && Before(best.value.from, best.value.to, f, d)
                       && Maximal(s, eligible, best.value, f, d))
  }

  lemma MovableAssigned(s: Smp, t: nat, from: nat, to: nat)
    requires SmpInv(s)
    ensures (exists a :: a in s.assignments && a.thread == t && Movable(a, from, to))
            <==> Assigned(s, t).Some? && Movable(Assigned(s, t).value, from, to)
  {
  }

  /** One CPU pair: a plan is found iff some legal move between the two exists, and it is sound. */
  lemma PairPlanSound(s: Smp, eligible: set<nat>, from: nat, to: nat)
    requires SmpInv(s) && from < |s.queues| && to < |s.queues|
    ensures var p := PairPlan(s, eligible, from, to);
            && (p.None? ==> forall t :: !LegalMove(s, eligible, t, from, to))
            && (p.Some? ==> SoundPlan(s, eligible, p.value) && p.value.from == from && p.value.to == to)
  {
    forall t { MovableAssigned(s, t, from, to); }
  }

  lemma PairStep(s: Smp, eligible: set<nat>, from: nat, to: nat, best: Option<Plan>)
    requires SmpInv(s) && from < |s.queues| && to < |s.queues|
    requires BestBefore(s, eligible, best, from, to)
    ensures BestBefore(s, eligible, Better(best, PairPlan(s, eligible, from, to)), from, to + 1)
  {
    hide SmpInv, PairPlan, Load;
    PairPlanSound(s, eligible, from, to);
  }

  lemma {:induction false} RowScan(s: Smp, eligible: set<nat>, from: nat, to: nat, best: Option<Plan>)
    requires SmpInv(s) && from < |s.queues| && to <= |s.queues|
    requires BestBefore(s, eligible, best, from, to)
    ensures BestBefore(s, eligible, ScanRow(s, eligible, from, to, best), from + 1, 0)
    decreases |s.queues| - to
  {
    hide BestBefore;
    if to < |s.queues| {
      PairStep(s, eligible, from, to, best);
      RowScan(s, eligible, from, to + 1, Better(best, PairPlan(s, eligible, from, to)));
    } else {
      RowEnd(s, eligible, from, best);
    }
  }

  lemma RowEnd(s: Smp, eligible: set<nat>, from: nat, best: Option<Plan>)
    requires BestBefore(s, eligible, best, from, |s.queues|)
    ensures BestBefore(s, eligible, best, from + 1, 0)
  {
  }

  lemma {:induction false} FullScan(s: Smp, eligible: set<nat>, from: nat, best: Option<Plan>)
    requires SmpInv(s) && from <= |s.queues|
    requires BestBefore(s, eligible, best, from, 0)
    ensures BestBefore(s, eligible, ScanAll(s, eligible, from, best), |s.queues|, 0)
    decreases |s.queues| - from
  {
    hide BestBefore;
    if from < |s.queues| {
      RowScan(s, eligible, from, 0, best);
      FullScan(s, eligible, from + 1, ScanRow(s, eligible, from, 0, best));
    }
  }

  /** `rebalance_plan` is sound, complete and maximal. */
  lemma PlanIsBest(s: Smp, eligible: set<nat>)
    requires SmpInv(s) && ValidateAffinity(s, eligible).None?
    ensures var r := RebalancePlan(s, eligible);
            && r.Ok?
            && (r.value.None? <==> forall t: nat, from: nat, to: nat :: !LegalMove(s, eligible, t, from, to))
            && (r.value.Some? ==>
                  SoundPlan(s, eligible, r.value.value) && Maximal(s, eligible, r.value.value, |s.queues|, 0))
  {
    FullScan(s, eligible, 0, None);
  }

  // ---------------------------------------------------------------- loads

  function TotalLoad(qs: seq<Queue>): nat {
    if qs == [] then 0 else Load(qs[0]) + TotalLoad(qs[1..])
  }

  function Imbalance(qs: seq<Queue>): nat {
    if qs == [] then 0 else Load(qs[0]) * Load(qs[0]) + Imbalance(qs[1..])
  }

  lemma {:induction false} LoadsUpdate(qs: seq<Queue>, i: nat, q: Queue)
    requires i < |qs|
    ensures TotalLoad(qs[i := q]) == TotalLoad(qs) - Load(qs[i]) + Load(q)
    ensures Imbalance(qs[i := q]) == Imbalance(qs) - Load(qs[i]) * Load(qs[i]) + Load(q) * Load(q)
  {
    if i == 0 {
      assert qs[0 := q][1..] == qs[1..];
    } else {
      LoadsUpdate(qs[1..], i - 1, q);
      assert qs[i := q][1..] == qs[1..][i - 1 := q];
    }
  }

  lemma LoadAfterRemove(q: Queue, t: nat)
    requires QueueOk(q) && t in Line(q)
    ensures Load(Remove(q, t).0) == Load(q) - 1 && Remove(q, t).0.quantum == q.quantum
  {
  }

  lemma LoadAfterEnqueue(q: Queue, t: nat)
    requires QueueOk(q) && Enqueue(q, t).1.Ok?
    ensures Load(Enqueue(q, t).0) == Load(q) + 1 && Enqueue(q, t).0.quantum == q.quantum
  {
  }

  /** Moving one thread changes two loads by one each. */
  lemma MoveLoads(s: Smp, t: nat, from: nat, to: nat)
    requires from < |s.queues| && to < |s.queues| && from != to
    requires QueueOk(s.queues[from]) && QueueOk(s.queues[to]) && t in Line(s.queues[from])
    requires MoveRunnable(s, t, from, to).1.Ok?
    ensures var qs := MoveRunnable(s, t, from, to).0.queues;
            && TotalLoad(qs) == TotalLoad(s.queues)
            && Imbalance(qs) + 2 * (Load(s.queues[from]) - Load(s.queues[to])) == Imbalance(s.queues) + 2
            && (forall c :: 0 <= c < |qs| ==> qs[c].quantum == s.queues[c].quantum)
  {
    hide Remove, Enqueue, Line, QueueOk, TotalLoad, Imbalance;
    var q1, q2 := Remove(s.queues[from], t).0, Enqueue(s.queues[to], t).0;
    LoadAfterRemove(s.queues[from], t);
    LoadAfterEnqueue(s.queues[to], t);
    LoadsUpdate(s.queues, from, q1);
    LoadsUpdate(s.queues[from := q1], to, q2);
    Squares(Load(s.queues[from]), Load(s.queues[to]));
  }

  lemma Squares(a: nat, b: nat)
    requires a > 0
    ensures (a - 1) * (a - 1) + (b + 1) * (b + 1) == a * a + b * b - 2 * (a - b) + 2
  {
  }

  /** Applying a sound plan keeps the total load and lowers the imbalance by at least two. */
  lemma PlannedMoveImproves(s: Smp, eligible: set<nat>, p: Plan)
    requires SmpInv(s) && SoundPlan(s, eligible, p) && eligible <= s.online
    ensures Shaped(s)
    ensures var (s', r) := Migrate(s, p.thread, p.to);
            && r.Ok? && r.value.placement.migrated && SmpInv(s')
            && TotalLoad(s'.queues) == TotalLoad(s.queues)
            && Imbalance(s'.queues) + 2 <= Imbalance(s.queues)
            && |s'.queues| == |s.queues| && s'.online == s.online
            && (forall c :: 0 <= c < |s.queues| ==> s'.queues[c].quantum == s.queues[c].quantum)
            && SameButCpu(s, s')
  {
    MigrateEffect(s, p.thread, p.to);
    var i := IndexOf(s.assignments, ThreadOf, p.thread).value;
    assert Assigned(s, p.thread) == Some(s.assignments[i]);
    assert p.thread in Line(s.queues[p.from]);
    MoveEffect(s, p.thread, i, s.assignments[i].(cpu := p.to));
    MoveLoads(s, p.thread, p.from, p.to);
  }

  /** Balancing only ever rewrites the CPU of assignments. */
  ghost predicate SameButCpu(s: Smp, s': Smp) {
    && |s'.assignments| == |s.assignments|
    && forall i :: 0 <= i < |s.assignments| ==>
         s'.assignments[i] == s.assignments[i].(cpu := s'.assignments[i].cpu)
  }

  /** With no legal move left and every thread on the eligible CPUs free to use them all, loads
      are within one of each other. */
  lemma BalancedWithinOne(s: Smp, eligible: set<nat>, c: nat, d: nat)
    requires SmpInv(s) && eligible <= s.online && c in eligible && d in eligible
    requires forall t: nat, from: nat, to: nat :: !LegalMove(s, eligible, t, from, to)
    requires forall t :: Standing(Where(s, t)) && Where(s, t).cpu in eligible ==>
               Assigned(s, t).Some? && eligible <= Assigned(s, t).value.affinity
    ensures Load(s.queues[c]) <= Load(s.queues[d]) + 1
  {
    if Load(s.queues[c]) >= Load(s.queues[d]) + 2 {
      LineView(s.queues[c]);
      var t := Line(s.queues[c])[0];
      assert t in Line(s.queues[c]);
      assert Standing(Where(s, t));
      assert LegalMove(s, eligible, t, c, d);
    }
  }

  // ---------------------------------------------------------------- load = runnable assignments

  function CountOn(assignments: seq<Assignment>, c: nat): nat {
    if assignments == [] then 0
    else (if StandsOn(Some(assignments[0]), c) then 1 else 0) + CountOn(assignments[1..], c)
  }

  function ThreadsOn(assignments: seq<Assignment>, c: nat): set<nat> {
    set a | a in assignments && StandsOn(Some(a), c) :: a.thread
  }

  lemma {:induction false} CountThreadsOn(assignments: seq<Assignment>, c: nat)
    requires Unique(assignments, ThreadOf)
    ensures |ThreadsOn(assignments, c)| == CountOn(assignments, c)
  {
    if assignments != [] {
      var a, rest := assignments[0], assignments[1..];
      CountThreadsOn(rest, c);
      assert assignments == [a] + rest;
      assert a.thread !in ThreadsOn(rest, c) by {
        assert forall i :: 0 < i < |assignments| ==> ThreadOf(assignments[0]) != ThreadOf(assignments[i]);
      }
      assert ThreadsOn(assignments, c) == ThreadsOn(rest, c) + if StandsOn(Some(a), c) then {a.thread} else {};
    }
  }

  /** Each CPU's load is its number of runnable assignments. */
  lemma LoadIsCount(s: Smp, c: nat)
    requires SmpInv(s) && c < |s.queues|
    ensures Load(s.queues[c]) == CountOn(s.assignments, c)
  {
    LineView(s.queues[c]);
    DistinctCount(Line(s.queues[c]));
    CountThreadsOn(s.assignments, c);
    forall t ensures t in Elements(Line(s.queues[c])) <==> t in ThreadsOn(s.assignments, c) {
      assert t in Line(s.queues[c]) <==> StandsOn(Assigned(s, t), c);
      if t in ThreadsOn(s.assignments, c) {
        var a :| a in s.assignments && StandsOn(Some(a), c) && a.thread == t;
        LookupMember(s.assignments, ThreadOf, a);
      }
    }
    assert Elements(Line(s.queues[c])) == ThreadsOn(s.assignments, c);
  }
}
