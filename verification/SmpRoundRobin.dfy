/** The mutable multi-CPU scheduler (`SmpRoundRobin` in kernel/src/scheduling.rs): one round-robin object per
    CPU, updated in place, proved against the operations on values. */
module SmpRoundRobin {
  import opened Common
  import R = RoundRobin
  import opened Scheduling
  import S = Scheduling
  import B = Balance

  /** The values of the per-CPU objects. */
  function Values(queues: seq<R.RoundRobin>): (v: seq<R.Queue>)
    reads queues
    ensures |v| == |queues| && forall i :: 0 <= i < |v| ==> v[i] == queues[i].State()
  {
    if queues == [] then [] else Values(queues[..|queues| - 1]) + [queues[|queues| - 1].State()]
  }

  ghost predicate Distinct(queues: seq<R.RoundRobin>) {
    forall i, j :: 0 <= i < j < |queues| ==> queues[i] != queues[j]
  }

  class SmpRoundRobin {
    const queues: seq<R.RoundRobin>
    var assignments: seq<Assignment>
    var online: set<nat>

    function State(): Smp
      reads this, queues
    {
      Smp(Values(queues), assignments, online)
    }

    /** The per-CPU objects are different objects, and assignments name existing CPUs. */
    ghost predicate Valid()
      reads this, queues
    {
      Distinct(queues) && Shaped(State())
    }

    constructor (queues: seq<R.RoundRobin>, online: set<nat>)
      requires Distinct(queues)
      ensures this.queues == queues && Valid() && State() == Smp(Values(queues), [], online)
    {
      this.queues, this.assignments, this.online := queues, [], online;
    }

    /** `with_online_mask`: validates, then builds one queue after the other. */
    static method WithOnlineMask(capacity: nat, quantum: nat, online: set<nat>)
        returns (r: Result<SmpRoundRobin, SmpError>)
      ensures var made := S.WithOnlineMask(capacity, quantum, online);
              if made.Err? then r == Err(made.error)
              else r.Ok? && fresh(r.value) && fresh(r.value.queues) && r.value.Valid() && r.value.State() == made.value
    {
      if capacity == 0 || capacity > MAX_CPUS { return Err(InvalidCpuCount); }
      if online == {} || !(forall c :: c in online ==> c < capacity) { return Err(InvalidCpu); }
      if quantum == 0 { return Err(InvalidQuantum); }
      var queues: seq<R.RoundRobin> := [];
      while |queues| < capacity
        invariant |queues| <= capacity && Distinct(queues) && fresh(queues)
        invariant forall i :: 0 <= i < |queues| ==> queues[i].State() == R.Queue(quantum, 0, None, [], 0, 0, 0)
      {
        var queue := new R.RoundRobin(quantum);
        queues := queues + [queue];
      }
      var scheduler := new SmpRoundRobin(queues, online);
      assert scheduler.State().queues == S.WithOnlineMask(capacity, quantum, online).value.queues;
      r := Ok(scheduler);
    }

    method OnlineCpu(c: nat) returns (r: Result<bool, SmpError>)
      requires Valid()
      modifies this`online
      ensures Valid() && (State(), r) == S.OnlineCpu(old(State()), c)
    {
      if c >= |queues| { return Err(InvalidCpu); }
      if c in online { return Ok(false); }
      online := online + {c};
      r := Ok(true);
    }

    /** The first CPU of the mask with the least load. */
    method LeastLoadedCpu(affinity: set<nat>) returns (r: Result<nat, SmpError>)
      ensures r == LeastLoaded(State(), affinity)
    {
      var best: Option<nat> := None;
      var bestLoad := 0;
      var raw := 0;
      while raw < |queues|
        invariant raw <= |queues| && (best.Some? ==> best.value < raw && bestLoad == R.Load(queues[best.value].State()))
        invariant LeastLoaded(State(), affinity) == LeastLoadedFrom(State(), affinity, raw, best)
      {
        if raw in affinity {
          if raw !in online { return Err(InvalidCpu); }
          var load := R.Load(queues[raw].State());
          if best.None? || load < bestLoad { best, bestLoad := Some(raw), load; }
        }
        raw := raw + 1;
      }
      r := if best.Some? then Ok(best.value) else Err(EmptyAffinity);
    }

    /** `queues[c].admit(t)`, which is also `queues[c].wake(t)`. */
    method Offer(c: nat, t: nat) returns (r: Result<Option<R.Switch>, R.QueueError>)
      requires Distinct(queues) && c < |queues|
      modifies queues[c]
      ensures var q := R.Enqueue(old(Values(queues))[c], t);
              r == q.1 && Values(queues) == if r.Err? then old(Values(queues)) else old(Values(queues))[c := q.0]
    {
      r := queues[c].Admit(t);
    }

    /** `queues[c].remove(t)`. */
    method Take(c: nat, t: nat) returns (r: Result<Option<R.Switch>, R.QueueError>)
      requires Distinct(queues) && c < |queues|
      modifies queues[c]
      ensures var q := R.Remove(old(Values(queues))[c], t);
              r == q.1 && Values(queues) == if r.Err? then old(Values(queues)) else old(Values(queues))[c := q.0]
    {
      r := queues[c].Withdraw(t);
    }

    method Admit(t: nat, affinity: set<nat>) returns (r: Result<Admission, SmpError>)
      requires Valid()
      modifies this, queues
      ensures Valid() && (State(), r) == S.Admit(old(State()), t, affinity)
    {
      hide R.Enqueue, LeastLoaded;
      var bad := ValidateAffinity(State(), affinity);
      if bad.Some? { return Err(bad.value); }
      if IndexOf(assignments, ThreadOf, t).Some? { return Err(DuplicateThread); }
      if |assignments| >= R.MAX_RUNNABLE_THREADS { return Err(Capacity); }
      var cpu := LeastLoadedCpu(affinity);
      if cpu.Err? { return Err(cpu.error); }
      var queued := Offer(cpu.value, t);
      if queued.Err? { return Err(Capacity); }
      assignments := assignments + [Assignment(t, affinity, cpu.value, Runnable)];
      r := Ok(Admission(Placement(t, cpu.value, false), queued.value));
    }

    /** Out of one queue, into another. */
    method MoveRunnable(t: nat, from: nat, to: nat)
        returns (r: Result<(bool, Option<R.Switch>, Option<R.Switch>), SmpError>)
      requires Valid() && from < |queues|
      modifies queues
      ensures (State(), r) == S.MoveRunnable(old(State()), t, from, to)
    {
      hide R.Enqueue, R.Remove;
      var accepts := QueueCanAccept(State(), to);
      if accepts.Err? { return Err(accepts.error); }
      if !accepts.value { return Err(Capacity); }
      var wasCurrent := queues[from].current == Some(t);
      var taken := Take(from, t);
      if taken.Err? { return Err(QueueStateMismatch); }
      var queued := Offer(to, t);
      if queued.Err? { return Err(QueueStateMismatch); }
      r := Ok((wasCurrent, taken.value, queued.value));
    }

    method SetAffinity(t: nat, affinity: set<nat>) returns (r: Result<Migration, SmpError>)
      requires Valid()
      modifies this, queues
      ensures (State(), r) == S.SetAffinity(old(State()), t, affinity) && Valid()
    {
      hide S.MoveRunnable, LeastLoaded, Shaped, Distinct, Values;
      var bad := ValidateAffinity(State(), affinity);
      if bad.Some? { return Err(bad.value); }
      var found := IndexOf(assignments, ThreadOf, t);
      if found.None? { return Err(UnknownThread); }
      var i := found.value;
      ShapedAt(State(), i);
      var a := assignments[i];
      if a.cpu in affinity {
        assignments := assignments[i := a.(affinity := affinity)];
        return Ok(Migration(Placement(t, a.cpu, false), false, None, None));
      }
      var to := LeastLoadedCpu(affinity);
      if to.Err? { return Err(to.error); }
      var moved: (bool, Option<R.Switch>, Option<R.Switch>) := (false, None, None);
      if a.state.Runnable? {
        var done := MoveRunnable(t, a.cpu, to.value);
        if done.Err? { return Err(done.error); }
        moved := done.value;
      }
      assignments := assignments[i := a.(affinity := affinity, cpu := to.value)];
      r := Ok(Migration(Placement(t, to.value, true), moved.0, moved.1, moved.2));
    }

    method Migrate(t: nat, to: nat) returns (r: Result<Migration, SmpError>)
      requires Valid()
      modifies this, queues
      ensures Shaped(S.Migrate(old(State()), t, to).0) ==> Valid()
      ensures Distinct(queues) && (State(), r) == S.Migrate(old(State()), t, to)
    {
      hide S.MoveRunnable;
      if to !in online { return Err(InvalidCpu); }
      var found := IndexOf(assignments, ThreadOf, t);
      if found.None? { return Err(UnknownThread); }
      var i := found.value;
      var a := assignments[i];
      if to !in a.affinity { return Err(AffinityViolation); }
      if a.cpu == to { return Ok(Migration(Placement(t, to, false), false, None, None)); }
      var moved: (bool, Option<R.Switch>, Option<R.Switch>) := (false, None, None);
      if a.state.Runnable? {
        var done := MoveRunnable(t, a.cpu, to);
        if done.Err? { return Err(done.error); }
        moved := done.value;
      }
      assignments := assignments[i := a.(cpu := to)];
      r := Ok(Migration(Placement(t, to, true), moved.0, moved.1, moved.2));
    }

    method Tick(c: nat) returns (r: Result<Option<R.Switch>, SmpError>)
      requires Valid()
      modifies queues
      ensures Valid() && (State(), r) == TickCpu(old(State()), c)
    {
      hide R.Tick;
      if c !in online || c >= |queues| { return Err(InvalidCpu); }
      var sw := queues[c].TimerInterrupt();
      assert Values(queues) == old(Values(queues))[c := queues[c].State()];
      r := Ok(sw);
    }

    method YieldCurrent(c: nat) returns (r: Result<Option<R.Switch>, SmpError>)
      requires Valid()
      modifies queues
      ensures Valid() && (State(), r) == YieldCpu(old(State()), c)
    {
      hide R.YieldCurrent;
      if c !in online || c >= |queues| { return Err(InvalidCpu); }
      var sw := queues[c].GiveUp();
      assert Values(queues) == old(Values(queues))[c := queues[c].State()];
      r := Ok(sw);
    }

    method Block(t: nat) returns (r: Result<Transition, SmpError>)
      requires Valid()
      modifies this, queues
      ensures (State(), r) == S.Block(old(State()), t) && Valid()
    {
      hide R.Remove, Shaped, Distinct;
      var found := IndexOf(assignments, ThreadOf, t);
      if found.None? { return Err(UnknownThread); }
      var i := found.value;
      ShapedAt(State(), i);
      var a := assignments[i];
      if a.state.Blocked? { return Err(NotRunnable); }
      var taken := Take(a.cpu, t);
      if taken.Err? { return Err(QueueStateMismatch); }
      assignments := assignments[i := a.(state := Blocked)];
      r := Ok(Transition(t, a.cpu, taken.value));
    }

    method Wake(t: nat) returns (r: Result<Admission, SmpError>)
      requires Valid()
      modifies this, queues
      ensures (State(), r) == S.Wake(old(State()), t) && Valid()
    {
      hide R.Enqueue, WakeTarget, QueueCanAccept, Shaped, Distinct, Values;
      var found := IndexOf(assignments, ThreadOf, t);
      if found.None? { return Err(UnknownThread); }
      var i := found.value;
      ShapedAt(State(), i);
      var a := assignments[i];
      if a.state.Runnable? { return Err(AlreadyRunnable); }
      var to := ChooseWakeCpu(a);
      if to.Err? { return Err(to.error); }
      var accepts := QueueCanAccept(State(), to.value);
      assert accepts.Ok?; // the choice has just passed the same check
      if !accepts.value { return Err(Capacity); }
      var queued := Offer(to.value, t);
      if queued.Err? { return Err(if queued.error.NoRoom? then Capacity else QueueStateMismatch); }
      assignments := assignments[i := a.(cpu := to.value, state := Runnable)];
      r := Ok(Admission(Placement(t, to.value, to.value != a.cpu), queued.value));
    }

    /** The previous CPU, unless another allowed one is shorter by two. */
    method ChooseWakeCpu(a: Assignment) returns (r: Result<nat, SmpError>)
      ensures r == WakeTarget(State(), a)
      ensures r.Ok? ==> r.value < |queues| && QueueCanAccept(State(), r.value).Ok?
    {
      hide LeastLoaded;
      var least := LeastLoadedCpu(a.affinity);
      if least.Err? { return Err(least.error); }
      var previousLoad := CpuLoad(State(), a.cpu);
      if previousLoad.Err? { return Err(previousLoad.error); }
      var leastLoad := CpuLoad(State(), least.value);
      if leastLoad.Err? { return Err(leastLoad.error); }
      r := Ok(if a.cpu in a.affinity && previousLoad.value <= leastLoad.value + 1 then a.cpu else least.value);
    }

    /** `remove`. */
    method Discharge(t: nat) returns (r: Result<Transition, SmpError>)
      requires Valid()
      modifies this, queues
      ensures (State(), r) == S.Discharge(old(State()), t) && Valid()
    {
      hide R.Remove, Shaped, Distinct;
      var found := IndexOf(assignments, ThreadOf, t);
      if found.None? { return Err(UnknownThread); }
      var i := found.value;
      ShapedAt(State(), i);
      var a := assignments[i];
      var sw: Option<R.Switch> := None;
      if a.state.Runnable? {
        var taken := Take(a.cpu, t);
        if taken.Err? { return Err(QueueStateMismatch); }
        sw := taken.value;
      } else {
        assert Values(queues) == Values(queues)[a.cpu := Values(queues)[a.cpu]];
      }
      assignments := RemoveAt(assignments, i);
      r := Ok(Transition(t, a.cpu, sw));
    }

    /** The nested scan over CPU pairs, keeping the best plan so far. */
    method RebalancePlan(eligible: set<nat>) returns (r: Result<Option<B.Plan>, SmpError>)
      ensures r == B.RebalancePlan(State(), eligible)
    {
      hide B.PairPlan, B.Better;
      var bad := ValidateAffinity(State(), eligible);
      if bad.Some? { return Err(bad.value); }
      var best: Option<B.Plan> := None;
      var from := 0;
      while from < |queues|
        invariant from <= |queues| && B.ScanAll(State(), eligible, 0, None) == B.ScanAll(State(), eligible, from, best)
      {
        ghost var before := best;
        var to := 0;
        while to < |queues|
          invariant to <= |queues|
          invariant B.ScanRow(State(), eligible, from, 0, before) == B.ScanRow(State(), eligible, from, to, best)
        {
          best := B.Better(best, B.PairPlan(State(), eligible, from, to));
          to := to + 1;
        }
        from := from + 1;
      }
      r := Ok(best);
    }
  }
}
