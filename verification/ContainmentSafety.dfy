/** Every operation on the job hierarchy keeps the invariant; a refused operation changes nothing, and the
    underflow error cannot occur. */
module ContainmentSafety {
  import opened Common
  import opened Containment
  import opened ContainmentInvariant

  /** What is promised of every call: the invariant holds again, an error leaves the tree as it was, and
      the accounting never underflows. */
  ghost predicate Safe<T>(t: Tree, outcome: (Tree, Result<T, Error>)) {
    && TreeInv(outcome.0)
    && (outcome.1.Err? ==> outcome.0 == t && outcome.1.error != UsageUnderflow)
  }

  // ---------------------------------------------------------------- new jobs

  lemma {:induction false} TotalPush(jobs: seq<Job>, job: Job, n: nat, i: nat, k: Resource)
    requires Ordered(jobs) && Ordered(jobs + [job]) && job.processes == [] && n <= |jobs| + 1
    ensures Total(jobs + [job], n, i, k) == if n <= |jobs| then Total(jobs, n, i, k) else Total(jobs, |jobs|, i, k)
  {
    if n > 0 {
      TotalPush(jobs, job, n - 1, i, k);
      if n <= |jobs| { SameChain(jobs, jobs + [job], i, n - 1); }
    }
  }

  lemma {:induction false} TotalBeyond(jobs: seq<Job>, n: nat, i: nat, k: Resource)
    requires Ordered(jobs) && n <= |jobs| <= i
    ensures Total(jobs, n, i, k) == 0
  {
    if n > 0 {
      TotalBeyond(jobs, n - 1, i, k);
      if InChain(jobs, i, n - 1) { ChainBound(jobs, i, n - 1); }
    }
  }

  lemma PushAccounts(jobs: seq<Job>, job: Job)
    requires Ordered(jobs) && Accounts(jobs) && Ordered(jobs + [job]) && job.processes == [] && job.usage == ZERO
    ensures Accounts(jobs + [job])
  {
    var jobs' := jobs + [job];
    forall i, k | 0 <= i < |jobs'| ensures jobs'[i].usage.Of(k) == Total(jobs', |jobs'|, i, k) {
      TotalPush(jobs, job, |jobs'|, i, k);
      if i == |jobs| { TotalBeyond(jobs, |jobs|, i, k); }
    }
  }

  /** Changing only child links and limits does not touch the accounts. */
  lemma {:induction false} TotalSame(jobs: seq<Job>, jobs': seq<Job>, n: nat, i: nat, k: Resource)
    requires Ordered(jobs) && Ordered(jobs') && SameParents(jobs, jobs') && |jobs'| == |jobs| && n <= |jobs|
    requires forall x :: 0 <= x < |jobs| ==> jobs'[x].processes == jobs[x].processes
    ensures Total(jobs', n, i, k) == Total(jobs, n, i, k)
  {
    if n > 0 {
      TotalSame(jobs, jobs', n - 1, i, k);
      SameChain(jobs, jobs', i, n - 1);
    }
  }

  lemma SameAccounts(jobs: seq<Job>, jobs': seq<Job>)
    requires Ordered(jobs) && Accounts(jobs) && Ordered(jobs') && SameParents(jobs, jobs') && |jobs'| == |jobs|
    requires forall x :: 0 <= x < |jobs| ==> jobs'[x].processes == jobs[x].processes && jobs'[x].usage == jobs[x].usage
    ensures Accounts(jobs')
  {
    forall i, k | 0 <= i < |jobs'| ensures jobs'[i].usage.Of(k) == Total(jobs', |jobs'|, i, k) {
      TotalSame(jobs, jobs', |jobs|, i, k);
      assert jobs[i].usage.Of(k) == Total(jobs, |jobs|, i, k);
    }
  }

  lemma PushApart(jobs: seq<Job>, job: Job)
    requires Apart(jobs) && job.processes == []
    ensures Apart(jobs + [job])
  {
  }

  lemma CreateRootSafe(t: Tree, limits: Usage)
    requires TreeInv(t)
    ensures var (t', r) := CreateRoot(t, limits);
            && Safe(t, (t', r)) && (r.Ok? <==> t.jobs == [])
            && (r.Ok? ==> t'.jobs == [Job(1, None, limits, ZERO, [], [], false)] && r.value == 1)
  {
    hide Accounts, Shape, InLimits;
    if t.jobs == [] {
      var job := Job(1, None, limits, ZERO, [], [], false);
      assert t.jobs + [job] == [job];
      RootShape(job);
      PushAccounts([], job);
    }
  }

  lemma RootShape(job: Job)
    requires job == Job(1, None, job.limits, ZERO, [], [], false)
    ensures Shape([job]) && InLimits([job]) && Ordered([]) && Accounts([]) && [] + [job] == [job]
  {
    assert JobOk([job], 0);
  }

  function WithChild(jobs: seq<Job>, p: nat, job: Job): seq<Job>
    requires p < |jobs|
  {
    (jobs + [job])[p := jobs[p].(children := jobs[p].children + [job.id])]
  }

  lemma UniquePush(s: seq<nat>, x: nat)
    requires Unique(s, Id) && x !in s
    ensures Unique(s + [x], Id)
  {
  }

  lemma ParentOk(jobs: seq<Job>, p: nat, job: Job)
    requires Shape(jobs) && p < |jobs| && !jobs[p].retired && |jobs[p].children| < MAX_CHILDREN_PER_JOB
    requires job == Job(|jobs| + 1, Some(p + 1), job.limits, ZERO, [], [], false)
    ensures Ordered(WithChild(jobs, p, job)) && JobOk(WithChild(jobs, p, job), p)
  {
    assert JobOk(jobs, p);
    UniquePush(jobs[p].children, job.id);
  }

  lemma ChildShape(jobs: seq<Job>, p: nat, job: Job)
    requires Shape(jobs) && p < |jobs| && !jobs[p].retired && |jobs[p].children| < MAX_CHILDREN_PER_JOB
    requires job == Job(|jobs| + 1, Some(p + 1), job.limits, ZERO, [], [], false)
    ensures Shape(WithChild(jobs, p, job))
  {
    var jobs' := WithChild(jobs, p, job);
    ParentOk(jobs, p, job);
    forall i | 0 <= i < |jobs'| ensures JobOk(jobs', i) {
      if i < |jobs| { assert JobOk(jobs, i); }
    }
    PushApart(jobs, job);
    SameApart(jobs + [job], jobs');
  }

  lemma SameApart(jobs: seq<Job>, jobs': seq<Job>)
    requires Apart(jobs) && |jobs'| == |jobs| && forall i :: 0 <= i < |jobs| ==> jobs'[i].processes == jobs[i].processes
    ensures Apart(jobs')
  {
    assert forall i, q :: 0 <= i < |jobs'| ==> Holds(jobs'[i], q) == Holds(jobs[i], q);
  }

  /** A child starts live, empty and uncharged under its parent. */
  lemma CreateChildSafe(t: Tree, parent: nat, limits: Usage)
    requires TreeInv(t)
    ensures var (t', r) := CreateChild(t, parent, limits);
            && Safe(t, (t', r))
            && (r.Ok? <==> 1 <= parent <= |t.jobs| < MAX_CONTAINMENT_JOBS && !t.jobs[parent - 1].retired
                           && |t.jobs[parent - 1].children| < MAX_CHILDREN_PER_JOB)
            && (r.Ok? ==> r.value == |t.jobs| + 1
                          && t'.jobs == WithChild(t.jobs, parent - 1,
                              Job(r.value, Some(parent), limits, ZERO, [], [], false)))
  {
    hide Accounts, JobOk;
    var (t', r) := CreateChild(t, parent, limits);
    if r.Ok? {
      var job := Job(t.nextJob, Some(parent), limits, ZERO, [], [], false);
      ChildShape(t.jobs, parent - 1, job);
      PushAccounts(t.jobs, job);
      SameAccounts(t.jobs + [job], t'.jobs);
    }
  }

  /** Limits change only downwards, and never below the current usage. */
  lemma SetLimitsSafe(t: Tree, job: nat, limits: Usage)
    requires TreeInv(t)
    ensures var (t', r) := SetLimits(t, job, limits);
            && Safe(t, (t', r))
            && (r.Ok? <==> 1 <= job <= |t.jobs| && !t.jobs[job - 1].retired
                           && Within(limits, t.jobs[job - 1].limits) && Within(t.jobs[job - 1].usage, limits))
            && (r.Ok? ==> t'.jobs == t.jobs[job - 1 := t.jobs[job - 1].(limits := limits)])
  {
    var (t', r) := SetLimits(t, job, limits);
    if r.Ok? {
      SameAccounts(t.jobs, t'.jobs);
      forall i | 0 <= i < |t'.jobs| ensures JobOk(t'.jobs, i) {
        assert JobOk(t.jobs, i);
      }
      SameApart(t.jobs, t'.jobs);
    }
  }

  // ---------------------------------------------------------------- reservations

  lemma ChangedOf(u: Usage, d: Usage, add: bool, k: Resource)
    requires Changed(u, d, add).Some?
    ensures Changed(u, d, add).value.Of(k) == if add then u.Of(k) + d.Of(k) else u.Of(k) - d.Of(k)
  {
  }

  /** Charging a chain by what its job's reservations change by. `jobs0` is `jobs`, possibly with the
      reservations already changed; `jobs'` is the charged forest with the new reservations. */
  lemma ChainRecharges(jobs: seq<Job>, jobs0: seq<Job>, jobs': seq<Job>, i: nat, d: Usage, add: bool)
    requires Ordered(jobs) && i < |jobs| && |jobs0| == |jobs|
    requires forall x :: 0 <= x < |jobs| ==>
             jobs0[x] == jobs[x].(processes := if x == i then jobs0[i].processes else jobs[x].processes)
    requires forall x :: 0 <= x < |jobs| && InChain(jobs, x, i) ==> Changed(jobs[x].usage, d, add).Some?
    requires |jobs'| == |jobs|
    requires forall x :: 0 <= x < |jobs| ==>
               jobs'[x] == ApplyChain(jobs0, i, d, add).0[x].(processes := if x == i then jobs'[i].processes
                   else jobs[x].processes)
    requires forall k :: Own(jobs'[i].processes, k) - Own(jobs[i].processes, k) == if add then d.Of(k) else 0 - d.Of(k)
    ensures ApplyChain(jobs0, i, d, add).1.None? && Recharged(jobs, jobs', i)
  {
    forall x | 0 <= x < |jobs| ensures InChain(jobs0, x, i) == InChain(jobs, x, i) {
      SameChain(jobs, jobs0, x, i);
    }
    ApplyExact(jobs0, i, d, add);
    forall x, k | 0 <= x < |jobs| ensures jobs'[x].usage.Of(k) == jobs[x].usage.Of(k) + Shift(jobs, jobs', x, i, k) {
      if InChain(jobs, x, i) { ChangedOf(jobs[x].usage, d, add, k); }
    }
  }

  lemma PushReservations(rs: seq<Reservation>, r: Reservation)
    requires Unique(rs, ProcessOf) && ReservationsOk(rs) && |rs| < MAX_PROCESSES_PER_JOB
    requires IndexOf(rs, ProcessOf, r.process).None? && r.process > 0 && r.usage.processes == 1
    ensures Unique(rs + [r], ProcessOf) && ReservationsOk(rs + [r])
    ensures forall p :: IndexOf(rs + [r], ProcessOf, p).Some? ==> p == r.process || IndexOf(rs, ProcessOf, p).Some?
  {
  }

  /** Admission succeeds iff the request is well formed, the job is live and every job of the chain has
      room; then the chain is charged and the reservation recorded. */
  lemma AdmitSafe(t: Tree, job: nat, process: nat, usage: Usage)
    requires TreeInv(t)
    ensures var (t', r) := AdmitProcess(t, job, process, usage);
            && Safe(t, (t', r))
            && (r.Ok? <==> process > 0 && usage.processes == 1 && 1 <= job <= |t.jobs| && !t.jobs[job - 1].retired
                           && !Reserved(t.jobs, process) && |t.jobs[job - 1].processes| < MAX_PROCESSES_PER_JOB
                           && ChainCapacity(t.jobs, job - 1, usage).None?)
            && (r.Ok? ==> Recharged(t.jobs, t'.jobs, job - 1)
                          && t'.jobs[job - 1].processes == t.jobs[job - 1].processes + [Reservation(process, usage)])
  {
    hide ApplyChain;
    if 1 <= job <= |t.jobs| && process > 0 && usage.processes == 1 && !t.jobs[job - 1].retired
       && !Reserved(t.jobs, process) && |t.jobs[job - 1].processes| < MAX_PROCESSES_PER_JOB {
      var i := job - 1;
      CapacityExact(t.jobs, i, usage);
      CapacityIsNotUnderflow(t.jobs, i, usage);
      if ChainCapacity(t.jobs, i, usage).None? { AdmitCharges(t, i, process, usage); }
    }
  }

  lemma {:induction false} CapacityIsNotUnderflow(jobs: seq<Job>, i: nat, d: Usage)
    requires Ordered(jobs) && i < |jobs|
    ensures ChainCapacity(jobs, i, d) != Some(UsageUnderflow)
    decreases i
  {
    if jobs[i].parent.Some? { CapacityIsNotUnderflow(jobs, jobs[i].parent.value - 1, d); }
  }

  lemma AdmitCharges(t: Tree, i: nat, process: nat, usage: Usage)
    requires TreeInv(t) && i < |t.jobs| && process > 0 && usage.processes == 1 && !t.jobs[i].retired
    requires !Reserved(t.jobs, process) && |t.jobs[i].processes| < MAX_PROCESSES_PER_JOB
    requires ChainCapacity(t.jobs, i, usage).None?
    ensures ApplyChain(t.jobs, i, usage, true).1.None?
    ensures var jobs := ApplyChain(t.jobs, i, usage, true).0;
            var jobs' := jobs[i := jobs[i].(processes := jobs[i].processes + [Reservation(process, usage)])];
            Recharged(t.jobs, jobs', i) && TreeInv(t.(jobs := jobs'))
  {
    var jobs := ApplyChain(t.jobs, i, usage, true).0;
    var rs := t.jobs[i].processes;
    var r := Reservation(process, usage);
    var jobs' := jobs[i := jobs[i].(processes := rs + [r])];
    CapacityExact(t.jobs, i, usage);
    forall k ensures Own(rs + [r], k) - Own(rs, k) == usage.Of(k) { OwnPush(rs, r, k); }
    ChainRecharges(t.jobs, t.jobs, jobs', i, usage, true);
    ApplyExact(t.jobs, i, usage, true);
    assert JobOk(t.jobs, i) && !Holds(t.jobs[i], process);
    PushReservations(rs, r);
    RechargedShape(t.jobs, jobs', i);
    RechargedAccounts(t.jobs, jobs', i);
  }

  lemma SwapRemovedReservations(rs: seq<Reservation>, a: nat)
    requires Unique(rs, ProcessOf) && ReservationsOk(rs) && a < |rs|
    ensures Unique(SwapRemove(rs, a), ProcessOf) && ReservationsOk(SwapRemove(rs, a))
    ensures forall p :: IndexOf(SwapRemove(rs, a), ProcessOf, p).Some? ==> IndexOf(rs, ProcessOf, p).Some?
  {
  }

  /** Release always succeeds for a recorded reservation, and uncharges exactly what it held. */
  lemma ReleaseSafe(t: Tree, job: nat, process: nat)
    requires TreeInv(t)
    ensures var (t', r) := ReleaseProcess(t, job, process);
            && Safe(t, (t', r))
            && (r.Ok? <==> 1 <= job <= |t.jobs| && Holds(t.jobs[job - 1], process))
            && (r.Ok? ==>
                  var rs := t.jobs[job - 1].processes; var a := IndexOf(rs, ProcessOf, process).value;
                  && r.value == rs[a].usage && Recharged(t.jobs, t'.jobs, job - 1)
                  && t'.jobs[job - 1].processes == SwapRemove(rs, a))
  {
    hide ApplyChain;
    if 1 <= job <= |t.jobs| && Holds(t.jobs[job - 1], process) {
      ReleaseCharges(t, job - 1, IndexOf(t.jobs[job - 1].processes, ProcessOf, process).value);
    }
  }

  lemma ReleaseCharges(t: Tree, i: nat, a: nat)
    requires TreeInv(t) && i < |t.jobs| && a < |t.jobs[i].processes|
    ensures var rs := t.jobs[i].processes;
            var jobs0 := t.jobs[i := t.jobs[i].(processes := SwapRemove(rs, a))];
            var (jobs', failed) := ApplyChain(jobs0, i, rs[a].usage, false);
            && failed.None? && Recharged(t.jobs, jobs', i) && jobs'[i].processes == SwapRemove(rs, a)
            && TreeInv(t.(jobs := jobs'))
  {
    var rs := t.jobs[i].processes;
    var jobs0 := t.jobs[i := t.jobs[i].(processes := SwapRemove(rs, a))];
    var d := rs[a].usage;
    var jobs' := ApplyChain(jobs0, i, d, false).0;
    forall x | 0 <= x < |t.jobs| && InChain(t.jobs, x, i) ensures Within(d, t.jobs[x].usage) {
      NoUnderflow(t.jobs, x, i, a);
    }
    forall k ensures Own(SwapRemove(rs, a), k) - Own(rs, k) == 0 - d.Of(k) { OwnSwapRemove(rs, a, k); }
    ChainRecharges(t.jobs, jobs0, jobs', i, d, false);
    assert JobOk(t.jobs, i);
    SwapRemovedReservations(rs, a);
    RechargedShape(t.jobs, jobs', i);
    RechargedAccounts(t.jobs, jobs', i);
    UnchargedInLimits(t.jobs, jobs', i);
  }

  /** Lower usage stays within limits. */
  lemma UnchargedInLimits(jobs: seq<Job>, jobs': seq<Job>, i: nat)
    requires Ordered(jobs) && i < |jobs| && InLimits(jobs) && Recharged(jobs, jobs', i)
    requires forall k :: Own(jobs'[i].processes, k) <= Own(jobs[i].processes, k)
    ensures InLimits(jobs')
  {
    forall x | 0 <= x < |jobs'| ensures Within(jobs'[x].usage, jobs'[x].limits) && Fits(jobs'[x].usage) {
      forall k ensures jobs'[x].usage.Of(k) <= jobs[x].usage.Of(k) {
        assert Shift(jobs, jobs', x, i, k) <= 0;
      }
      WithinPointwise(jobs'[x].usage, jobs[x].usage);
    }
  }

  lemma ReplacedReservations(rs: seq<Reservation>, a: nat, usage: Usage)
    requires Unique(rs, ProcessOf) && ReservationsOk(rs) && a < |rs| && usage.processes == 1
    ensures var rs' := rs[a := Reservation(rs[a].process, usage)];
            && Unique(rs', ProcessOf) && ReservationsOk(rs')
            && forall p :: IndexOf(rs', ProcessOf, p).Some? ==> IndexOf(rs, ProcessOf, p).Some?
  {
  }

  /** The first phase of a usage change, run or skipped, charges the chain by the excess. */
  lemma FirstPhase(t: Tree, i: nat, usage: Usage, current: Usage)
    requires TreeInv(t) && i < |t.jobs| && usage.processes == current.processes
    requires SomeAtLeast(usage, current) ==> ChainCapacity(t.jobs, i, Excess(usage, current)).None?
    ensures var (jobs1, failed) := if SomeAtLeast(usage, current)
            then ApplyChain(t.jobs, i, Excess(usage, current), true)
                                   else (t.jobs, None);
            failed.None? && InLimits(jobs1) && Topped(t.jobs, jobs1, i, Excess(usage, current))
  {
    if SomeAtLeast(usage, current) {
      CapacityExact(t.jobs, i, Excess(usage, current));
      ApplyExact(t.jobs, i, Excess(usage, current), true);
    } else {
      assert Excess(usage, current) == ZERO;
    }
  }

  /** The forest after the first phase of a usage change. */
  ghost predicate Topped(jobs: seq<Job>, jobs1: seq<Job>, i: nat, more: Usage)
    requires Ordered(jobs) && i < |jobs|
  {
    && OnlyUsage(jobs, jobs1)
    && forall x :: 0 <= x < |jobs| ==>
         jobs1[x].usage == if InChain(jobs, x, i) then Plus(jobs[x].usage, more) else jobs[x].usage
  }

  lemma ToppedChain(jobs: seq<Job>, jobs1: seq<Job>, i: nat, more: Usage)
    requires Ordered(jobs) && i < |jobs| && Topped(jobs, jobs1, i, more)
    ensures forall x :: 0 <= x < |jobs| ==> InChain(jobs1, x, i) == InChain(jobs, x, i)
  {
    forall x | 0 <= x < |jobs| ensures InChain(jobs1, x, i) == InChain(jobs, x, i) {
      SameChain(jobs, jobs1, x, i);
    }
  }

  /** The second phase takes back what the new usage no longer needs; it cannot underflow. */
  lemma SecondPhase(t: Tree, i: nat, a: nat, usage: Usage, jobs1: seq<Job>)
    requires TreeInv(t) && i < |t.jobs| && a < |t.jobs[i].processes|
    requires Topped(t.jobs, jobs1, i, Excess(usage, t.jobs[i].processes[a].usage))
    ensures var current := t.jobs[i].processes[a].usage; var more := Excess(usage, current);
            var less := Excess(current, usage);
            var (jobs2, failed) := ApplyChain(jobs1, i, less, false);
            && failed.None?
            && forall x :: 0 <= x < |t.jobs| ==>
                 jobs2[x].usage == if InChain(t.jobs, x, i) then Excess(Plus(t.jobs[x].usage, more), less)
                     else t.jobs[x].usage
    ensures forall x :: 0 <= x < |t.jobs| && InChain(t.jobs, x, i) ==>
              Within(t.jobs[i].processes[a].usage, t.jobs[x].usage)
  {
    hide JobOk, InLimits, Apart;
    var current := t.jobs[i].processes[a].usage;
    ToppedChain(t.jobs, jobs1, i, Excess(usage, current));
    forall x | 0 <= x < |t.jobs| && InChain(t.jobs, x, i) ensures Within(current, t.jobs[x].usage) {
      NoUnderflow(t.jobs, x, i, a);
    }
    ApplyExact(jobs1, i, Excess(current, usage), false);
  }

  /** Both phases together change reservation and chain by the same difference. */
  lemma PhasesRecharge(jobs: seq<Job>, jobs2: seq<Job>, i: nat, a: nat, usage: Usage)
    requires Ordered(jobs) && i < |jobs| && a < |jobs[i].processes| && OnlyUsage(jobs, jobs2)
    requires var current := jobs[i].processes[a].usage; var more := Excess(usage, current);
             var less := Excess(current, usage);
             forall x :: 0 <= x < |jobs| ==>
               jobs2[x].usage == if InChain(jobs, x, i) then Excess(Plus(jobs[x].usage, more), less) else jobs[x].usage
    requires forall x :: 0 <= x < |jobs| && InChain(jobs, x, i) ==> Within(jobs[i].processes[a].usage, jobs[x].usage)
    ensures var rs := jobs[i].processes;
            Recharged(jobs, jobs2[i := jobs2[i].(processes := rs[a := Reservation(rs[a].process, usage)])], i)
  {
    hide Excess, Plus, Within;
    var rs := jobs[i].processes;
    var jobs' := jobs2[i := jobs2[i].(processes := rs[a := Reservation(rs[a].process, usage)])];
    forall x, k | 0 <= x < |jobs| ensures jobs'[x].usage.Of(k) == jobs[x].usage.Of(k) + Shift(jobs, jobs', x, i, k) {
      OwnSet(rs, a, Reservation(rs[a].process, usage), k);
      if InChain(jobs, x, i) { BalancedExcess(jobs[x].usage, usage, rs[a].usage, k); }
    }
  }

  lemma PhasesInLimits(jobs: seq<Job>, jobs1: seq<Job>, jobs2: seq<Job>, i: nat, more: Usage, less: Usage)
    requires Ordered(jobs) && i < |jobs| && Topped(jobs, jobs1, i, more) && InLimits(jobs1) && OnlyUsage(jobs, jobs2)
    requires forall x :: 0 <= x < |jobs| ==>
               jobs2[x].usage == if InChain(jobs, x, i) then Excess(Plus(jobs[x].usage, more), less) else jobs[x].usage
    ensures InLimits(jobs2)
  {
  }

  lemma BalancedExcess(u: Usage, usage: Usage, current: Usage, k: Resource)
    requires Within(current, u)
    ensures Excess(Plus(u, Excess(usage, current)), Excess(current, usage)).Of(k) ==
            u.Of(k) + usage.Of(k) - current.Of(k)
  {
  }

  /** A usage change succeeds iff it keeps the process count and every job of the chain has room for what
      grows; then reservation and chain change by the difference. */
  lemma SetUsageSafe(t: Tree, job: nat, process: nat, usage: Usage)
    requires TreeInv(t)
    ensures var (t', r) := SetProcessUsage(t, job, process, usage);
            && Safe(t, (t', r))
            && (r.Ok? <==> 1 <= job <= |t.jobs| && Holds(t.jobs[job - 1], process) && usage.processes == 1
                           && ChainCapacity(t.jobs, job - 1, Excess(usage, Recorded(t.jobs[job - 1], process))).None?)
            && (r.Ok? ==>
                  var rs := t.jobs[job - 1].processes;
                  && Recharged(t.jobs, t'.jobs, job - 1)
                  && t'.jobs[job - 1].processes ==
                     rs[IndexOf(rs, ProcessOf, process).value := Reservation(process, usage)])
  {
    hide ApplyChain, ChainCapacity, Recharged, Accounts, InLimits, Topped, Excess, Unique;
    if 1 <= job <= |t.jobs| && Holds(t.jobs[job - 1], process) {
      var i := job - 1;
      var rs := t.jobs[i].processes;
      var a := IndexOf(rs, ProcessOf, process).value;
      var current := rs[a].usage;
      assert JobOk(t.jobs, i);
      CapacityIsNotUnderflow(t.jobs, i, Excess(usage, current));
      if usage.processes == 1 {
        SkippedCheck(t, i, usage, current);
        if ChainCapacity(t.jobs, i, Excess(usage, current)).None? {
          FirstPhase(t, i, usage, current);
          var jobs1 := if SomeAtLeast(usage, current) then ApplyChain(t.jobs, i, Excess(usage, current), true).0
              else t.jobs;
          ResizeCharges(t, i, a, usage, jobs1);
        }
      }
    }
  }

  lemma ResizeCharges(t: Tree, i: nat, a: nat, usage: Usage, jobs1: seq<Job>)
    requires TreeInv(t) && i < |t.jobs| && a < |t.jobs[i].processes| && usage.processes == 1
    requires InLimits(jobs1) && Topped(t.jobs, jobs1, i, Excess(usage, t.jobs[i].processes[a].usage))
    ensures var rs := t.jobs[i].processes;
            var (jobs2, failed) := ApplyChain(jobs1, i, Excess(rs[a].usage, usage), false);
            var jobs' := jobs2[i := jobs2[i].(processes := rs[a := Reservation(rs[a].process, usage)])];
            failed.None? && Recharged(t.jobs, jobs', i) && TreeInv(t.(jobs := jobs'))
  {
    hide ApplyChain, Accounts, InChain, Excess, Within, Fits, Plus;
    var rs := t.jobs[i].processes;
    SecondPhase(t, i, a, usage, jobs1);
    var jobs2 := ApplyChain(jobs1, i, Excess(rs[a].usage, usage), false).0;
    var jobs' := jobs2[i := jobs2[i].(processes := rs[a := Reservation(rs[a].process, usage)])];
    PhasesRecharge(t.jobs, jobs2, i, a, usage);
    PhasesInLimits(t.jobs, jobs1, jobs2, i, Excess(usage, rs[a].usage), Excess(rs[a].usage, usage));
    assert JobOk(t.jobs, i);
    ReplacedReservations(rs, a, usage);
    RechargedShape(t.jobs, jobs', i);
    RechargedAccounts(t.jobs, jobs', i);
  }

  /** Once the check has passed, or was not needed, neither phase fails. */
  lemma ResizePhases(t: Tree, i: nat, a: nat, usage: Usage)
    requires TreeInv(t) && i < |t.jobs| && a < |t.jobs[i].processes|
    requires var current := t.jobs[i].processes[a].usage;
             && usage.processes == current.processes
             && (SomeAtLeast(usage, current) ==> ChainCapacity(t.jobs, i, Excess(usage, current)).None?)
    ensures var current := t.jobs[i].processes[a].usage; var charging := SomeAtLeast(usage, current);
            && (charging ==> ApplyChain(t.jobs, i, Excess(usage, current), true).1.None?)
            && var jobs1 := if charging then ApplyChain(t.jobs, i, Excess(usage, current), true).0 else t.jobs;
            ApplyChain(jobs1, i, Excess(current, usage), false).1.None?
  {
    hide ApplyChain, ChainCapacity, Topped, Recharged, Accounts, InLimits, Excess, SomeAtLeast;
    var current := t.jobs[i].processes[a].usage;
    FirstPhase(t, i, usage, current);
    SecondPhase(t, i, a, usage, if SomeAtLeast(usage, current)
        then ApplyChain(t.jobs, i, Excess(usage, current), true).0 else t.jobs);
  }

  function Recorded(job: Job, process: nat): Usage
    requires Holds(job, process)
  {
    job.processes[IndexOf(job.processes, ProcessOf, process).value].usage
  }

  /** When the charging phase is skipped its check would have passed. */
  lemma SkippedCheck(t: Tree, i: nat, usage: Usage, current: Usage)
    requires TreeInv(t) && i < |t.jobs| && t.jobs[i].processes != [] && usage.processes == current.processes
    ensures !SomeAtLeast(usage, current) ==> ChainCapacity(t.jobs, i, Excess(usage, current)).None?
  {
    if !SomeAtLeast(usage, current) {
      assert Excess(usage, current) == ZERO;
      CapacityExact(t.jobs, i, ZERO);
      assert JobOk(t.jobs, i);
      forall x | 0 <= x < |t.jobs| && InChain(t.jobs, x, i) ensures !t.jobs[x].retired {
        ChainIsLive(t.jobs, x, i);
      }
    }
  }

  /** The ancestors of a job that holds processes are live. */
  lemma {:induction false} ChainIsLive(jobs: seq<Job>, x: nat, i: nat)
    requires x < |jobs| && i < |jobs| && Shape(jobs) && InChain(jobs, x, i) && !jobs[i].retired
    ensures !jobs[x].retired
    decreases i
  {
    assert JobOk(jobs, i);
    if x != i {
      var p := jobs[i].parent.value - 1;
      assert JobOk(jobs, p);
      ChainIsLive(jobs, x, p);
    }
  }
}
