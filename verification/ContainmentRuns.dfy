/** Subtree termination, and what holds over whole runs of containment operations. */
module ContainmentRuns {
  import opened Common
  import opened Containment
  import opened ContainmentInvariant
  import opened ContainmentSafety

  // ---------------------------------------------------------------- termination of a subtree

  ghost predicate AfterTermination(jobs: seq<Job>, jobs': seq<Job>, r: nat)
    requires Ordered(jobs) && r < |jobs|
  {
    |jobs'| == |jobs| && forall i :: 0 <= i < |jobs| ==> jobs'[i] == Terminated(jobs, r, i)
  }

  lemma TerminatedOrdered(jobs: seq<Job>, jobs': seq<Job>, r: nat)
    requires Ordered(jobs) && r < |jobs| && AfterTermination(jobs, jobs', r)
    ensures Ordered(jobs')
  {
  }

  /** Outside the subtree ancestry does not change. */
  lemma {:induction false} KeptChain(jobs: seq<Job>, jobs': seq<Job>, r: nat, i: nat, x: nat)
    requires Ordered(jobs) && r < |jobs| && AfterTermination(jobs, jobs', r) && Ordered(jobs')
    requires x < |jobs| && !InChain(jobs, r, x)
    ensures InChain(jobs', i, x) == InChain(jobs, i, x)
    decreases x
  {
    if jobs[x].parent.Some? { KeptChain(jobs, jobs', r, i, jobs[x].parent.value - 1); }
  }

  lemma KeptReservations(jobs: seq<Job>, jobs': seq<Job>, r: nat, x: nat)
    requires Ordered(jobs) && r < |jobs| && AfterTermination(jobs, jobs', r) && x < |jobs|
    ensures jobs'[x].processes == if InChain(jobs, r, x) then [] else jobs[x].processes
  {
  }

  lemma {:induction false} TotalLoses(jobs: seq<Job>, jobs': seq<Job>, r: nat, n: nat, i: nat, k: Resource)
    requires Ordered(jobs) && r < |jobs| && AfterTermination(jobs, jobs', r) && Ordered(jobs')
    requires n <= |jobs| && i < |jobs|
    ensures Total(jobs', n, i, k) ==
            if InChain(jobs, r, i) then 0
            else Total(jobs, n, i, k) - if InChain(jobs, i, r) then Total(jobs, n, r, k) else 0
  {
    hide Terminated;
    if n > 0 {
      var x := n - 1;
      TotalLoses(jobs, jobs', r, x, i, k);
      KeptReservations(jobs, jobs', r, x);
      if InChain(jobs, r, x) {
        if InChain(jobs, i, r) { ChainTransitive(jobs, i, r, x); }
        if InChain(jobs, i, x) { ChainComparable(jobs, i, r, x); }
      } else {
        KeptChain(jobs, jobs', r, i, x);
        if InChain(jobs, r, i) && InChain(jobs, i, x) { ChainTransitive(jobs, r, i, x); }
      }
    }
  }

  lemma TerminatedAccounts(jobs: seq<Job>, jobs': seq<Job>, r: nat)
    requires Ordered(jobs) && r < |jobs| && Accounts(jobs) && AfterTermination(jobs, jobs', r) && Ordered(jobs')
    ensures Accounts(jobs')
    ensures forall i, k :: 0 <= i < |jobs| && InChain(jobs, i, r) && i != r ==>
              jobs'[i].usage.Of(k) == jobs[i].usage.Of(k) - Total(jobs, |jobs|, r, k)
  {
    forall i, k | 0 <= i < |jobs|
      ensures jobs'[i].usage.Of(k) == Total(jobs', |jobs'|, i, k)
      ensures InChain(jobs, i, r) && i != r ==> jobs'[i].usage.Of(k) == jobs[i].usage.Of(k) - Total(jobs, |jobs|, r, k)
    {
      TotalLoses(jobs, jobs', r, |jobs|, i, k);
      assert jobs[i].usage.Of(k) == Total(jobs, |jobs|, i, k) && jobs[r].usage.Of(k) == Total(jobs, |jobs|, r, k);
      if InChain(jobs, r, i) && InChain(jobs, i, r) { ChainBound(jobs, r, i); ChainBound(jobs, i, r); }
      ExcessOf(jobs[i].usage, jobs[r].usage, k);
    }
  }

  lemma ExcessOf(a: Usage, b: Usage, k: Resource)
    ensures Excess(a, b).Of(k) == SatSub(a.Of(k), b.Of(k))
  {
  }

  lemma Emptied(jobs: seq<Job>, jobs': seq<Job>, r: nat, i: nat)
    requires Ordered(jobs) && r < |jobs| && AfterTermination(jobs, jobs', r) && i < |jobs| && InChain(jobs, r, i)
    ensures |jobs'| == |jobs| && jobs'[i] == Job(i + 1, None, jobs[i].limits, ZERO, [], [], true)
  {
  }

  lemma KeptFields(jobs: seq<Job>, jobs': seq<Job>, r: nat, i: nat)
    requires Ordered(jobs) && r < |jobs| && AfterTermination(jobs, jobs', r) && i < |jobs| && !InChain(jobs, r, i)
    requires Unique(jobs[i].children, Id)
    ensures |jobs'| == |jobs| && jobs'[i] == jobs[i].(usage := jobs'[i].usage, children := jobs'[i].children)
    ensures Unique(jobs'[i].children, Id) && |jobs'[i].children| <= |jobs[i].children|
  {
    WithoutUnique(jobs[i].children, jobs[r].id);
  }

  lemma TerminatedJobOk(jobs: seq<Job>, jobs': seq<Job>, r: nat, i: nat)
    requires Shape(jobs) && r < |jobs| && jobs[r].parent.Some? && AfterTermination(jobs, jobs', r) && Ordered(jobs')
    requires i < |jobs|
    ensures JobOk(jobs', i)
  {
    hide Terminated, InChain, AfterTermination;
    if InChain(jobs, r, i) {
      ChainBound(jobs, r, i);
      Emptied(jobs, jobs', r, i);
    } else {
      assert JobOk(jobs, i);
      KeptFields(jobs, jobs', r, i);
      forall c | c in jobs'[i].children ensures 1 <= c <= |jobs'| && jobs'[c - 1].parent == Some(jobs'[i].id) {
        KeptChild(jobs, jobs', r, i, c);
      }
      if jobs[i].parent.Some? { KeptLink(jobs, jobs', r, i); }
    }
  }

  lemma KeptChild(jobs: seq<Job>, jobs': seq<Job>, r: nat, i: nat, c: nat)
    requires Shape(jobs) && r < |jobs| && AfterTermination(jobs, jobs', r)
    requires i < |jobs| && !InChain(jobs, r, i) && c in jobs'[i].children
    ensures 1 <= c <= |jobs'| && jobs'[c - 1].parent == Some(jobs[i].id)
  {
    assert JobOk(jobs, i);
    assert c in jobs[i].children && jobs[c - 1].parent == Some(jobs[i].id);
    if c - 1 == r {
      assert InChain(jobs, i, jobs[r].parent.value - 1);
    }
  }

  lemma KeptLink(jobs: seq<Job>, jobs': seq<Job>, r: nat, i: nat)
    requires Shape(jobs) && r < |jobs| && AfterTermination(jobs, jobs', r)
    requires i < |jobs| && !InChain(jobs, r, i) && jobs[i].parent.Some?
    ensures jobs[i].id in jobs'[jobs[i].parent.value - 1].children
  {
    assert JobOk(jobs, i);
    assert !InChain(jobs, r, jobs[i].parent.value - 1);
  }

  lemma TerminatedApart(jobs: seq<Job>, jobs': seq<Job>, r: nat)
    requires Ordered(jobs) && Apart(jobs) && r < |jobs| && AfterTermination(jobs, jobs', r)
    ensures Apart(jobs')
  {
  }

  lemma TerminatedInLimits(jobs: seq<Job>, jobs': seq<Job>, r: nat)
    requires Ordered(jobs) && InLimits(jobs) && r < |jobs| && AfterTermination(jobs, jobs', r)
    ensures InLimits(jobs')
  {
  }

  /** What becomes of job `i` when the subtree of `r` is terminated: descendants are emptied and retired,
      proper ancestors lose exactly the subtree's total and the link to it, others are left alone. */
  ghost predicate LosesSubtree(jobs: seq<Job>, jobs': seq<Job>, r: nat, i: nat)
    requires Ordered(jobs) && r < |jobs| == |jobs'| && i < |jobs|
  {
    if InChain(jobs, r, i) then jobs'[i] == Job(i + 1, None, jobs[i].limits, ZERO, [], [], true)
    else if InChain(jobs, i, r) then
      && jobs'[i] == jobs[i].(usage := jobs'[i].usage, children := jobs'[i].children)
      && (forall c :: c in jobs'[i].children <==> c in jobs[i].children && c != jobs[r].id)
      && (forall k :: jobs'[i].usage.Of(k) == jobs[i].usage.Of(k) - Total(jobs, |jobs|, r, k))
    else jobs'[i] == jobs[i]
  }

  lemma TerminatedLoses(jobs: seq<Job>, jobs': seq<Job>, r: nat, i: nat)
    requires Shape(jobs) && Accounts(jobs) && r < |jobs| && i < |jobs| && AfterTermination(jobs, jobs', r)
    ensures LosesSubtree(jobs, jobs', r, i)
  {
    hide Excess;
    TerminatedAccounts(jobs, jobs', r);
    assert JobOk(jobs, i);
    assert jobs[r].id in jobs[i].children ==> jobs[r].parent == Some(jobs[i].id);
  }

  /** Termination succeeds for every live job but the root, and reports the number of processes that the
      subtree held. */
  lemma TerminateSafe(t: Tree, root: nat)
    requires TreeInv(t)
    ensures var (t', res) := TerminateSubtree(t, root);
            && Safe(t, (t', res))
            && (res.Ok? <==> 1 <= root <= |t.jobs| && t.jobs[root - 1].parent.Some?)
            && (res.Err? ==> res.error == InvalidJob || res.error == Root)
            && (res.Ok? ==>
                  && |t'.jobs| == |t.jobs| && res.value == Population(t.jobs, root - 1, |t.jobs|)
                  && var r := root - 1;
                  forall i :: 0 <= i < |t.jobs| ==> LosesSubtree(t.jobs, t'.jobs, r, i))
  {
    hide Accounts, Terminated, InLimits, LosesSubtree;
    var (t', res) := TerminateSubtree(t, root);
    if 1 <= root <= |t.jobs| && t.jobs[root - 1].parent.Some? {
      var r := root - 1;
      assert JobOk(t.jobs, r);
      assert AfterTermination(t.jobs, t'.jobs, r);
      TerminatedOrdered(t.jobs, t'.jobs, r);
      TerminatedAccounts(t.jobs, t'.jobs, r);
      TerminatedApart(t.jobs, t'.jobs, r);
      TerminatedInLimits(t.jobs, t'.jobs, r);
      forall i | 0 <= i < |t.jobs| ensures JobOk(t'.jobs, i) && LosesSubtree(t.jobs, t'.jobs, r, i) {
        TerminatedJobOk(t.jobs, t'.jobs, r, i);
        TerminatedLoses(t.jobs, t'.jobs, r, i);
      }
    }
  }

  // ---------------------------------------------------------------- runs

  datatype Op =
    | NewRoot(limits: Usage)
    | NewChild(parent: nat, limits: Usage)
    | Limit(job: nat, limits: Usage)
    | Admit(job: nat, process: nat, usage: Usage)
    | Resize(job: nat, process: nat, usage: Usage)
    | Release(job: nat, process: nat)
    | Terminate(job: nat)

  function Report<T>(outcome: (Tree, Result<T, Error>)): (Tree, Option<Error>) {
    (outcome.0, if outcome.1.Ok? then None else Some(outcome.1.error))
  }

  function Step(t: Tree, op: Op): (Tree, Option<Error>)
    requires Ordered(t.jobs)
  {
    match op
    case NewRoot(limits) => Report(CreateRoot(t, limits))
    case NewChild(parent, limits) => Report(CreateChild(t, parent, limits))
    case Limit(job, limits) => Report(SetLimits(t, job, limits))
    case Admit(job, process, usage) => Report(AdmitProcess(t, job, process, usage))
    case Resize(job, process, usage) => Report(SetProcessUsage(t, job, process, usage))
    case Release(job, process) => Report(ReleaseProcess(t, job, process))
    case Terminate(job) => Report(TerminateSubtree(t, job))
  }

  /** Jobs are never removed, their limits only tighten, and a retired job is frozen. */
  ghost predicate Ages(t: Tree, t': Tree) {
    && |t.jobs| <= |t'.jobs|
    && forall i :: 0 <= i < |t.jobs| ==>
         Within(t'.jobs[i].limits, t.jobs[i].limits) && (t.jobs[i].retired ==> t'.jobs[i] == t.jobs[i])
  }

  lemma RechargedAges(t: Tree, t': Tree, i: nat)
    requires TreeInv(t) && i < |t.jobs| && !t.jobs[i].retired && Recharged(t.jobs, t'.jobs, i)
    ensures Ages(t, t')
  {
    forall x | 0 <= x < |t.jobs| && t.jobs[x].retired ensures t'.jobs[x] == t.jobs[x] {
      if InChain(t.jobs, x, i) { ChainIsLive(t.jobs, x, i); }
      assert forall k :: t'.jobs[x].usage.Of(k) == t.jobs[x].usage.Of(k) + Shift(t.jobs, t'.jobs, x, i, k);
      EqualPointwise(t'.jobs[x].usage, t.jobs[x].usage);
    }
  }

  lemma TerminateAges(t: Tree, root: nat)
    requires TreeInv(t)
    ensures Ages(t, TerminateSubtree(t, root).0)
  {
    TerminateSafe(t, root);
    var (t', res) := TerminateSubtree(t, root);
    if res.Ok? {
      forall x | 0 <= x < |t.jobs|
        ensures Within(t'.jobs[x].limits, t.jobs[x].limits) && (t.jobs[x].retired ==> t'.jobs[x] == t.jobs[x])
      {
        assert LosesSubtree(t.jobs, t'.jobs, root - 1, x) && JobOk(t.jobs, x) && JobOk(t.jobs, root - 1);
        if InChain(t.jobs, x, root - 1) { ChainIsLive(t.jobs, x, root - 1); }
      }
    }
  }

  lemma StepSafe(t: Tree, op: Op)
    requires TreeInv(t)
    ensures var (t', e) := Step(t, op);
            && TreeInv(t') && Ages(t, t') && (e.Some? ==> t' == t && e.value != UsageUnderflow)
  {
    hide JobOk, Accounts, InLimits, Apart, Recharged, LosesSubtree, AdmitProcess, SetProcessUsage, ReleaseProcess,
        TerminateSubtree, CreateChild, CreateRoot, SetLimits;
    match op
    case NewRoot(limits) => CreateRootSafe(t, limits);
    case NewChild(parent, limits) => CreateChildSafe(t, parent, limits);
    case Limit(job, limits) => SetLimitsSafe(t, job, limits);
    case Admit(job, process, usage) =>
      AdmitSafe(t, job, process, usage);
      if Step(t, op).1.None? { RechargedAges(t, Step(t, op).0, job - 1); }
    case Resize(job, process, usage) =>
      SetUsageSafe(t, job, process, usage);
      if Step(t, op).1.None? { HolderIsLive(t, job - 1, process); RechargedAges(t, Step(t, op).0, job - 1); }
    case Release(job, process) =>
      ReleaseSafe(t, job, process);
      if Step(t, op).1.None? { HolderIsLive(t, job - 1, process); RechargedAges(t, Step(t, op).0, job - 1); }
    case Terminate(job) => TerminateSafe(t, job); TerminateAges(t, job);
  }

  lemma HolderIsLive(t: Tree, i: nat, process: nat)
    requires TreeInv(t) && i < |t.jobs| && Holds(t.jobs[i], process)
    ensures !t.jobs[i].retired
  {
    assert JobOk(t.jobs, i);
  }

  /** The state after a run, which the invariant keeps defined. */
  ghost function Run(t: Tree, ops: seq<Op>): (t': Tree)
    requires TreeInv(t)
    ensures TreeInv(t')
    decreases |ops|
  {
    if ops == [] then t
    else
      StepSafe(t, ops[0]);
      Run(Step(t, ops[0]).0, ops[1..])
  }

  /** Over every run: the accounts stay exact, limits only tighten, and a subtree once retired stays retired
      with zero usage for ever. */
  lemma {:induction false} RunsAreAccounted(t: Tree, ops: seq<Op>)
    requires TreeInv(t)
    ensures var t' := Run(t, ops);
            && TreeInv(t') && Ages(t, t')
            && forall i :: 0 <= i < |t.jobs| && t.jobs[i].retired ==> t'.jobs[i].retired && t'.jobs[i].usage == ZERO
    decreases |ops|
  {
    if ops == [] {
      forall i | 0 <= i < |t.jobs| && t.jobs[i].retired ensures t.jobs[i].usage == ZERO { RetiredIsZero(t, i); }
    } else {
      StepSafe(t, ops[0]);
      RunsAreAccounted(Step(t, ops[0]).0, ops[1..]);
    }
  }

  lemma {:induction false} RetiredTotal(jobs: seq<Job>, n: nat, i: nat, k: Resource)
    requires Shape(jobs) && n <= |jobs| && i < |jobs| && jobs[i].retired
    ensures Total(jobs, n, i, k) == 0
  {
    if n > 0 {
      RetiredTotal(jobs, n - 1, i, k);
      assert JobOk(jobs, n - 1);
      if InChain(jobs, i, n - 1) && !jobs[n - 1].retired { ChainIsLive(jobs, i, n - 1); }
    }
  }

  lemma RetiredIsZero(t: Tree, i: nat)
    requires TreeInv(t) && i < |t.jobs| && t.jobs[i].retired
    ensures t.jobs[i].usage == ZERO
  {
    forall k ensures t.jobs[i].usage.Of(k) == ZERO.Of(k) { RetiredTotal(t.jobs, |t.jobs|, i, k); }
    EqualPointwise(t.jobs[i].usage, ZERO);
  }
}
