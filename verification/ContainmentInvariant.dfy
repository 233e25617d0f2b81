/** What every operation on the job hierarchy keeps: a forest with symmetric links, and usage counters that
    equal, in all five resources, the sum of the reservations in each job's subtree. */
module ContainmentInvariant {
  import opened Common
  import opened Containment

  // ---------------------------------------------------------------- sums of reservations

  function Own(rs: seq<Reservation>, k: Resource): nat {
    if rs == [] then 0 else Own(rs[..|rs| - 1], k) + rs[|rs| - 1].usage.Of(k)
  }

  lemma OwnPush(rs: seq<Reservation>, r: Reservation, k: Resource)
    ensures Own(rs + [r], k) == Own(rs, k) + r.usage.Of(k)
  {
  }

  lemma {:induction false} OwnSet(rs: seq<Reservation>, a: nat, r: Reservation, k: Resource)
    requires a < |rs|
    ensures Own(rs[a := r], k) == Own(rs, k) - rs[a].usage.Of(k) + r.usage.Of(k)
    ensures rs[a].usage.Of(k) <= Own(rs, k)
  {
    var front := rs[..|rs| - 1];
    if a == |rs| - 1 {
      assert rs[a := r][..|rs| - 1] == front;
    } else {
      OwnSet(front, a, r, k);
      assert rs[a := r][..|rs| - 1] == front[a := r];
    }
  }

  lemma OwnSwapRemove(rs: seq<Reservation>, a: nat, k: Resource)
    requires a < |rs|
    ensures Own(SwapRemove(rs, a), k) == Own(rs, k) - rs[a].usage.Of(k)
  {
    if a < |rs| - 1 { OwnSet(rs[..|rs| - 1], a, rs[|rs| - 1], k); }
  }

  /** The reservations of resource `k` in the subtree of job `i`, among the first `n` jobs. */
  function Total(jobs: seq<Job>, n: nat, i: nat, k: Resource): nat
    requires Ordered(jobs) && n <= |jobs|
  {
    if n == 0 then 0
    else Total(jobs, n - 1, i, k) + if InChain(jobs, i, n - 1) then Own(jobs[n - 1].processes, k) else 0
  }

  // ---------------------------------------------------------------- chains

  predicate SameParents(jobs: seq<Job>, jobs': seq<Job>) {
    |jobs| <= |jobs'| && forall x :: 0 <= x < |jobs| ==> jobs'[x].parent == jobs[x].parent
  }

  lemma {:induction false} SameChain(jobs: seq<Job>, jobs': seq<Job>, i: nat, j: nat)
    requires Ordered(jobs) && Ordered(jobs') && SameParents(jobs, jobs') && j < |jobs|
    ensures InChain(jobs', i, j) == InChain(jobs, i, j)
    decreases j
  {
    if jobs[j].parent.Some? { SameChain(jobs, jobs', i, jobs[j].parent.value - 1); }
  }

  lemma {:induction false} ChainBound(jobs: seq<Job>, i: nat, j: nat)
    requires Ordered(jobs) && j < |jobs| && InChain(jobs, i, j)
    ensures i <= j
    decreases j
  {
    if i != j { ChainBound(jobs, i, jobs[j].parent.value - 1); }
  }

  lemma {:induction false} ChainTransitive(jobs: seq<Job>, i: nat, j: nat, m: nat)
    requires Ordered(jobs) && m < |jobs| && InChain(jobs, j, m) && j < |jobs| && InChain(jobs, i, j)
    ensures InChain(jobs, i, m)
    decreases m
  {
    if j != m { ChainTransitive(jobs, i, j, jobs[m].parent.value - 1); }
  }

  /** Two ancestors of one job are in line. */
  lemma {:induction false} ChainComparable(jobs: seq<Job>, i: nat, j: nat, m: nat)
    requires Ordered(jobs) && m < |jobs| && i < |jobs| && j < |jobs| && InChain(jobs, i, m) && InChain(jobs, j, m)
    ensures InChain(jobs, i, j) || InChain(jobs, j, i)
    decreases m
  {
    if i != m && j != m { ChainComparable(jobs, i, j, jobs[m].parent.value - 1); }
  }

  // ---------------------------------------------------------------- the invariant

  predicate ReservationsOk(rs: seq<Reservation>) {
    && |rs| <= MAX_PROCESSES_PER_JOB
    && forall a :: 0 <= a < |rs| ==> rs[a].process > 0 && rs[a].usage.processes == 1
  }

  ghost predicate JobOk(jobs: seq<Job>, i: nat)
    requires Ordered(jobs) && i < |jobs|
  {
    var job := jobs[i];
    && (job.retired ==> job.parent.None? && job.children == [] && job.processes == [])
    && (job.retired <==> i > 0 && job.parent.None?)
    && Unique(job.children, Id) && |job.children| <= MAX_CHILDREN_PER_JOB
    && (job.parent.Some? ==> job.id in jobs[job.parent.value - 1].children)
    && (forall c :: c in job.children ==> 1 <= c <= |jobs| && jobs[c - 1].parent == Some(job.id))
    && Unique(job.processes, ProcessOf) && ReservationsOk(job.processes)
  }

  /** No process has reservations with two jobs. */
  ghost predicate Apart(jobs: seq<Job>) {
    forall i, j, p :: 0 <= i < |jobs| && 0 <= j < |jobs| && Holds(jobs[i], p) && Holds(jobs[j], p) ==> i == j
  }

  ghost predicate Shape(jobs: seq<Job>) {
    Ordered(jobs) && (forall i :: 0 <= i < |jobs| ==> JobOk(jobs, i)) && Apart(jobs)
  }

  ghost predicate Accounts(jobs: seq<Job>)
    requires Ordered(jobs)
  {
    forall i, k :: 0 <= i < |jobs| ==> jobs[i].usage.Of(k) == Total(jobs, |jobs|, i, k)
  }

  ghost predicate InLimits(jobs: seq<Job>) {
    forall i :: 0 <= i < |jobs| ==> Within(jobs[i].usage, jobs[i].limits) && Fits(jobs[i].usage)
  }

  ghost predicate TreeInv(t: Tree) {
    && t.nextJob == |t.jobs| + 1 && |t.jobs| <= MAX_CONTAINMENT_JOBS
    && Shape(t.jobs) && Accounts(t.jobs) && InLimits(t.jobs)
  }

  lemma NewTreeInv()
    ensures TreeInv(Tree(1, []))
  {
  }

  // ---------------------------------------------------------------- charging a chain

  /** The capacity check passes iff every job of the chain is live and can take the charge. */
  lemma {:induction false} CapacityExact(jobs: seq<Job>, i: nat, d: Usage)
    requires Ordered(jobs) && i < |jobs|
    ensures ChainCapacity(jobs, i, d).None? <==>
            forall x :: 0 <= x < |jobs| && InChain(jobs, x, i) ==>
              !jobs[x].retired && Fits(Plus(jobs[x].usage, d)) && Within(Plus(jobs[x].usage, d), jobs[x].limits)
    decreases i
  {
    assert InChain(jobs, i, i);
    if jobs[i].parent.Some? {
      var p := jobs[i].parent.value - 1;
      CapacityExact(jobs, p, d);
      assert forall x :: 0 <= x < |jobs| && InChain(jobs, x, p) ==> InChain(jobs, x, i);
    }
  }

  /** If every job of the chain can take the change, exactly those jobs change. */
  lemma {:induction false} ApplyExact(jobs: seq<Job>, i: nat, d: Usage, add: bool)
    requires Ordered(jobs) && i < |jobs|
    requires forall x :: 0 <= x < |jobs| && InChain(jobs, x, i) ==> Changed(jobs[x].usage, d, add).Some?
    ensures var (jobs', failed) := ApplyChain(jobs, i, d, add);
            && failed.None?
            && forall x :: 0 <= x < |jobs| ==>
                 jobs'[x].usage == if InChain(jobs, x, i) then Changed(jobs[x].usage, d, add).value else jobs[x].usage
    decreases i
  {
    assert InChain(jobs, i, i);
    if jobs[i].parent.Some? {
      var p := jobs[i].parent.value - 1;
      var jobs1 := jobs[i := jobs[i].(usage := Changed(jobs[i].usage, d, add).value)];
      forall x | 0 <= x < |jobs| ensures InChain(jobs1, x, p) == InChain(jobs, x, p) {
        SameChain(jobs, jobs1, x, p);
      }
      forall x | 0 <= x < |jobs| && InChain(jobs1, x, p) ensures x != i && InChain(jobs, x, i) {
        ChainBound(jobs, x, p);
      }
      ApplyExact(jobs1, p, d, add);
    }
  }

  /** What a change of job `i`'s reservations adds to the accounts of job `x`. */
  function Shift(jobs: seq<Job>, jobs': seq<Job>, x: nat, i: nat, k: Resource): int
    requires Ordered(jobs) && i < |jobs| == |jobs'|
  {
    if InChain(jobs, x, i) then Own(jobs'[i].processes, k) - Own(jobs[i].processes, k) else 0
  }

  /** Job `i`'s reservations and its chain's usage changed by the same amounts; nothing else did. */
  ghost predicate Recharged(jobs: seq<Job>, jobs': seq<Job>, i: nat)
    requires Ordered(jobs) && i < |jobs|
  {
    && |jobs'| == |jobs|
    && (forall x :: 0 <= x < |jobs| ==>
          jobs'[x] == jobs[x].(usage := jobs'[x].usage, processes := if x == i then jobs'[x].processes
              else jobs[x].processes))
    && (forall x, k :: 0 <= x < |jobs| ==> jobs'[x].usage.Of(k) == jobs[x].usage.Of(k) + Shift(jobs, jobs', x, i, k))
  }

  lemma {:induction false} TotalShift(jobs: seq<Job>, jobs': seq<Job>, n: nat, x: nat, k: Resource, i: nat)
    requires Ordered(jobs) && Ordered(jobs') && SameParents(jobs, jobs') && |jobs'| == |jobs|
    requires n <= |jobs| && i < |jobs|
    requires forall j :: 0 <= j < |jobs| && j != i ==> jobs'[j].processes == jobs[j].processes
    ensures Total(jobs', n, x, k) == Total(jobs, n, x, k) + if i < n then Shift(jobs, jobs', x, i, k) else 0
  {
    if n > 0 {
      TotalShift(jobs, jobs', n - 1, x, k, i);
      SameChain(jobs, jobs', x, n - 1);
    }
  }

  lemma RechargedAccounts(jobs: seq<Job>, jobs': seq<Job>, i: nat)
    requires Ordered(jobs) && Accounts(jobs) && i < |jobs| && Recharged(jobs, jobs', i)
    ensures Ordered(jobs') && Accounts(jobs')
  {
    forall x, k | 0 <= x < |jobs| ensures jobs'[x].usage.Of(k) == Total(jobs', |jobs'|, x, k) {
      TotalShift(jobs, jobs', |jobs|, x, k, i);
      assert jobs'[x].usage.Of(k) == jobs[x].usage.Of(k) + Shift(jobs, jobs', x, i, k);
    }
  }

  lemma RechargedShape(jobs: seq<Job>, jobs': seq<Job>, i: nat)
    requires Shape(jobs) && i < |jobs| && Recharged(jobs, jobs', i)
    requires Unique(jobs'[i].processes, ProcessOf) && ReservationsOk(jobs'[i].processes)
    requires jobs[i].retired ==> jobs'[i].processes == []
    requires forall p :: Holds(jobs'[i], p) && !Holds(jobs[i], p) ==> !Reserved(jobs, p)
    ensures Shape(jobs')
  {
    forall x | 0 <= x < |jobs| ensures JobOk(jobs', x) {
      assert JobOk(jobs, x);
    }
    forall x, y, p | 0 <= x < |jobs| && 0 <= y < |jobs| && Holds(jobs'[x], p) && Holds(jobs'[y], p) ensures x == y {
      assert x != i ==> Holds(jobs[x], p);
      assert y != i ==> Holds(jobs[y], p);
    }
  }

  // ---------------------------------------------------------------- reading the accounts

  lemma {:induction false} TotalCovers(jobs: seq<Job>, n: nat, x: nat, k: Resource, i: nat)
    requires Ordered(jobs) && i < n <= |jobs| && InChain(jobs, x, i)
    ensures Own(jobs[i].processes, k) <= Total(jobs, n, x, k)
  {
    if i < n - 1 { TotalCovers(jobs, n - 1, x, k, i); }
  }

  /** A reservation never exceeds the usage of its job or of any ancestor: no counter can underflow. */
  lemma NoUnderflow(jobs: seq<Job>, x: nat, i: nat, a: nat)
    requires Ordered(jobs) && Accounts(jobs) && x < |jobs| && i < |jobs| && InChain(jobs, x, i)
    requires a < |jobs[i].processes|
    ensures Within(jobs[i].processes[a].usage, jobs[x].usage)
  {
    var u := jobs[i].processes[a].usage;
    forall k ensures u.Of(k) <= jobs[x].usage.Of(k) {
      OwnSet(jobs[i].processes, a, jobs[i].processes[a], k);
      TotalCovers(jobs, |jobs|, x, k, i);
    }
    WithinPointwise(u, jobs[x].usage);
  }
}
