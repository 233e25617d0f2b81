/** The mutable job hierarchy (`ContainmentTree` in kernel/src/containment.rs), with its loops over chains and
    subtrees, proved against the operations on values. */
module ContainmentTree {
  import opened Common
  import opened Containment
  import C = Containment
  import opened ContainmentInvariant
  import opened ContainmentSafety
  import opened ContainmentRuns

  function JobId(job: Job): nat { job.id }

  lemma FindIsPosition(jobs: seq<Job>, id: nat)
    requires Ordered(jobs)
    ensures IndexOf(jobs, JobId, id) == Find(jobs, id)
  {
    if 1 <= id <= |jobs| { assert JobId(jobs[id - 1]) == id; }
  }

  /** `chain` lists identities from job `i` upwards, each the parent of the one before; `next` comes after. */
  ghost predicate Climbs(jobs: seq<Job>, chain: seq<nat>, i: nat, next: Option<nat>)
    requires Ordered(jobs) && i < |jobs|
  {
    && (if chain == [] then next == Some(i + 1) else chain[0] == i + 1)
    && (next.Some? ==> 1 <= next.value <= |jobs|)
    && (forall m :: 0 <= m < |chain| ==>
          1 <= chain[m] <= |jobs| && jobs[chain[m] - 1].parent == if m + 1 < |chain| then Some(chain[m + 1]) else next)
  }

  lemma ClimbOne(jobs: seq<Job>, chain: seq<nat>, i: nat, c: nat)
    requires Ordered(jobs) && i < |jobs| && Climbs(jobs, chain, i, Some(c))
    ensures Climbs(jobs, chain + [c], i, jobs[c - 1].parent)
  {
    var chain' := chain + [c];
    forall m | 0 <= m < |chain'|
      ensures 1 <= chain'[m] <= |jobs|
              && jobs[chain'[m] - 1].parent == if m + 1 < |chain'| then Some(chain'[m + 1]) else jobs[c - 1].parent
    {
      assert chain'[|chain|] == c;
      if m < |chain| { assert chain'[m] == chain[m] && (m + 1 < |chain| ==> chain'[m + 1] == chain[m + 1]); }
    }
  }

  /** What remains of the second loop of `apply_chain_delta` at entry `m` of the chain. */
  function Rest(jobs: seq<Job>, chain: seq<nat>, m: nat, d: Usage, add: bool): (seq<Job>, Option<Error>) {
    if Ordered(jobs) && m < |chain| && 1 <= chain[m] <= |jobs| then ApplyChain(jobs, chain[m] - 1, d, add)
    else (jobs, None)
  }

  lemma ChainAt(jobs0: seq<Job>, jobs: seq<Job>, chain: seq<nat>, i: nat, m: nat)
    requires Ordered(jobs0) && i < |jobs0| && Climbs(jobs0, chain, i, None) && OnlyUsage(jobs0, jobs) && m < |chain|
    ensures Ordered(jobs) && 1 <= chain[m] <= |jobs|
    ensures jobs[chain[m] - 1].parent == if m + 1 < |chain| then Some(chain[m + 1]) else None
  {
  }

  lemma ChainStep(jobs: seq<Job>, i: nat, d: Usage, add: bool)
    requires Ordered(jobs) && i < |jobs|
    ensures var changed := Changed(jobs[i].usage, d, add);
            ApplyChain(jobs, i, d, add) ==
            if changed.None? then (jobs, Some(if add then UsageOverflow else UsageUnderflow))
            else
              var jobs1 := jobs[i := jobs[i].(usage := changed.value)];
              if jobs[i].parent.None? then (jobs1, None) else ApplyChain(jobs1, jobs[i].parent.value - 1, d, add)
  {
  }

  // ---------------------------------------------------------------- the subtree collected by a stack

  /** The state of the depth-first search for the subtree of `root`: the set `done` is visited, `open` is on
      the stack. Everything seen is a descendant; parents are visited before their children are seen;
      children of the visited are seen. */
  ghost predicate Searching(jobs: seq<Job>, root: nat, done: set<nat>, open: set<nat>)
    requires Ordered(jobs) && 1 <= root <= |jobs|
  {
    && NoneOf(done, open) && root in done + open && Below(jobs, root, done + open)
    && (forall x {:trigger Descends(jobs, done, x)} :: x in done + open && x != root ==> Descends(jobs, done, x))
    && (forall x {:trigger Covers(jobs, done + open, x)} :: x in done ==> Covers(jobs, done + open, x))
  }

  /** The parent of job `x` is among `done`. */
  predicate Descends(jobs: seq<Job>, done: set<nat>, x: nat) {
    1 <= x <= |jobs| && jobs[x - 1].parent.Some? && jobs[x - 1].parent.value in done
  }

  /** The children of job `x` are among `seen`. */
  predicate Covers(jobs: seq<Job>, seen: set<nat>, x: nat) {
    1 <= x <= |jobs| && forall c :: c in jobs[x - 1].children ==> c in seen
  }

  predicate NoneOf(a: set<nat>, b: set<nat>) {
    forall x :: x in a ==> x !in b
  }

  ghost predicate Below(jobs: seq<Job>, root: nat, seen: set<nat>)
    requires Ordered(jobs) && 1 <= root
  {
    forall x :: x in seen ==> 1 <= x <= |jobs| && InChain(jobs, root - 1, x - 1)
  }

  lemma SearchBound(jobs: seq<Job>, root: nat, result: seq<nat>, open: set<nat>)
    requires Ordered(jobs) && 1 <= root <= |jobs| && Unique(result, Id) && Searching(jobs, root, Elements(result), open)
    ensures |result| <= |jobs|
  {
    forall x | x in result ensures Lookup(jobs, JobId, x).Some? {
      assert x in Elements(result) + open && JobId(jobs[x - 1]) == x;
    }
    Pigeonhole(result, jobs, JobId);
  }

  /** A child to be pushed: not seen before, and a descendant. */
  ghost predicate Fresh(jobs: seq<Job>, root: nat, seen: set<nat>, job: nat, c: nat)
    requires Ordered(jobs) && 1 <= root
  {
    c !in seen && 1 <= c <= |jobs| && jobs[c - 1].parent == Some(job) && InChain(jobs, root - 1, c - 1)
  }

  lemma FreshChildren(jobs: seq<Job>, root: nat, done: set<nat>, open: set<nat>, job: nat)
    requires Shape(jobs) && 1 <= root <= |jobs| && Searching(jobs, root, done, open) && job in open
    ensures 1 <= job <= |jobs| && Unique(jobs[job - 1].children, Id)
    ensures forall c :: c in jobs[job - 1].children ==> Fresh(jobs, root, done + open, job, c)
  {
    hide InChain, Searching, JobOk;
    OpenJob(jobs, root, done, open, job);
    ChildLinks(jobs, job - 1);
    forall c | c in jobs[job - 1].children ensures Fresh(jobs, root, done + open, job, c) {
      ChildInChain(jobs, root - 1, c - 1, job - 1);
      ParentFirst(jobs, root, done, open, c);
    }
  }

  lemma OpenJob(jobs: seq<Job>, root: nat, done: set<nat>, open: set<nat>, job: nat)
    requires Ordered(jobs) && 1 <= root <= |jobs| && Searching(jobs, root, done, open) && job in open
    ensures 1 <= job <= |jobs| && InChain(jobs, root - 1, job - 1) && job !in done
  {
  }

  lemma ChildLinks(jobs: seq<Job>, i: nat)
    requires Shape(jobs) && i < |jobs|
    ensures Unique(jobs[i].children, Id)
    ensures forall c :: c in jobs[i].children ==> 1 <= c <= |jobs| && jobs[c - 1].parent == Some(i + 1)
  {
    assert JobOk(jobs, i);
  }

  /** A job whose parent is still on the stack has not been seen. */
  lemma ParentFirst(jobs: seq<Job>, root: nat, done: set<nat>, open: set<nat>, c: nat)
    requires Ordered(jobs) && 1 <= root <= |jobs| && Searching(jobs, root, done, open)
    requires 1 <= c <= |jobs| && c != root && jobs[c - 1].parent.Some? && jobs[c - 1].parent.value in open
    ensures c !in done + open
  {
    hide Below;
    assert !Descends(jobs, done, c);
  }

  lemma ChildInChain(jobs: seq<Job>, r: nat, c: nat, p: nat)
    requires Ordered(jobs) && c < |jobs| && p < |jobs| && jobs[c].parent == Some(p + 1) && InChain(jobs, r, p)
    ensures InChain(jobs, r, c) && c != r
  {
    ChainBound(jobs, r, p);
  }

  /** Visiting a job of the stack keeps the search on course. */
  lemma SearchStep(jobs: seq<Job>, root: nat, done: set<nat>, open: set<nat>, job: nat)
    requires Shape(jobs) && 1 <= root <= |jobs| && Searching(jobs, root, done, open) && job in open
    ensures 1 <= job <= |jobs| && Unique(jobs[job - 1].children, Id) && NoneOf(Elements(jobs[job - 1].children), open)
    ensures Searching(jobs, root, done + {job}, open - {job} + Elements(jobs[job - 1].children))
  {
    hide Searching, Shape, Fresh;
    assert Ordered(jobs) by { SearchOrdered(jobs); }
    FreshChildren(jobs, root, done, open, job);
    var children := Elements(jobs[job - 1].children);
    assert NoneOf(children, done + open) by { FreshApart(jobs, root, done + open, job); }
    SearchGrows(jobs, root, done, open, job, children);
  }

  lemma FreshApart(jobs: seq<Job>, root: nat, seen: set<nat>, job: nat)
    requires Ordered(jobs) && 1 <= root && 1 <= job <= |jobs|
    requires forall c :: c in jobs[job - 1].children ==> Fresh(jobs, root, seen, job, c)
    ensures NoneOf(Elements(jobs[job - 1].children), seen)
  {
    forall c | c in Elements(jobs[job - 1].children) ensures c !in seen {
      assert c in jobs[job - 1].children && Fresh(jobs, root, seen, job, c);
    }
  }

  lemma SearchGrows(jobs: seq<Job>, root: nat, done: set<nat>, open: set<nat>, job: nat, children: set<nat>)
    requires Ordered(jobs) && 1 <= root <= |jobs| && 1 <= job <= |jobs| && Searching(jobs, root, done, open)
             && job in open
    requires children == Elements(jobs[job - 1].children) && NoneOf(children, done + open)
    requires forall c :: c in jobs[job - 1].children ==> Fresh(jobs, root, done + open, job, c)
    ensures Searching(jobs, root, done + {job}, open - {job} + children)
  {
    hide InChain, Elements, Covers;
    var done', open' := done + {job}, open - {job} + children;
    var seen, seen' := done + open, done' + open';
    assert forall x :: x in seen' <==> x in seen || x in children;
    forall x | x in seen' ensures 1 <= x <= |jobs| && InChain(jobs, root - 1, x - 1) {
      if x in children { FromElements(jobs[job - 1].children, x); assert Fresh(jobs, root, seen, job, x); }
    }
    forall x | x in seen' && x != root ensures Descends(jobs, done', x) {
      if x in children {
        FromElements(jobs[job - 1].children, x);
        assert Fresh(jobs, root, seen, job, x);
      } else {
        assert Descends(jobs, done, x);
      }
    }
    forall x | x in done' ensures Covers(jobs, seen', x) {
      if x == job { CoversChildren(jobs, seen', job); } else { CoversMore(jobs, seen, seen', x); }
    }
    forall x | x in done' ensures x !in open' {
      assert x in seen;
    }
  }

  lemma CoversChildren(jobs: seq<Job>, seen: set<nat>, job: nat)
    requires 1 <= job <= |jobs| && Elements(jobs[job - 1].children) <= seen
    ensures Covers(jobs, seen, job)
  {
    forall c | c in jobs[job - 1].children ensures c in seen { FromElements(jobs[job - 1].children, c); }
  }

  lemma CoversMore(jobs: seq<Job>, seen: set<nat>, seen': set<nat>, x: nat)
    requires Covers(jobs, seen, x) && seen <= seen'
    ensures Covers(jobs, seen', x)
  {
  }

  lemma FromElements(s: seq<nat>, x: nat)
    ensures x in Elements(s) <==> x in s
  {
  }

  lemma SearchOrdered(jobs: seq<Job>)
    requires Shape(jobs)
    ensures Ordered(jobs)
  {
  }

  /** With an empty stack every descendant has been visited. */
  lemma {:induction false} SearchComplete(jobs: seq<Job>, root: nat, done: set<nat>, x: nat)
    requires Shape(jobs) && 1 <= root <= |jobs| && Searching(jobs, root, done, {})
    requires x < |jobs| && InChain(jobs, root - 1, x)
    ensures x + 1 in done
    decreases x
  {
    assert done + {} == done;
    if x != root - 1 {
      assert JobOk(jobs, x);
      SearchComplete(jobs, root, done, jobs[x].parent.value - 1);
      assert Covers(jobs, done, jobs[x].parent.value);
    }
  }

  lemma UniqueConcat(s: seq<nat>, children: seq<nat>)
    requires Unique(s, Id) && Unique(children, Id) && NoneOf(Elements(children), Elements(s))
    ensures Unique(s + children, Id) && Elements(s + children) == Elements(s) + Elements(children)
  {
    forall i, j | 0 <= i < j < |s + children| ensures Id((s + children)[i]) != Id((s + children)[j]) {
      if i < |s| <= j { assert s[i] in Elements(s) && children[j - |s|] in Elements(children); }
    }
  }

  /** Popping the top of the stack. */
  lemma Popped(pending: seq<nat>)
    requires Unique(pending, Id) && pending != []
    ensures var rest := pending[..|pending| - 1];
            Unique(rest, Id) && Elements(rest) == Elements(pending) - {pending[|pending| - 1]}
  {
  }

  lemma SearchStarts(jobs: seq<Job>, root: nat)
    requires Ordered(jobs) && 1 <= root <= |jobs|
    ensures Searching(jobs, root, Elements([]), Elements([root])) && Unique([root], Id)
  {
  }

  /** One turn of the loop. */
  lemma Visit(jobs: seq<Job>, root: nat, result: seq<nat>, pending: seq<nat>)
    requires Shape(jobs) && 1 <= root <= |jobs| && Unique(result, Id) && Unique(pending, Id) && pending != []
    requires Searching(jobs, root, Elements(result), Elements(pending))
    ensures var job := pending[|pending| - 1];
            && 1 <= job <= |jobs|
            && var result': seq<nat> := result + [job];
            var pending': seq<nat> := pending[..|pending| - 1] + jobs[job - 1].children;
            && Unique(result', Id) && Unique(pending', Id)
                && Searching(jobs, root, Elements(result'), Elements(pending'))
  {
    hide Searching, JobOk;
    var rest, job := pending[..|pending| - 1], pending[|pending| - 1];
    assert job in Elements(pending);
    SearchApart(jobs, root, Elements(result), Elements(pending));
    SearchStep(jobs, root, Elements(result), Elements(pending), job);
    Popped(pending);
    UniqueConcat(rest, jobs[job - 1].children);
    UniquePush(result, job);
    ElementsPush(result, job);
  }

  lemma SearchApart(jobs: seq<Job>, root: nat, done: set<nat>, open: set<nat>)
    requires Ordered(jobs) && 1 <= root <= |jobs| && Searching(jobs, root, done, open)
    ensures NoneOf(done, open)
  {
  }

  lemma SearchEnds(jobs: seq<Job>, root: nat, done: set<nat>)
    requires Shape(jobs) && 1 <= root <= |jobs| && Searching(jobs, root, done, {})
    ensures IsSubtree(jobs, root - 1, done)
  {
    forall id ensures id in done <==> 1 <= id <= |jobs| && InChain(jobs, root - 1, id - 1) {
      assert id in done ==> id in done + {};
      if 1 <= id <= |jobs| && InChain(jobs, root - 1, id - 1) { SearchComplete(jobs, root, done, id - 1); }
    }
  }

  // ---------------------------------------------------------------- emptying the subtree

  lemma {:induction false} OwnDrop(rs: seq<Reservation>, k: Resource)
    requires rs != []
    ensures Own(rs[1..], k) == Own(rs, k) - rs[0].usage.Of(k)
    decreases |rs|
  {
    if |rs| > 1 {
      OwnDrop(rs[..|rs| - 1], k);
      assert rs[1..][..|rs| - 2] == rs[..|rs| - 1][1..];
    }
  }

  /** The forest `jobs` with the reservations `rs` put back at job `i`. */
  function Holding(jobs: seq<Job>, i: nat, rs: seq<Reservation>): seq<Job>
    requires i < |jobs|
  {
    jobs[i := jobs[i].(processes := rs)]
  }

  /** Uncharging the first of the reservations still owed by job `i` cannot fail and settles it. */
  lemma {:induction false} SettleOne(jobs: seq<Job>, i: nat, rs: seq<Reservation>)
    requires Ordered(jobs) && i < |jobs| && jobs[i].processes == [] && rs != []
    requires Ordered(Holding(jobs, i, rs)) && Accounts(Holding(jobs, i, rs))
    ensures ApplyChain(jobs, i, rs[0].usage, false).1.None?
    ensures var jobs' := Holding(ApplyChain(jobs, i, rs[0].usage, false).0, i, rs[1..]);
            Ordered(jobs') && Accounts(jobs')
  {
    hide ApplyChain, Recharged;
    var g := Holding(jobs, i, rs);
    var d := rs[0].usage;
    var jobs' := ApplyChain(jobs, i, d, false).0;
    var g' := Holding(jobs', i, rs[1..]);
    forall x | 0 <= x < |g| && InChain(g, x, i) ensures Within(d, g[x].usage) { NoUnderflow(g, x, i, 0); }
    forall k ensures Own(rs[1..], k) - Own(rs, k) == 0 - d.Of(k) { OwnDrop(rs, k); }
    ChainRecharges(g, jobs, g', i, d, false);
    RechargedAccounts(g, g', i);
  }

  /** `jobs` after the reservations of the jobs `emptied` were released, with accounts settled. */
  ghost predicate Emptying(jobs0: seq<Job>, jobs: seq<Job>, emptied: set<nat>) {
    && Ordered(jobs0) && |jobs| == |jobs0|
    && (forall x :: 0 <= x < |jobs| ==>
          jobs[x] == jobs0[x].(usage := jobs[x].usage, processes := if x + 1 in emptied then []
              else jobs0[x].processes))
    && Ordered(jobs) && Accounts(jobs)
  }

  /** `ids` are the identities of the subtree of job `r`. */
  ghost predicate IsSubtree(jobs: seq<Job>, r: nat, ids: set<nat>)
    requires Ordered(jobs)
  {
    forall id :: id in ids <==> 1 <= id <= |jobs| && InChain(jobs, r, id - 1)
  }

  lemma {:induction false} EmptiedTotal(jobs0: seq<Job>, jobs: seq<Job>, jobs': seq<Job>, r: nat, ids: set<nat>, n: nat,
                                        x: nat, k: Resource)
    requires Ordered(jobs0) && r < |jobs0| && Emptying(jobs0, jobs, ids) && IsSubtree(jobs0, r, ids)
    requires AfterTermination(jobs0, jobs', r) && Ordered(jobs') && n <= |jobs0| && x < |jobs0|
    ensures Total(jobs, n, x, k) == Total(jobs', n, x, k)
  {
    hide Terminated, InChain;
    if n > 0 {
      EmptiedTotal(jobs0, jobs, jobs', r, ids, n - 1, x, k);
      KeptReservations(jobs0, jobs', r, n - 1);
      SameChain(jobs0, jobs, x, n - 1);
      assert n in ids <==> InChain(jobs0, r, n - 1);
      if n !in ids { KeptChain(jobs0, jobs', r, x, n - 1); }
    }
  }

  /** Exact accounts leave no choice: emptying the subtree makes every counter what the specification says. */
  lemma EmptiedUsage(jobs0: seq<Job>, jobs: seq<Job>, jobs': seq<Job>, r: nat, ids: set<nat>, x: nat)
    requires Ordered(jobs0) && Accounts(jobs0) && r < |jobs0| && Emptying(jobs0, jobs, ids) && IsSubtree(jobs0, r, ids)
    requires AfterTermination(jobs0, jobs', r) && x < |jobs0|
    ensures jobs[x].usage == jobs'[x].usage
  {
    TerminatedOrdered(jobs0, jobs', r);
    TerminatedAccounts(jobs0, jobs', r);
    forall k ensures jobs[x].usage.Of(k) == jobs'[x].usage.Of(k) {
      EmptiedTotal(jobs0, jobs, jobs', r, ids, |jobs0|, x, k);
      assert jobs[x].usage.Of(k) == Total(jobs, |jobs|, x, k) && jobs'[x].usage.Of(k) == Total(jobs', |jobs'|, x, k);
    }
    EqualPointwise(jobs[x].usage, jobs'[x].usage);
  }

  /** The number of reservations held by the jobs `ids` among the first `n`. */
  function HeldBy(jobs: seq<Job>, ids: set<nat>, n: nat): nat
    requires n <= |jobs|
  {
    if n == 0 then 0 else HeldBy(jobs, ids, n - 1) + if n in ids then |jobs[n - 1].processes| else 0
  }

  lemma {:induction false} HeldByOneMore(jobs: seq<Job>, ids: set<nat>, id: nat, n: nat)
    requires n <= |jobs| && 1 <= id <= |jobs| && id !in ids
    ensures HeldBy(jobs, ids + {id}, n) == HeldBy(jobs, ids, n) + if id <= n then |jobs[id - 1].processes| else 0
  {
    if n > 0 { HeldByOneMore(jobs, ids, id, n - 1); }
  }

  lemma {:induction false} HeldBySubtree(jobs: seq<Job>, ids: set<nat>, r: nat, n: nat)
    requires Ordered(jobs) && r < |jobs| && IsSubtree(jobs, r, ids) && n <= |jobs|
    ensures HeldBy(jobs, ids, n) == Population(jobs, r, n)
  {
    if n > 0 {
      HeldBySubtree(jobs, ids, r, n - 1);
      assert n in ids <==> InChain(jobs, r, n - 1);
    }
  }

  lemma HeldByNone(jobs: seq<Job>, n: nat)
    requires n <= |jobs|
    ensures HeldBy(jobs, {}, n) == 0
  {
  }

  /** One more entry taken from the end of a list of distinct identities. */
  lemma TakeOne(ids: seq<nat>, m: nat)
    requires Unique(ids, Id) && m < |ids|
    ensures Elements(ids[m..]) == Elements(ids[m + 1..]) + {ids[m]} && ids[m] !in Elements(ids[m + 1..])
  {
  }

  lemma InvOrdered(t: Tree)
    requires TreeInv(t)
    ensures Ordered(t.jobs)
  {
  }

  /** A job unlinked from its relatives and retired. */
  function Gone(job: Job): Job {
    job.(children := [], parent := None, retired := true)
  }

  /** Emptying the subtree, unlinking it from its parent and retiring it is what the specification says. */
  lemma RetiredIsTerminated(jobs0: seq<Job>, emptied: seq<Job>, jobs: seq<Job>, r: nat, ids: set<nat>)
    requires Shape(jobs0) && Accounts(jobs0) && r < |jobs0| && jobs0[r].parent.Some?
    requires Emptying(jobs0, emptied, ids) && IsSubtree(jobs0, r, ids) && |jobs| == |jobs0|
    requires var p := jobs0[r].parent.value - 1;
             var unlinked := emptied[p := emptied[p].(children := Without(emptied[p].children, r + 1))];
             forall x :: 0 <= x < |jobs| ==> jobs[x] == if x + 1 in ids then Gone(unlinked[x]) else unlinked[x]
    ensures jobs == TerminatedForest(jobs0, r)
  {
    hide Accounts;
    var jobs' := TerminatedForest(jobs0, r);
    forall x | 0 <= x < |jobs0| ensures jobs[x] == jobs'[x] {
      EmptiedUsage(jobs0, emptied, jobs', r, ids, x);
      assert x + 1 in ids <==> InChain(jobs0, r, x);
      if x + 1 == jobs0[r].parent.value { assert InChain(jobs0, x, x) && InChain(jobs0, x, r); }
      if InChain(jobs0, r, x) && x + 1 == jobs0[r].parent.value { ChainBound(jobs0, r, x); }
      UntouchedUsage(jobs0, jobs', r, x);
    }
  }

  lemma UntouchedUsage(jobs0: seq<Job>, jobs': seq<Job>, r: nat, x: nat)
    requires Ordered(jobs0) && r < |jobs0| && AfterTermination(jobs0, jobs', r) && x < |jobs0|
    ensures !InChain(jobs0, r, x) && !InChain(jobs0, x, r) ==> jobs'[x] == jobs0[x]
  {
  }

  // ---------------------------------------------------------------- the class

  class ContainmentTree {
    var nextJob: nat
    var jobs: seq<Job>

    function State(): Tree
      reads this
    {
      Tree(nextJob, jobs)
    }

    ghost predicate Valid()
      reads this
    {
      TreeInv(State())
    }

    constructor ()
      ensures Valid() && State() == Tree(1, [])
    {
      nextJob, jobs := 1, [];
    }

    method CreateRoot(limits: Usage) returns (r: Result<nat, Error>)
      requires Valid()
      modifies this
      ensures Valid() && (State(), r) == C.CreateRoot(old(State()), limits)
    {
      CreateRootSafe(State(), limits);
      if jobs != [] {
        r := Err(JobLimit);
      } else {
        r := CreateNode(None, limits);
      }
    }

    method CreateChild(parent: nat, limits: Usage) returns (r: Result<nat, Error>)
      requires Valid()
      modifies this
      ensures Valid() && (State(), r) == C.CreateChild(old(State()), parent, limits)
    {
      CreateChildSafe(State(), parent, limits);
      FindIsPosition(jobs, parent);
      var found := IndexOf(jobs, JobId, parent);
      if found.None? {
        r := Err(InvalidJob);
      } else if jobs[found.value].retired {
        r := Err(Retired);
      } else if |jobs[found.value].children| >= MAX_CHILDREN_PER_JOB {
        r := Err(ChildLimit);
      } else {
        r := CreateNode(Some(parent), limits);
        if r.Ok? {
          var p := found.value;
          jobs := jobs[p := jobs[p].(children := jobs[p].children + [r.value])];
        }
      }
    }

    method CreateNode(parent: Option<nat>, limits: Usage) returns (r: Result<nat, Error>)
      modifies this
      ensures (State(), r) == C.CreateNode(old(State()), parent, limits)
    {
      if |jobs| >= MAX_CONTAINMENT_JOBS || nextJob == 0 || nextJob == U64_MAX {
        r := Err(JobLimit);
      } else {
        r := Ok(nextJob);
        jobs := jobs + [Job(nextJob, parent, limits, ZERO, [], [], false)];
        nextJob := nextJob + 1;
      }
    }

    method SetLimits(job: nat, limits: Usage) returns (r: Result<(), Error>)
      requires Valid()
      modifies this`jobs
      ensures Valid() && (State(), r) == C.SetLimits(old(State()), job, limits)
    {
      SetLimitsSafe(State(), job, limits);
      FindIsPosition(jobs, job);
      var found := IndexOf(jobs, JobId, job);
      if found.None? {
        r := Err(InvalidJob);
      } else {
        var i := found.value;
        if jobs[i].retired {
          r := Err(Retired);
        } else if !Within(limits, jobs[i].limits) {
          r := Err(LimitRelaxation);
        } else if !Within(jobs[i].usage, limits) {
          r := Err(LimitExceeded);
        } else {
          jobs := jobs[i := jobs[i].(limits := limits)];
          r := Ok(());
        }
      }
    }

    /** The walk from job number `i` to the root. */
    method CheckChainCapacity(i: nat, d: Usage) returns (refused: Option<Error>)
      requires Ordered(jobs) && i < |jobs|
      ensures refused == ChainCapacity(jobs, i, d)
    {
      var current := Some(jobs[i].id);
      while current.Some?
        invariant current.Some? ==>
                    1 <= current.value <= |jobs| && ChainCapacity(jobs, i, d) ==
                        ChainCapacity(jobs, current.value - 1, d)
        invariant current.None? ==> ChainCapacity(jobs, i, d).None?
        decreases if current.Some? then current.value else 0
      {
        FindIsPosition(jobs, current.value);
        var x := IndexOf(jobs, JobId, current.value).value;
        if jobs[x].retired { return Some(Retired); }
        var projected := CheckedAdd(jobs[x].usage, d);
        if projected.None? { return Some(UsageOverflow); }
        if !Within(projected.value, jobs[x].limits) { return Some(LimitExceeded); }
        current := jobs[x].parent;
      }
      refused := None;
    }

    /** First the chain is collected, then each of its jobs changed, from job number `i` upwards. */
    method ApplyChainDelta(i: nat, d: Usage, add: bool) returns (failed: Option<Error>)
      requires Ordered(jobs) && i < |jobs|
      modifies this`jobs
      ensures (jobs, failed) == ApplyChain(old(jobs), i, d, add)
    {
      hide ApplyChain, Changed, Climbs;
      var chain := CollectChain(i);
      var m := 0;
      while m < |chain|
        invariant 0 <= m <= |chain| && OnlyUsage(old(jobs), jobs)
        invariant ApplyChain(old(jobs), i, d, add) == Rest(jobs, chain, m, d, add)
      {
        ChainAt(old(jobs), jobs, chain, i, m);
        FindIsPosition(jobs, chain[m]);
        var x := IndexOf(jobs, JobId, chain[m]).value;
        ChainStep(jobs, x, d, add);
        var changed := Changed(jobs[x].usage, d, add);
        if changed.None? {
          return Some(if add then UsageOverflow else UsageUnderflow);
        }
        jobs := jobs[x := jobs[x].(usage := changed.value)];
        m := m + 1;
      }
      failed := None;
    }

    method CollectChain(i: nat) returns (chain: seq<nat>)
      requires Ordered(jobs) && i < |jobs|
      ensures Climbs(jobs, chain, i, None) && chain != [] && chain[0] == i + 1
    {
      chain := [];
      var current := Some(jobs[i].id);
      while current.Some?
        invariant Climbs(jobs, chain, i, current)
        decreases if current.Some? then current.value else 0
      {
        ClimbOne(jobs, chain, i, current.value);
        chain := chain + [current.value];
        FindIsPosition(jobs, current.value);
        current := jobs[IndexOf(jobs, JobId, current.value).value].parent;
      }
    }

    method AdmitProcess(job: nat, process: nat, usage: Usage) returns (r: Result<(), Error>)
      requires Valid()
      modifies this`jobs
      ensures Valid() && (State(), r) == C.AdmitProcess(old(State()), job, process, usage)
    {
      AdmitSafe(State(), job, process, usage);
      if process == 0 || usage.processes != 1 { return Err(InvalidProcess); }
      FindIsPosition(jobs, job);
      var found := IndexOf(jobs, JobId, job);
      if found.None? { return Err(InvalidJob); }
      var i := found.value;
      if jobs[i].retired { return Err(Retired); }
      if Reserved(jobs, process) { return Err(DuplicateProcess); }
      if |jobs[i].processes| >= MAX_PROCESSES_PER_JOB { return Err(ProcessLimit); }
      var refused := CheckChainCapacity(i, usage);
      if refused.Some? { return Err(refused.value); }
      var failed := ApplyChainDelta(i, usage, true);
      assert failed.None?;
      jobs := jobs[i := jobs[i].(processes := jobs[i].processes + [Reservation(process, usage)])];
      r := Ok(());
    }

    method SetProcessUsage(job: nat, process: nat, usage: Usage) returns (r: Result<(), Error>)
      requires Valid()
      modifies this`jobs
      ensures Valid() && (State(), r) == C.SetProcessUsage(old(State()), job, process, usage)
    {
      hide ApplyChain, ChainCapacity, JobOk, Accounts, InLimits, Recharged, Excess, SomeAtLeast;
      SetUsageSafe(State(), job, process, usage);
      FindIsPosition(jobs, job);
      var found := IndexOf(jobs, JobId, job);
      if found.None? { return Err(InvalidJob); }
      var i := found.value;
      var held := IndexOf(jobs[i].processes, ProcessOf, process);
      if held.None? { return Err(ProcessNotFound); }
      var a := held.value;
      var current := jobs[i].processes[a].usage;
      if usage.processes == 0 || usage.processes != current.processes { return Err(InvalidProcess); }
      if SomeAtLeast(usage, current) {
        var more := Excess(usage, current);
        var refused := CheckChainCapacity(i, more);
        if refused.Some? { return Err(refused.value); }
        ResizePhases(State(), i, a, usage);
        var failed := ApplyChainDelta(i, more, true);
        assert failed.None?;
      } else {
        ResizePhases(State(), i, a, usage);
      }
      var failed := ApplyChainDelta(i, Excess(current, usage), false);
      assert failed.None?;
      jobs := jobs[i := jobs[i].(processes := jobs[i].processes[a := Reservation(process, usage)])];
      r := Ok(());
    }

    method ReleaseProcess(job: nat, process: nat) returns (r: Result<Usage, Error>)
      requires Valid()
      modifies this`jobs
      ensures Valid() && (State(), r) == C.ReleaseProcess(old(State()), job, process)
    {
      ReleaseSafe(State(), job, process);
      FindIsPosition(jobs, job);
      var found := IndexOf(jobs, JobId, job);
      if found.None? { return Err(InvalidJob); }
      var i := found.value;
      var held := IndexOf(jobs[i].processes, ProcessOf, process);
      if held.None? { return Err(ProcessNotFound); }
      var usage := jobs[i].processes[held.value].usage;
      jobs := jobs[i := jobs[i].(processes := SwapRemove(jobs[i].processes, held.value))];
      var failed := ApplyChainDelta(i, usage, false);
      assert failed.None?;
      r := Ok(usage);
    }

    /** The depth-first search visits exactly the descendants of `root`, each once. */
    method CollectSubtree(root: nat) returns (result: seq<nat>)
      requires Valid() && 1 <= root <= |jobs|
      ensures Unique(result, Id) && IsSubtree(jobs, root - 1, Elements(result))
      ensures forall m :: 0 <= m < |result| ==> 1 <= result[m] <= |jobs|
    {
      result := [];
      var pending := [root];
      SearchStarts(jobs, root);
      while pending != []
        invariant Unique(result, Id) && Unique(pending, Id)
        invariant Searching(jobs, root, Elements(result), Elements(pending)) && |result| <= |jobs|
        decreases |jobs| - |result|
      {
        var top := |pending| - 1;
        var job := pending[top];
        Visit(jobs, root, result, pending);
        FindIsPosition(jobs, job);
        var index := IndexOf(jobs, JobId, job).value;
        result := result + [job];
        pending := pending[..top] + jobs[index].children;
        SearchBound(jobs, root, result, Elements(pending));
      }
      assert Elements(pending) == {};
      SearchEnds(jobs, root, Elements(result));
      forall m | 0 <= m < |result| ensures 1 <= result[m] <= |jobs| { assert result[m] in Elements(result); }
    }

    /** Uncharges the reservations `rs` just taken from job number `i`, one by one. */
    method Settle(i: nat, rs: seq<Reservation>)
      requires Ordered(jobs) && i < |jobs| && jobs[i].processes == [] && Accounts(Holding(jobs, i, rs))
      modifies this`jobs
      ensures OnlyUsage(old(jobs), jobs) && Ordered(jobs) && Accounts(jobs)
    {
      hide Accounts, ApplyChain;
      var m := 0;
      while m < |rs|
        invariant 0 <= m <= |rs| && OnlyUsage(old(jobs), jobs) && Ordered(jobs)
        invariant Ordered(Holding(jobs, i, rs[m..])) && Accounts(Holding(jobs, i, rs[m..]))
      {
        SettleOne(jobs, i, rs[m..]);
        assert rs[m..][1..] == rs[m + 1..];
        var failed := ApplyChainDelta(i, rs[m].usage, false);
        assert failed.None?;
        m := m + 1;
      }
      assert rs[m..] == [];
      assert Holding(jobs, i, []) == jobs;
    }

    /** Releases the reservations of the listed jobs, from the last listed to the first. */
    method EmptyAll(ids: seq<nat>) returns (released: nat)
      requires Ordered(jobs) && Accounts(jobs) && Unique(ids, Id)
      requires forall m :: 0 <= m < |ids| ==> 1 <= ids[m] <= |jobs|
      modifies this`jobs
      ensures Emptying(old(jobs), jobs, Elements(ids)) && released == HeldBy(old(jobs), Elements(ids), |jobs|)
    {
      hide Accounts, HeldBy;
      released := 0;
      var m := |ids|;
      HeldByNone(jobs, |jobs|);
      assert Elements(ids[m..]) == {};
      while m > 0
        invariant 0 <= m <= |ids| && Emptying(old(jobs), jobs, Elements(ids[m..]))
        invariant released == HeldBy(old(jobs), Elements(ids[m..]), |old(jobs)|)
      {
        m := m - 1;
        TakeOne(ids, m);
        FindIsPosition(jobs, ids[m]);
        var i := IndexOf(jobs, JobId, ids[m]).value;
        var rs := jobs[i].processes;
        HeldByOneMore(old(jobs), Elements(ids[m + 1..]), ids[m], |old(jobs)|);
        ghost var before := jobs;
        jobs := jobs[i := jobs[i].(processes := [])];
        assert Holding(jobs, i, rs) == before;
        released := released + |rs|;
        Settle(i, rs);
      }
      assert ids[0..] == ids;
    }

    method TerminateSubtree(root: nat) returns (r: Result<nat, Error>)
      requires Valid()
      modifies this`jobs
      ensures Valid() && (State(), r) == C.TerminateSubtree(old(State()), root)
    {
      hide TreeInv, LosesSubtree, TerminatedForest, Population;
      assert Ordered(jobs) by { InvOrdered(State()); }
      TerminateSafe(State(), root);
      FindIsPosition(jobs, root);
      var found := IndexOf(jobs, JobId, root);
      if found.None? { return Err(InvalidJob); }
      if jobs[found.value].parent.None? { return Err(Root); }
      if jobs[found.value].retired { return Err(Retired); }
      var released := RetireSubtree(root);
      r := Ok(released);
    }

    method RetireSubtree(root: nat) returns (released: nat)
      requires Valid() && 1 <= root <= |jobs| && jobs[root - 1].parent.Some?
      modifies this`jobs
      ensures jobs == TerminatedForest(old(jobs), root - 1)
      ensures released == Population(old(jobs), root - 1, |old(jobs)|)
    {
      hide Accounts, InLimits, JobOk, Apart, IsSubtree, TerminatedForest, HeldBy, Population, Elements;
      var ids := CollectSubtree(root);
      released := EmptyAll(ids);
      ghost var emptied := jobs;
      HeldBySubtree(old(jobs), Elements(ids), root - 1, |jobs|);
      var parent := jobs[root - 1].parent.value;
      FindIsPosition(jobs, parent);
      var p := IndexOf(jobs, JobId, parent).value;
      jobs := jobs[p := jobs[p].(children := Without(jobs[p].children, root))];
      RetireAll(ids);
      RetiredIsTerminated(old(jobs), emptied, jobs, root - 1, Elements(ids));
    }

    method RetireAll(ids: seq<nat>)
      requires Ordered(jobs) && forall m :: 0 <= m < |ids| ==> 1 <= ids[m] <= |jobs|
      modifies this`jobs
      ensures |jobs| == |old(jobs)|
      ensures forall x :: 0 <= x < |jobs| ==>
                jobs[x] == if x + 1 in Elements(ids) then Gone(old(jobs[x])) else old(jobs[x])
    {
      var m := 0;
      while m < |ids|
        invariant 0 <= m <= |ids| && |jobs| == |old(jobs)| && Ordered(jobs)
        invariant forall x :: 0 <= x < |jobs| ==>
                    jobs[x] == if x + 1 in Elements(ids[..m]) then Gone(old(jobs[x])) else old(jobs[x])
      {
        FindIsPosition(jobs, ids[m]);
        var i := IndexOf(jobs, JobId, ids[m]).value;
        jobs := jobs[i := Gone(jobs[i])];
        assert ids[..m + 1] == ids[..m] + [ids[m]];
        ElementsPush(ids[..m], ids[m]);
        m := m + 1;
      }
      assert ids[..m] == ids;
    }
  }
}
