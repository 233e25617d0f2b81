/** The process table stays a forest of processes with consistent thread lifecycles, and what
    each operation does to the thread and process lookups. */
module ProcessInvariant {
  import opened Common
  import opened Processes

  ghost predicate ThreadOk(th: Thread, p: nat) {
    && th.owner == p
    && (th.state.Stopped? <==> th.resume.Some?)
    && (th.resume.Some? ==> th.resume.value in {Runnable, Blocked, Sleeping})
    && (th.state.Exited? <==> th.exit.Some?)
    && (th.exit.Some? ==> th.exit.value.thread == th.id && th.exit.value.process == p && !th.detached)
  }

  /** A created process has no threads, a running one has a live thread, an exited one has none. */
  ghost predicate ProcessOk(pr: Process) {
    && Unique(pr.threads, Tid)
    && (forall j :: 0 <= j < |pr.threads| ==> ThreadOk(pr.threads[j], pr.id))
    && |pr.threads| <= MAX_THREADS_PER_PROCESS
    && Unique(pr.children, Id) && |pr.children| <= MAX_CHILDREN_PER_PROCESS
    && (pr.state.Created? ==> pr.threads == [] && pr.exit.None?)
    && (pr.state.Running? ==> !AllExited(pr.threads) && pr.exit.None?)
    && (pr.state.Exited? ==> AllExited(pr.threads) && pr.exit.Some? && pr.exit.value.process == pr.id)
  }

  /** No thread identity is held by two processes. */
  ghost predicate Apart(ps: seq<Process>) {
    forall i, j, t :: 0 <= i < j < |ps| && IndexOf(ps[i].threads, Tid, t).Some? ==> IndexOf(ps[j].threads, Tid, t).None?
  }

  ghost predicate Named(ps: seq<Process>, next: nat) {
    && Unique(ps, Pid)
    && forall i :: 0 <= i < |ps| ==> 0 < ps[i].id < next
  }

  /** Parent and child links are symmetric, and parents are older than their children. */
  ghost predicate Forest(ps: seq<Process>) {
    && (forall p: nat, c: nat {:trigger c in ProcessAt(ps, p).value.children} ::
          ProcessAt(ps, p).Some? && c in ProcessAt(ps, p).value.children ==>
            ProcessAt(ps, c).Some? && ProcessAt(ps, c).value.parent == Some(p))
    && (forall c: nat {:trigger ProcessAt(ps, c).value.parent} :: ProcessAt(ps, c).Some?
                                                                   && ProcessAt(ps, c).value.parent.Some? ==>
          var p := ProcessAt(ps, c).value.parent.value;
          p < c && ProcessAt(ps, p).Some? && c in ProcessAt(ps, p).value.children)
  }

  function CountThreads(ps: seq<Process>): nat {
    if ps == [] then 0 else |ps[0].threads| + CountThreads(ps[1..])
  }

  /** Identities in use lie below this bound. The last identity may be in use once the counter stands at it. */
  function IdentityBound(next: nat): nat {
    if next == U64_MAX then next + 1 else next
  }

  ghost predicate TableInv(tb: Table) {
    && |tb.processes| <= MAX_PROCESSES
    && 0 < tb.nextProcess <= U64_MAX && 0 < tb.nextThread <= U64_MAX
    && Named(tb.processes, IdentityBound(tb.nextProcess))
    && (forall i :: 0 <= i < |tb.processes| ==> ProcessOk(tb.processes[i]))
    && Apart(tb.processes)
    && Forest(tb.processes)
    && tb.threadCount == CountThreads(tb.processes) <= MAX_THREADS
  }

  lemma EmptyTableInv()
    ensures TableInv(EMPTY_TABLE)
    ensures forall t :: ThreadAt(EMPTY_TABLE.processes, t).None?
  {
  }

  // ---------------------------------------------------------------- locating threads

  lemma Located(ps: seq<Process>, i: nat, t: nat)
    requires Apart(ps) && i < |ps| && IndexOf(ps[i].threads, Tid, t).Some?
    ensures Holder(ps, t) == Some(i)
    ensures ThreadAt(ps, t) == Lookup(ps[i].threads, Tid, t)
  {
  }

  lemma NotLocated(ps: seq<Process>, t: nat)
    requires forall i :: 0 <= i < |ps| ==> IndexOf(ps[i].threads, Tid, t).None?
    ensures ThreadAt(ps, t).None?
  {
  }

  /** A thread found is well formed and belongs to the process that holds it. */
  lemma FoundThread(tb: Table, t: nat)
    requires TableInv(tb) && ThreadAt(tb.processes, t).Some?
    ensures var th := ThreadAt(tb.processes, t).value; var h := Holder(tb.processes, t);
            && h.Some? && th.id == t && ThreadOk(th, tb.processes[h.value].id)
            && IndexOf(tb.processes, Pid, th.owner) == h
            && ProcessAt(tb.processes, th.owner) == Some(tb.processes[h.value])
            && Lookup(tb.processes[h.value].threads, Tid, t) == Some(th)
            && !tb.processes[h.value].state.Created?
  {
  }

  /** The process of a live thread has not exited. */
  lemma LiveOwner(tb: Table, t: nat)
    requires TableInv(tb) && ThreadAt(tb.processes, t).Some? && !ThreadAt(tb.processes, t).value.state.Exited?
    ensures var pr := ProcessAt(tb.processes, ThreadAt(tb.processes, t).value.owner);
            pr.Some? && pr.value.state.Running?
  {
  }

  // ---------------------------------------------------------------- replacing one process

  lemma {:induction false} CountReplace(ps: seq<Process>, i: nat, pr: Process)
    requires i < |ps|
    ensures CountThreads(ps[i := pr]) == CountThreads(ps) - |ps[i].threads| + |pr.threads|
  {
    if i == 0 {
      assert ps[0 := pr][1..] == ps[1..];
    } else {
      CountReplace(ps[1..], i - 1, pr);
      assert ps[i := pr][1..] == ps[1..][i - 1 := pr];
    }
  }

  lemma {:induction false} CountIncludes(ps: seq<Process>, i: nat)
    requires i < |ps|
    ensures |ps[i].threads| <= CountThreads(ps)
  {
    if i > 0 { CountIncludes(ps[1..], i - 1); }
  }

  /** `pr` holds the threads of process `i`, except that thread `t` becomes `o`. */
  ghost predicate Differs(ps: seq<Process>, i: nat, pr: Process, t: nat, o: Option<Thread>) {
    && i < |ps|
    && (forall x :: Lookup(pr.threads, Tid, x) == if x == t then o else Lookup(ps[i].threads, Tid, x))
    && (forall j :: 0 <= j < |ps| && j != i ==> IndexOf(ps[j].threads, Tid, t).None?)
  }

  lemma ReplaceApart(ps: seq<Process>, i: nat, pr: Process, t: nat, o: Option<Thread>)
    requires Apart(ps) && Differs(ps, i, pr, t, o)
    ensures Apart(ps[i := pr])
  {
    forall x ensures IndexOf(pr.threads, Tid, x).Some? ==> x == t || IndexOf(ps[i].threads, Tid, x).Some? {
      assert Lookup(pr.threads, Tid, x) == if x == t then o else Lookup(ps[i].threads, Tid, x);
    }
  }

  lemma ReplaceThreadAt(ps: seq<Process>, i: nat, pr: Process, t: nat, o: Option<Thread>, x: nat)
    requires Apart(ps) && Differs(ps, i, pr, t, o)
    ensures ThreadAt(ps[i := pr], x) == if x == t then o else ThreadAt(ps, x)
  {
    var ps' := ps[i := pr];
    ReplaceApart(ps, i, pr, t, o);
    assert Lookup(pr.threads, Tid, x) == if x == t then o else Lookup(ps[i].threads, Tid, x);
    var h := Holder(ps, x);
    if x == t {
      if o.Some? { Located(ps', i, x); }
    } else if h.Some? {
      assert h.value != i ==> ps'[h.value] == ps[h.value];
      Located(ps', h.value, x);
    } else {
      NotLocated(ps', x);
    }
  }

  lemma SameLinks(ps: seq<Process>, ps': seq<Process>)
    requires Forest(ps)
    requires forall p :: ProcessAt(ps', p).Some? <==> ProcessAt(ps, p).Some?
    requires forall p {:trigger ProcessAt(ps', p)} :: ProcessAt(ps, p).Some? && ProcessAt(ps', p).Some? ==>
               && ProcessAt(ps', p).value.parent == ProcessAt(ps, p).value.parent
               && ProcessAt(ps', p).value.children == ProcessAt(ps, p).value.children
    ensures Forest(ps')
  {
  }

  /** Same identities and the same links: the forest is untouched. */
  lemma ForestKept(ps: seq<Process>, i: nat, pr: Process)
    requires Unique(ps, Pid) && Forest(ps) && i < |ps|
    requires pr.id == ps[i].id && pr.parent == ps[i].parent && pr.children == ps[i].children
    ensures Unique(ps[i := pr], Pid) && Forest(ps[i := pr])
    ensures forall p {:trigger ProcessAt(ps[i := pr], p)} {:trigger ProcessAt(ps, p)} ::
              ProcessAt(ps[i := pr], p) == if p == pr.id then Some(pr) else ProcessAt(ps, p)
  {
    LookupSet(ps, Pid, i, pr);
    UniqueIndex(ps, Pid, i);
    var ps' := ps[i := pr];
    forall p ensures ProcessAt(ps', p) == if p == pr.id then Some(pr) else ProcessAt(ps, p) {
    }
    SameLinks(ps, ps');
  }

  /** The general effect of an operation on one process's threads. */
  lemma ReplaceEffect(tb: Table, i: nat, pr: Process, t: nat, o: Option<Thread>)
    requires TableInv(tb) && Differs(tb.processes, i, pr, t, o) && ProcessOk(pr)
    requires var was := tb.processes[i]; pr.id == was.id && pr.parent == was.parent && pr.children == was.children
    requires tb.threadCount - |tb.processes[i].threads| + |pr.threads| <= MAX_THREADS
    ensures tb.threadCount - |tb.processes[i].threads| + |pr.threads| >= 0
    ensures TableInv(tb.(processes := tb.processes[i := pr],
                         threadCount := tb.threadCount - |tb.processes[i].threads| + |pr.threads|))
    ensures forall x :: ThreadAt(tb.processes[i := pr], x) == if x == t then o else ThreadAt(tb.processes, x)
    ensures forall p {:trigger ProcessAt(tb.processes[i := pr], p)} ::
              ProcessAt(tb.processes[i := pr], p) == if p == pr.id then Some(pr) else ProcessAt(tb.processes, p)
  {
    ReplaceApart(tb.processes, i, pr, t, o);
    ForestKept(tb.processes, i, pr);
    CountReplace(tb.processes, i, pr);
    forall x ensures ThreadAt(tb.processes[i := pr], x) == if x == t then o else ThreadAt(tb.processes, x) {
      ReplaceThreadAt(tb.processes, i, pr, t, o, x);
    }
  }

  // ---------------------------------------------------------------- operations on one thread

  /** What the processes are, apart from their threads. */
  ghost predicate SameHeaders(ps: seq<Process>, ps': seq<Process>) {
    forall p {:trigger ProcessAt(ps', p)} ::
      && (ProcessAt(ps', p).Some? <==> ProcessAt(ps, p).Some?)
      && (ProcessAt(ps', p).Some? ==> ProcessAt(ps', p).value.(threads := []) == ProcessAt(ps, p).value.(threads := []))
  }

  lemma AfterOk(th: Thread, call: ThreadCall, p: nat)
    requires ThreadOk(th, p) && After(th, call).Ok?
    ensures var th' := After(th, call).value;
            ThreadOk(th', p) && th'.id == th.id && !th.state.Exited? && !th'.state.Exited?
                && th'.detached == th.detached
  {
  }

  /** Overwriting a thread of a process by another of the same identity and the same liveness. */
  lemma UpdatedProcess(pr: Process, j: nat, th: Thread)
    requires ProcessOk(pr) && j < |pr.threads|
    requires th.id == pr.threads[j].id && ThreadOk(th, pr.id)
    requires th.state.Exited? <==> pr.threads[j].state.Exited?
    ensures ProcessOk(pr.(threads := pr.threads[j := th]))
    ensures forall x :: Lookup(pr.threads[j := th], Tid, x) == if x == th.id then Some(th)
            else Lookup(pr.threads, Tid, x)
  {
    LookupSet(pr.threads, Tid, j, th);
    var threads := pr.threads[j := th];
    if !AllExited(pr.threads) {
      var k :| 0 <= k < |pr.threads| && !pr.threads[k].state.Exited?;
      assert !threads[k].state.Exited?;
    }
  }

  /** Writing a live or exited thread back in place keeps everything but that thread. */
  lemma SetThreadEffect(tb: Table, t: nat, th: Thread)
    requires TableInv(tb) && ThreadAt(tb.processes, t).Some? && th.id == t
    requires var was := ThreadAt(tb.processes, t).value;
             ThreadOk(th, was.owner) && (th.state.Exited? <==> was.state.Exited?)
    ensures TableInv(tb.(processes := SetThread(tb.processes, t, th)))
    ensures forall x :: ThreadAt(SetThread(tb.processes, t, th), x) == if x == t then Some(th)
            else ThreadAt(tb.processes, x)
    ensures SameHeaders(tb.processes, SetThread(tb.processes, t, th))
  {
    FoundThread(tb, t);
    var h := Holder(tb.processes, t).value;
    var pr := tb.processes[h];
    var j := IndexOf(pr.threads, Tid, t).value;
    UpdatedProcess(pr, j, th);
    assert Differs(tb.processes, h, pr.(threads := pr.threads[j := th]), t, Some(th));
    ReplaceEffect(tb, h, pr.(threads := pr.threads[j := th]), t, Some(th));
    UniqueIndex(tb.processes, Pid, h);
  }

  /** A lifecycle call changes its thread as `After` says and nothing else; a refused call changes nothing. */
  lemma CallEffect(tb: Table, t: nat, call: ThreadCall)
    requires TableInv(tb)
    ensures var (tb', r) := CallThread(tb, t, call); var th := ThreadAt(tb.processes, t);
            && TableInv(tb')
            && (r.Err? ==> tb' == tb)
            && (r.Ok? <==> th.Some? && After(th.value, call).Ok?)
            && (r.Ok? ==>
                  forall x :: ThreadAt(tb'.processes, x) ==
                    if x == t then Some(After(th.value, call).value) else ThreadAt(tb.processes, x))
            && SameHeaders(tb.processes, tb'.processes)
            && tb'.nextProcess == tb.nextProcess && tb'.nextThread == tb.nextThread
  {
    var th := ThreadAt(tb.processes, t);
    if th.Some? && After(th.value, call).Ok? {
      FoundThread(tb, t);
      AfterOk(th.value, call, th.value.owner);
      SetThreadEffect(tb, t, After(th.value, call).value);
    }
  }

  // ---------------------------------------------------------------- creating threads

  lemma PushedProcess(pr: Process, t: nat, name: string)
    requires ProcessOk(pr) && !pr.state.Exited? && |pr.threads| < MAX_THREADS_PER_PROCESS
    requires IndexOf(pr.threads, Tid, t).None?
    ensures var th := NewThread(pr.id, t, name);
            && ProcessOk(pr.(threads := pr.threads + [th], state := ProcessState.Running))
            && forall x :: Lookup(pr.threads + [th], Tid, x) == if x == t then Some(th) else Lookup(pr.threads, Tid, x)
  {
    var th := NewThread(pr.id, t, name);
    LookupPush(pr.threads, Tid, th);
    var threads := pr.threads + [th];
    assert threads[|pr.threads|] == th;
    assert !AllExited(threads);
  }

  /** A fresh thread starts runnable in its process; every other thread is as before. */
  lemma InsertEffect(tb: Table, p: nat, t: nat, name: string)
    requires TableInv(tb) && ValidateThreadCreation(tb, p).None? && ThreadAt(tb.processes, t).None?
    ensures var tb' := InsertThread(tb, p, t, name);
            && TableInv(tb')
            && (forall x :: ThreadAt(tb'.processes, x) ==
                  if x == t then Some(NewThread(p, t, name)) else ThreadAt(tb.processes, x))
            && (forall q {:trigger ProcessAt(tb'.processes, q)} :: q != p ==>
                ProcessAt(tb'.processes, q) == ProcessAt(tb.processes, q))
            && ProcessAt(tb'.processes, p) == Some(ProcessAt(tb.processes, p).value.(
                 threads := ProcessAt(tb.processes, p).value.threads + [NewThread(p, t, name)],
                     state := ProcessState.Running))
  {
    var i := IndexOf(tb.processes, Pid, p).value;
    var pr := tb.processes[i];
    PushedProcess(pr, t, name);
    var th := NewThread(p, t, name);
    var pr' := pr.(threads := pr.threads + [th], state := ProcessState.Running);
    assert Differs(tb.processes, i, pr', t, Some(th));
    ReplaceEffect(tb, i, pr', t, Some(th));
  }

  /** Where an inserted thread stands. */
  lemma InsertedAt(tb: Table, p: nat, t: nat, name: string)
    requires TableInv(tb) && ValidateThreadCreation(tb, p).None? && ThreadAt(tb.processes, t).None?
    ensures var i := IndexOf(tb.processes, Pid, p).value; var ps' := InsertThread(tb, p, t, name).processes;
            && IndexOf(ps', Pid, p) == Some(i)
            && IndexOf(ps'[i].threads, Tid, t) == Some(|tb.processes[i].threads|)
            && ThreadAt(ps', t) == Some(NewThread(p, t, name))
  {
    hide ThreadAt, TableInv;
    InsertEffect(tb, p, t, name);
    var i := IndexOf(tb.processes, Pid, p).value;
    ProcessesOk(InsertThread(tb, p, t, name), i);
    UniqueIndex(InsertThread(tb, p, t, name).processes, Pid, i);
    UniqueIndex(InsertThread(tb, p, t, name).processes[i].threads, Tid, |tb.processes[i].threads|);
  }

  lemma ProcessesOk(tb: Table, i: nat)
    requires TableInv(tb) && i < |tb.processes|
    ensures ProcessOk(tb.processes[i]) && Unique(tb.processes, Pid)
  {
  }

  lemma StateBefore(pr: Process)
    requires ProcessOk(pr) && !pr.state.Exited?
    ensures pr.state == if pr.threads == [] then Created else ProcessState.Running
  {
  }

  lemma RollbackAt(tb: Table, t: nat, i: nat, j: nat)
    requires ThreadAt(tb.processes, t).Some?
    requires IndexOf(tb.processes, Pid, ThreadAt(tb.processes, t).value.owner) == Some(i)
    requires IndexOf(tb.processes[i].threads, Tid, t) == Some(j)
    requires var th := ThreadAt(tb.processes, t).value; th.state.Runnable? && !th.detached && th.exit.None?
    ensures var pr := tb.processes[i]; var threads := RemoveAt(pr.threads, j);
            RollbackThread(tb, t) ==
            (tb.(processes := tb.processes[i := pr.(
                   threads := threads, state := if threads == [] then Created else pr.state)],
                 threadCount := SatSub(tb.threadCount, 1)), Ok(()))
  {
    hide ThreadAt;
  }

  /** Rolling back a thread just created restores the table exactly, its process's state included. */
  lemma RollbackUndoesInsert(tb: Table, p: nat, t: nat, name: string)
    requires TableInv(tb) && ValidateThreadCreation(tb, p).None? && ThreadAt(tb.processes, t).None?
    ensures RollbackThread(InsertThread(tb, p, t, name), t) == (tb, Ok(()))
  {
    hide ThreadAt, TableInv, RollbackThread, IndexOf, ProcessOk;
    var tb' := InsertThread(tb, p, t, name);
    InsertedAt(tb, p, t, name);
    var i := IndexOf(tb.processes, Pid, p).value;
    var pr := tb.processes[i];
    ProcessesOk(tb, i);
    StateBefore(pr);
    RollbackAt(tb', t, i, |pr.threads|);
    assert RemoveAt(tb'.processes[i].threads, |pr.threads|) == pr.threads;
    assert tb'.processes[i := pr] == tb.processes;
  }

  /** The identity search ends at the least unused identity, or reports exhaustion of all of them. */
  lemma {:induction false} FreeThreadIdIsLeast(ps: seq<Process>, raw: nat)
    ensures var r := FreeThreadId(ps, raw);
            && (r.Some? ==> raw <= r.value < U64_MAX && ThreadAt(ps, r.value).None?
                            && forall t :: raw <= t < r.value ==> ThreadAt(ps, t).Some?)
            && (r.None? ==> forall t :: raw <= t < U64_MAX ==> ThreadAt(ps, t).Some?)
    decreases U64_MAX - raw
  {
    hide ThreadAt;
    if raw < U64_MAX && ThreadAt(ps, raw).Some? {
      FreeThreadIdIsLeast(ps, raw + 1);
    }
  }

  lemma CreateThreadEffect(tb: Table, p: nat, name: string)
    requires TableInv(tb)
    ensures var (tb', r) := CreateThread(tb, p, name);
            && TableInv(tb')
            && (r.Err? ==> tb' == tb)
            && (r.Ok? ==>
                  && ValidateThreadCreation(tb, p).None? && ThreadAt(tb.processes, r.value).None?
                  && tb' == InsertThread(tb, p, r.value, name).(nextThread := r.value + 1))
  {
    FreeThreadIdIsLeast(tb.processes, tb.nextThread);
    var r := CreateThread(tb, p, name).1;
    if r.Ok? { InsertEffect(tb, p, r.value, name); }
  }

  // ---------------------------------------------------------------- exit, detach, join

  lemma RemovedThread(pr: Process, j: nat)
    requires ProcessOk(pr) && j < |pr.threads| && pr.threads[j].state.Exited?
    ensures ProcessOk(pr.(threads := RemoveAt(pr.threads, j)))
    ensures forall x :: Lookup(RemoveAt(pr.threads, j), Tid, x) ==
                        if x == pr.threads[j].id then None else Lookup(pr.threads, Tid, x)
  {
    LookupRemove(pr.threads, Tid, j);
    var threads := RemoveAt(pr.threads, j);
    if !AllExited(pr.threads) {
      var k :| 0 <= k < |pr.threads| && !pr.threads[k].state.Exited?;
      assert !threads[if k < j then k else k - 1].state.Exited?;
    }
  }

  /** Reclaiming an exited thread never panics and forgets exactly that thread. */
  lemma ReclaimEffect(tb: Table, t: nat)
    requires TableInv(tb) && ThreadAt(tb.processes, t).Some? && ThreadAt(tb.processes, t).value.state.Exited?
    ensures var r := Reclaim(tb, ThreadAt(tb.processes, t).value.owner, t);
            && r.Some? && TableInv(r.value)
            && (forall x :: ThreadAt(r.value.processes, x) == if x == t then None else ThreadAt(tb.processes, x))
            && SameHeaders(tb.processes, r.value.processes)
            && r.value.nextProcess == tb.nextProcess && r.value.nextThread == tb.nextThread
  {
    FoundThread(tb, t);
    var h := Holder(tb.processes, t).value;
    var pr := tb.processes[h];
    var j := IndexOf(pr.threads, Tid, t).value;
    RemovedThread(pr, j);
    var pr' := pr.(threads := RemoveAt(pr.threads, j));
    assert Differs(tb.processes, h, pr', t, None);
    ReplaceEffect(tb, h, pr', t, None);
    UniqueIndex(tb.processes, Pid, h);
  }

  lemma JoinThreadEffect(tb: Table, t: nat)
    requires TableInv(tb)
    ensures var r := JoinThread(tb, t); var th := ThreadAt(tb.processes, t);
            && r.Returns? && TableInv(r.table)
            && (r.result.Err? ==> r.table == tb)
            && (r.result.Ok? <==> th.Some? && th.value.state.Exited?)
            && (r.result.Ok? ==>
                r.result.value.thread == t && r.result.value.process == th.value.owner
                && Some(r.result.value) == th.value.exit)
            && (r.result.Ok? ==> forall x :: ThreadAt(r.table.processes, x) == if x == t then None
                else ThreadAt(tb.processes, x))
            && SameHeaders(tb.processes, r.table.processes)
            && r.table.nextProcess == tb.nextProcess && r.table.nextThread == tb.nextThread
  {
    if ThreadAt(tb.processes, t).Some? {
      FoundThread(tb, t);
      if ThreadAt(tb.processes, t).value.state.Exited? { ReclaimEffect(tb, t); }
    }
  }

  function ExitedThread(th: Thread, status: nat): Thread {
    th.(state := ThreadState.Exited, resume := None, exit := Some(ThreadExit(th.id, th.owner, status)))
  }

  /** The process once its thread number `j` has exited, and has been reclaimed if detached. */
  function ExitedProcess(pr: Process, j: nat, status: nat): Process
    requires j < |pr.threads|
  {
    var th := ExitedThread(pr.threads[j], status);
    var threads := pr.threads[j := th];
    var pr1 := if AllExited(threads) then
                 pr.(threads := threads, state := ProcessState.Exited, exit := Some(ProcessExit(pr.id, status)))
               else pr.(threads := threads);
    if th.detached then pr1.(threads := RemoveAt(threads, j)) else pr1
  }

  lemma ExitedProcessOk(pr: Process, j: nat, status: nat)
    requires ProcessOk(pr) && j < |pr.threads| && !pr.threads[j].state.Exited?
    ensures var pr' := ExitedProcess(pr, j, status); var th := ExitedThread(pr.threads[j], status);
            && ProcessOk(pr')
            && (forall x :: Lookup(pr'.threads, Tid, x) ==
                  if x == th.id then (if th.detached then None else Some(th)) else Lookup(pr.threads, Tid, x))
  {
    var th := ExitedThread(pr.threads[j], status);
    var threads := pr.threads[j := th];
    LookupSet(pr.threads, Tid, j, th);
    if !AllExited(threads) {
      var k :| 0 <= k < |threads| && !threads[k].state.Exited?;
      if th.detached {
        assert !RemoveAt(threads, j)[if k < j then k else k - 1].state.Exited?;
      }
    }
    if th.detached { LookupRemove(threads, Tid, j); }
  }

  lemma OwnThreads(tb: Table, h: nat)
    requires TableInv(tb) && h < |tb.processes|
    ensures Unique(tb.processes[h].threads, Tid)
  {
  }

  lemma ExitShape(tb: Table, t: nat, status: nat)
    requires TableInv(tb) && ThreadAt(tb.processes, t).Some? && !ThreadAt(tb.processes, t).value.state.Exited?
    ensures var h := Holder(tb.processes, t).value; var pr := tb.processes[h];
            var j := IndexOf(pr.threads, Tid, t).value;
            var pr' := ExitedProcess(pr, j, status); var r := ExitThread(tb, t, status);
            && |pr'.threads| <= |pr.threads| && r.Exits?
            && r.table == tb.(processes := tb.processes[h := pr'],
                threadCount := SatSub(tb.threadCount, |pr.threads| - |pr'.threads|))
            && r.process == pr'.exit
  {
    hide Forest, Apart, CountThreads, ThreadAt;
    FoundThread(tb, t);
    var h := Holder(tb.processes, t).value;
    var pr := tb.processes[h];
    var j := IndexOf(pr.threads, Tid, t).value;
    assert Unique(pr.threads, Tid) by { OwnThreads(tb, h); }
    var th' := ExitedThread(pr.threads[j], status);
    var ps := SetThread(tb.processes, t, th');
    LookupSet(tb.processes, Pid, h, ps[h]);
    UniqueIndex(ps, Pid, h);
    LookupSet(pr.threads, Tid, j, th');
    UniqueIndex(pr.threads[j := th'], Tid, j);
    var over := AllExited(ps[h].threads);
    var ps1 := if over then ps[h := ps[h].(state := ProcessState.Exited, exit := Some(ProcessExit(pr.id, status)))]
        else ps;
    LookupSet(ps, Pid, h, ps1[h]);
    UniqueIndex(ps1, Pid, h);
    CountIncludes(tb.processes, h);
  }

  lemma ExitRefused(tb: Table, t: nat, status: nat)
    ensures var r := ExitThread(tb, t, status); var th := ThreadAt(tb.processes, t);
            && (th.None? || th.value.state.Exited? ==> r.Refused? && r.table == tb)
            && (r.Exits? && r.process.Some? ==> r.process == Some(ProcessExit(th.value.owner, status)))
  {
  }

  lemma ExitDiffers(tb: Table, t: nat, status: nat)
    requires TableInv(tb) && ThreadAt(tb.processes, t).Some? && !ThreadAt(tb.processes, t).value.state.Exited?
    ensures var h := Holder(tb.processes, t).value; var pr := tb.processes[h];
            var j := IndexOf(pr.threads, Tid, t).value;
            var pr' := ExitedProcess(pr, j, status); var th := ThreadAt(tb.processes, t).value;
            && ProcessOk(pr') && pr'.id == pr.id && pr'.parent == pr.parent && pr'.children == pr.children
            && |pr.threads| <= tb.threadCount <= MAX_THREADS && |pr'.threads| <= |pr.threads|
            && Differs(tb.processes, h, pr', t, if th.detached then None else Some(ExitedThread(th, status)))
  {
    FoundThread(tb, t);
    var h := Holder(tb.processes, t).value;
    CountIncludes(tb.processes, h);
    ExitedProcessOk(tb.processes[h], IndexOf(tb.processes[h].threads, Tid, t).value, status);
  }

  /** Exiting ends a live thread: it disappears if detached, else it keeps its exit record. The
      process exits with its last live thread. It never panics. */
  lemma ExitEffect(tb: Table, t: nat, status: nat)
    requires TableInv(tb)
    ensures var r := ExitThread(tb, t, status); var th := ThreadAt(tb.processes, t);
            && !r.ExitPanics?
            && (r.Exits? <==> th.Some? && !th.value.state.Exited?) && (r.Refused? ==> r.table == tb)
            && (r.Exits? ==>
                  && TableInv(r.table)
                  && (forall x :: ThreadAt(r.table.processes, x) ==
                        if x != t then ThreadAt(tb.processes, x)
                        else if th.value.detached then None else Some(ExitedThread(th.value, status)))
                  && (forall p {:trigger ProcessAt(r.table.processes, p)} :: p != th.value.owner ==>
                        ProcessAt(r.table.processes, p) == ProcessAt(tb.processes, p))
                  && ProcessAt(r.table.processes, th.value.owner).Some?
                  && ProcessAt(r.table.processes, th.value.owner).value.exit == r.process
                  && ProcessAt(tb.processes, th.value.owner).Some?
                  && ProcessAt(r.table.processes, th.value.owner).value.parent ==
                      ProcessAt(tb.processes, th.value.owner).value.parent
                  && ProcessAt(r.table.processes, th.value.owner).value.children ==
                      ProcessAt(tb.processes, th.value.owner).value.children
                  && (r.process.Some? ==> r.process == Some(ProcessExit(th.value.owner, status)))
                  && r.table.nextProcess == tb.nextProcess && r.table.nextThread == tb.nextThread)
  {
    hide TableInv, ExitThread, ExitedProcess, Differs, ProcessOk, ThreadAt;
    var th := ThreadAt(tb.processes, t);
    ExitRefused(tb, t, status);
    if th.Some? && !th.value.state.Exited? {
      ExitShape(tb, t, status);
      FoundThread(tb, t);
      ExitDiffers(tb, t, status);
      var h := Holder(tb.processes, t).value;
      var j := IndexOf(tb.processes[h].threads, Tid, t).value;
      var o := if th.value.detached then None else Some(ExitedThread(th.value, status));
      ReplaceEffect(tb, h, ExitedProcess(tb.processes[h], j, status), t, o);
    }
  }

  /** Detaching marks a live thread, and reclaims an exited one at once. It never panics. */
  lemma DetachEffect(tb: Table, t: nat)
    requires TableInv(tb)
    ensures var r := DetachThread(tb, t); var th := ThreadAt(tb.processes, t);
            && r.Returns? && TableInv(r.table)
            && (r.result.Err? ==> r.table == tb)
            && (r.result.Ok? <==> th.Some? && !th.value.detached)
            && (r.result.Ok? ==>
                  forall x :: ThreadAt(r.table.processes, x) ==
                    if x != t then ThreadAt(tb.processes, x)
                    else if th.value.state.Exited? then None else Some(th.value.(detached := true)))
            && SameHeaders(tb.processes, r.table.processes)
            && r.table.nextProcess == tb.nextProcess && r.table.nextThread == tb.nextThread
  {
    var th := ThreadAt(tb.processes, t);
    if th.Some? && !th.value.detached {
      FoundThread(tb, t);
      if th.value.state.Exited? {
        DetachReclaims(tb, t);
        ReclaimEffect(tb, t);
      } else {
        SetThreadEffect(tb, t, th.value.(detached := true));
      }
    }
  }

  lemma DetachReclaims(tb: Table, t: nat)
    requires TableInv(tb) && ThreadAt(tb.processes, t).Some? && ThreadAt(tb.processes, t).value.state.Exited?
    ensures var th := ThreadAt(tb.processes, t).value;
            var tb1 := tb.(processes := SetThread(tb.processes, t, th.(detached := true)));
            Reclaim(tb1, th.owner, t) == Reclaim(tb, th.owner, t)
  {
    FoundThread(tb, t);
    var th := ThreadAt(tb.processes, t).value;
    var h := Holder(tb.processes, t).value;
    var pr := tb.processes[h];
    var j := IndexOf(pr.threads, Tid, t).value;
    var ps := SetThread(tb.processes, t, th.(detached := true));
    LookupSet(tb.processes, Pid, h, ps[h]);
    UniqueIndex(ps, Pid, h);
    LookupSet(pr.threads, Tid, j, th.(detached := true));
    UniqueIndex(ps[h].threads, Tid, j);
    assert RemoveAt(ps[h].threads, j) == RemoveAt(pr.threads, j);
    var pr' := pr.(threads := RemoveAt(pr.threads, j));
    assert ps[h := pr'] == tb.processes[h := pr'];
  }

  // ---------------------------------------------------------------- creating and dropping processes

  /** `ps'` holds the same threads at the same indices, and none beyond. */
  ghost predicate SameThreads(ps: seq<Process>, ps': seq<Process>) {
    && |ps| <= |ps'|
    && (forall i :: 0 <= i < |ps| ==> ps'[i].threads == ps[i].threads)
    && (forall i :: |ps| <= i < |ps'| ==> ps'[i].threads == [])
  }

  lemma SameThreadsEffect(ps: seq<Process>, ps': seq<Process>)
    requires Apart(ps) && SameThreads(ps, ps')
    ensures Apart(ps')
    ensures forall x :: ThreadAt(ps', x) == ThreadAt(ps, x)
  {
  }

  lemma {:induction false} CountPush(ps: seq<Process>, pr: Process)
    ensures CountThreads(ps + [pr]) == CountThreads(ps) + |pr.threads|
  {
    if ps == [] {
      assert (ps + [pr])[1..] == [];
    } else {
      CountPush(ps[1..], pr);
      assert (ps + [pr])[1..] == ps[1..] + [pr];
    }
  }

  /** How a new process `id` with parent `parent` shows in the lookups. */
  ghost predicate Born(ps: seq<Process>, ps': seq<Process>, id: nat, parent: Option<nat>) {
    && ProcessAt(ps, id).None?
    && (parent.Some? ==> ProcessAt(ps, parent.value).Some?)
    && (forall q {:trigger ProcessAt(ps', q)} {:trigger ProcessAt(ps, q)} :: ProcessAt(ps', q) ==
          if q == id then Some(Process(id, parent, Created, [], [], None))
          else if parent == Some(q) then
            Some(ProcessAt(ps, q).value.(children := ProcessAt(ps, q).value.children + [id]))
          else ProcessAt(ps, q))
  }

  lemma BornForest(ps: seq<Process>, ps': seq<Process>, id: nat, parent: Option<nat>)
    requires Forest(ps) && Born(ps, ps', id, parent)
    requires parent.Some? ==> parent.value < id
    ensures Forest(ps')
  {
    hide ProcessAt;
    forall p: nat, c: nat | ProcessAt(ps', p).Some? && c in ProcessAt(ps', p).value.children
      ensures ProcessAt(ps', c).Some? && ProcessAt(ps', c).value.parent == Some(p)
    {
      if c != id {
        assert c in ProcessAt(ps, p).value.children;
      }
    }
  }

  ghost predicate Sound(ps: seq<Process>, next: nat) {
    Named(ps, next) && forall i :: 0 <= i < |ps| ==> ProcessOk(ps[i])
  }

  lemma AppendSound(ps: seq<Process>, pr: Process)
    requires Sound(ps, pr.id) && pr.id > 0 && ProcessOk(pr)
    ensures Sound(ps + [pr], pr.id + 1)
    ensures CountThreads(ps + [pr]) == CountThreads(ps) + |pr.threads|
    ensures ProcessAt(ps, pr.id).None?
    ensures forall q {:trigger ProcessAt(ps + [pr], q)} :: ProcessAt(ps + [pr], q) == if q == pr.id then Some(pr)
            else ProcessAt(ps, q)
  {
    LookupPush(ps, Pid, pr);
    CountPush(ps, pr);
  }

  /** Changing only the links of one process. */
  lemma RelinkSound(ps: seq<Process>, next: nat, i: nat, pr: Process)
    requires Sound(ps, next) && i < |ps| && ProcessOk(pr) && pr.id == ps[i].id && pr.threads == ps[i].threads
    ensures Sound(ps[i := pr], next)
    ensures CountThreads(ps[i := pr]) == CountThreads(ps)
    ensures forall q {:trigger ProcessAt(ps[i := pr], q)} :: ProcessAt(ps[i := pr], q) == if q == pr.id then Some(pr)
            else ProcessAt(ps, q)
  {
    LookupSet(ps, Pid, i, pr);
    CountReplace(ps, i, pr);
  }

  lemma DropSound(ps: seq<Process>, next: nat, i: nat)
    requires Sound(ps, next) && i < |ps|
    ensures Sound(RemoveAt(ps, i), next)
    ensures CountThreads(RemoveAt(ps, i)) == CountThreads(ps) - |ps[i].threads|
    ensures ProcessAt(ps, ps[i].id) == Some(ps[i])
    ensures forall q {:trigger ProcessAt(RemoveAt(ps, i), q)} ::
              ProcessAt(RemoveAt(ps, i), q) == if q == ps[i].id then None else ProcessAt(ps, q)
  {
    UniqueIndex(ps, Pid, i);
    LookupRemove(ps, Pid, i);
    CountDrop(ps, i);
  }

  lemma BornProcessOk(pr: Process, id: nat)
    requires ProcessOk(pr) && id !in pr.children && |pr.children| < MAX_CHILDREN_PER_PROCESS
    ensures ProcessOk(pr.(children := pr.children + [id]))
  {
  }

  lemma AddChildEffect(ps: seq<Process>, next: nat, p: nat, id: nat)
    requires Sound(ps, next) && ProcessAt(ps, p).Some?
    requires id !in ProcessAt(ps, p).value.children && |ProcessAt(ps, p).value.children| < MAX_CHILDREN_PER_PROCESS
    ensures var ps' := AddChild(ps, p, id);
            && Sound(ps', next) && CountThreads(ps') == CountThreads(ps)
            && |ps'| == |ps| && SameThreads(ps, ps')
            && (forall q {:trigger ProcessAt(ps', q)} :: ProcessAt(ps', q) ==
                  if q == p then Some(ProcessAt(ps, p).value.(children := ProcessAt(ps, p).value.children + [id]))
                  else ProcessAt(ps, q))
  {
    var i := IndexOf(ps, Pid, p).value;
    BornProcessOk(ps[i], id);
    RelinkSound(ps, next, i, ps[i].(children := ps[i].children + [id]));
  }

  lemma SameThreadsTrans(ps: seq<Process>, ps1: seq<Process>, ps2: seq<Process>)
    requires SameThreads(ps, ps1) && SameThreads(ps1, ps2)
    ensures SameThreads(ps, ps2)
  {
  }

  lemma AddProcessSound(ps: seq<Process>, id: nat, parent: Option<nat>)
    requires Sound(ps, id) && Forest(ps) && id > 0
    requires parent.Some? ==> ProcessAt(ps, parent.value).Some?
                              && |ProcessAt(ps, parent.value).value.children| < MAX_CHILDREN_PER_PROCESS
    ensures var ps' := AddProcess(ps, id, parent);
            && Sound(ps', id + 1) && CountThreads(ps') == CountThreads(ps) && |ps'| == |ps| + 1
            && SameThreads(ps, ps') && Born(ps, ps', id, parent)
  {
    hide Sound;
    hide Forest;
    hide ProcessAt;
    hide AddChild;
    var pr := Process(id, parent, Created, [], [], None);
    FreshProcessOk(id, parent);
    AppendSound(ps, pr);
    assert SameThreads(ps, ps + [pr]);
    if parent.Some? {
      NoSuchChild(ps, parent.value, id);
      AddChildEffect(ps + [pr], id + 1, parent.value, id);
      SameThreadsTrans(ps, ps + [pr], AddProcess(ps, id, parent));
    }
  }

  lemma FreshProcessOk(id: nat, parent: Option<nat>)
    ensures ProcessOk(Process(id, parent, Created, [], [], None))
  {
  }

  lemma NoSuchChild(ps: seq<Process>, p: nat, c: nat)
    requires Forest(ps) && ProcessAt(ps, p).Some? && ProcessAt(ps, c).None?
    ensures c !in ProcessAt(ps, p).value.children
  {
  }

  /** The identity the next process would get is not in use. Only a saturated counter can break this. */
  predicate FreshIdentity(tb: Table) {
    ProcessAt(tb.processes, tb.nextProcess).None?
  }

  lemma FreshBelowLast(tb: Table)
    requires TableInv(tb) && tb.nextProcess < U64_MAX
    ensures FreshIdentity(tb)
  {
  }

  lemma FreshSound(tb: Table)
    requires TableInv(tb) && FreshIdentity(tb)
    ensures Sound(tb.processes, tb.nextProcess)
  {
    forall i | 0 <= i < |tb.processes| ensures tb.processes[i].id < tb.nextProcess {
      UniqueIndex(tb.processes, Pid, i);
    }
  }

  /** A new process starts childless and threadless under its parent; nothing else changes. */
  lemma CreateProcessEffect(tb: Table, parent: Option<nat>)
    requires TableInv(tb) && FreshIdentity(tb)
    ensures var (tb', r) := CreateProcess(tb, parent);
            && TableInv(tb')
            && (r.Err? ==> tb' == tb)
            && (r.Ok? ==>
                r.value == tb.nextProcess && tb'.nextProcess == SatInc(r.value)
                && tb'.nextThread == tb.nextThread)
            && (r.Ok? ==> Born(tb.processes, tb'.processes, r.value, parent))
            && (forall x :: ThreadAt(tb'.processes, x) == ThreadAt(tb.processes, x))
  {
    var r := CreateProcess(tb, parent).1;
    if r.Ok? {
      var ps, ps' := tb.processes, CreateProcess(tb, parent).0.processes;
      FreshSound(tb);
      AddProcessSound(ps, tb.nextProcess, parent);
      SameThreadsEffect(ps, ps');
      BornForest(ps, ps', r.value, parent);
    }
  }

  /** Process creation keeps identities unique iff the next one is not in use, which saturation can make it. */
  lemma UniqueIffUnused(tb: Table, parent: Option<nat>)
    requires Unique(tb.processes, Pid) && CreateProcess(tb, parent).1.Ok?
    ensures Unique(CreateProcess(tb, parent).0.processes, Pid) <==> FreshIdentity(tb)
  {
    var id := tb.nextProcess;
    var ps1 := tb.processes + [Process(id, parent, Created, [], [], None)];
    var ps2 := CreateProcess(tb, parent).0.processes;
    assert ps2 == AddProcess(tb.processes, id, parent);
    if parent.Some? { StillThere(tb.processes, ps1[|tb.processes|], parent.value); }
    assert |ps2| == |ps1| && forall i :: 0 <= i < |ps1| ==> Pid(ps2[i]) == Pid(ps1[i]);
    var found := IndexOf(tb.processes, Pid, id);
    if found.Some? {
      assert Pid(ps2[found.value]) == Pid(ps2[|tb.processes|]);
    } else {
      LookupPush(tb.processes, Pid, Process(id, parent, Created, [], [], None));
    }
  }

  /** The last identity is handed out for ever. */
  lemma LastIdentityRepeats()
    ensures var tb := Table(U64_MAX, 1, [], 0);
            var tb1 := CreateProcess(tb, None).0; var tb2 := CreateProcess(tb1, None).0;
            Unique(tb1.processes, Pid) && !Unique(tb2.processes, Pid)
  {
    var tb1 := CreateProcess(Table(U64_MAX, 1, [], 0), None).0;
    assert tb1.processes == [Process(U64_MAX, None, Created, [], [], None)];
    UniqueIffUnused(tb1, None);
    assert Pid(tb1.processes[0]) == U64_MAX;
  }

  // ---------------------------------------------------------------- processes go

  lemma {:induction false} CountDrop(ps: seq<Process>, i: nat)
    requires i < |ps|
    ensures CountThreads(RemoveAt(ps, i)) == CountThreads(ps) - |ps[i].threads|
  {
    if i == 0 {
      assert RemoveAt(ps, 0) == ps[1..];
    } else {
      CountDrop(ps[1..], i - 1);
      assert RemoveAt(ps, i)[1..] == RemoveAt(ps[1..], i - 1);
    }
  }

  lemma RemoveProcessThreads(ps: seq<Process>, i: nat)
    requires Apart(ps) && i < |ps|
    ensures Apart(RemoveAt(ps, i))
    ensures forall x :: ThreadAt(RemoveAt(ps, i), x) == if Holder(ps, x) == Some(i) then None else ThreadAt(ps, x)
  {
    var ps' := RemoveAt(ps, i);
    assert Apart(ps');
    forall x ensures ThreadAt(ps', x) == if Holder(ps, x) == Some(i) then None else ThreadAt(ps, x) {
      var h := Holder(ps, x);
      if h.Some? && h.value != i {
        Located(ps', if h.value < i then h.value else h.value - 1, x);
      } else {
        forall k | 0 <= k < |ps'| ensures IndexOf(ps'[k].threads, Tid, x).None? {
          assert ps'[k] == ps[if k < i then k else k + 1];
        }
        NotLocated(ps', x);
      }
    }
  }

  /** How the removal of the childless process `id` shows in the lookups. */
  ghost predicate Gone(ps: seq<Process>, ps': seq<Process>, id: nat) {
    && ProcessAt(ps, id).Some?
    && (forall q {:trigger ProcessAt(ps', q)} {:trigger ProcessAt(ps, q)} :: ProcessAt(ps', q) ==
          if q == id then None
          else if ProcessAt(ps, id).value.parent == Some(q) && ProcessAt(ps, q).Some? then
            Some(ProcessAt(ps, q).value.(children := Without(ProcessAt(ps, q).value.children, id)))
          else ProcessAt(ps, q))
  }

  lemma GoneForest(ps: seq<Process>, ps': seq<Process>, id: nat)
    requires Forest(ps) && Gone(ps, ps', id) && ProcessAt(ps, id).value.children == []
    ensures Forest(ps')
  {
    hide ProcessAt;
    forall p: nat, c: nat | ProcessAt(ps', p).Some? && c in ProcessAt(ps', p).value.children
      ensures ProcessAt(ps', c).Some? && ProcessAt(ps', c).value.parent == Some(p)
    {
      assert c in ProcessAt(ps, p).value.children;
    }
  }

  lemma OrphanedProcessOk(pr: Process, id: nat)
    requires ProcessOk(pr)
    ensures ProcessOk(pr.(children := Without(pr.children, id)))
  {
    WithoutUnique(pr.children, id);
  }

  lemma DropChildEffect(ps: seq<Process>, next: nat, p: nat, id: nat)
    requires Sound(ps, next)
    ensures var ps' := DropChild(ps, p, id);
            && Sound(ps', next) && CountThreads(ps') == CountThreads(ps)
            && |ps'| == |ps| && SameThreads(ps, ps')
            && (forall q {:trigger ProcessAt(ps', q)} :: ProcessAt(ps', q) ==
                  if q == p && ProcessAt(ps, p).Some? then
                    Some(ProcessAt(ps, p).value.(children := Without(ProcessAt(ps, p).value.children, id)))
                  else ProcessAt(ps, q))
  {
    var i := IndexOf(ps, Pid, p);
    if i.Some? {
      OrphanedProcessOk(ps[i.value], id);
      RelinkSound(ps, next, i.value, ps[i.value].(children := Without(ps[i.value].children, id)));
    }
  }

  lemma DropProcessSound(ps: seq<Process>, next: nat, i: nat)
    requires Sound(ps, next) && i < |ps|
    ensures var ps' := DropProcess(ps, i);
            && Sound(ps', next) && CountThreads(ps') == CountThreads(ps) - |ps[i].threads| && |ps'| == |ps| - 1
            && SameThreads(RemoveAt(ps, i), ps') && Gone(ps, ps', ps[i].id)
  {
    hide Sound, ProcessAt, DropChild, CountThreads;
    DropSound(ps, next, i);
    if ps[i].parent.Some? {
      DropChildEffect(RemoveAt(ps, i), next, ps[i].parent.value, ps[i].id);
    }
  }

  /** Dropping a childless process forgets it and its threads. */
  lemma DropEffect(tb: Table, i: nat)
    requires TableInv(tb) && i < |tb.processes| && tb.processes[i].children == []
    ensures var ps := tb.processes; var pr := ps[i];
            var tb' := tb.(processes := DropProcess(ps, i), threadCount := SatSub(tb.threadCount, |pr.threads|));
            && TableInv(tb') && Gone(ps, tb'.processes, pr.id)
            && (forall x :: ThreadAt(tb'.processes, x) == if Holder(ps, x) == Some(i) then None else ThreadAt(ps, x))
  {
    var ps := tb.processes;
    DropProcessSound(ps, IdentityBound(tb.nextProcess), i);
    UniqueIndex(ps, Pid, i);
    GoneForest(ps, DropProcess(ps, i), ps[i].id);
    RemoveProcessThreads(ps, i);
    SameThreadsEffect(RemoveAt(ps, i), DropProcess(ps, i));
    CountIncludes(ps, i);
  }

  /** Only an exited process without threads and children is reaped; it never panics. */
  lemma ReapEffect(tb: Table, p: nat)
    requires TableInv(tb)
    ensures var r := ReapProcess(tb, p); var pr := ProcessAt(tb.processes, p);
            && r.Returns? && TableInv(r.table)
            && (r.result.Err? ==> r.table == tb)
            && (r.result.Ok? <==>
                pr.Some? && pr.value.state.Exited? && pr.value.threads == []
                && pr.value.children == [])
            && (r.result.Ok? ==> r.result.value == pr.value.exit.value && Gone(tb.processes, r.table.processes, p))
            && (forall x :: ThreadAt(r.table.processes, x) == ThreadAt(tb.processes, x))
            && r.table.nextProcess == tb.nextProcess && r.table.nextThread == tb.nextThread
  {
    var i := IndexOf(tb.processes, Pid, p);
    if i.Some? && tb.processes[i.value].children == [] {
      DropEffect(tb, i.value);
      if tb.processes[i.value].threads == [] {
        forall x ensures Holder(tb.processes, x) != i {
        }
      }
    }
  }

  lemma SameThreadsSelf(ps: seq<Process>)
    ensures SameThreads(ps, ps)
  {
  }

  lemma RelinkThreads(ps: seq<Process>, i: nat, pr: Process)
    requires i < |ps| && pr.id == ps[i].id && pr.threads == ps[i].threads
    ensures SameThreads(ps, ps[i := pr])
  {
  }

  /** Clearing the parents of `children` touches nothing else. */
  lemma {:induction false} ClearParentsEffect(ps: seq<Process>, next: nat, children: seq<nat>)
    requires Sound(ps, next)
    ensures var ps' := ClearParents(ps, children);
            && Sound(ps', next) && CountThreads(ps') == CountThreads(ps) && |ps'| == |ps| && SameThreads(ps, ps')
            && (forall q {:trigger ProcessAt(ps', q)} :: ProcessAt(ps', q) ==
                  if ProcessAt(ps, q).Some? && q in children then Some(ProcessAt(ps, q).value.(parent := None))
                  else ProcessAt(ps, q))
    decreases |children|
  {
    hide CountThreads, SameThreads;
    SameThreadsSelf(ps);
    if children != [] {
      var i := IndexOf(ps, Pid, children[0]);
      if i.Some? {
        var pr := ps[i.value].(parent := None);
        assert SameThreads(ps, ps[i.value := pr]) by { RelinkThreads(ps, i.value, pr); }
        ParentlessOk(ps[i.value]);
        RelinkSound(ps, next, i.value, pr);
        ClearParentsEffect(ps[i.value := pr], next, children[1..]);
        SameThreadsTrans(ps, ps[i.value := pr], ClearParents(ps, children));
      } else {
        ClearParentsEffect(ps, next, children[1..]);
      }
      assert forall q :: q in children <==> q == children[0] || q in children[1..];
    }
  }

  lemma ParentlessOk(pr: Process)
    requires ProcessOk(pr)
    ensures ProcessOk(pr.(parent := None)) && ProcessOk(pr.(children := []))
  {
  }

  lemma OrphanForest(ps: seq<Process>, ps': seq<Process>, p: nat)
    requires Forest(ps) && ProcessAt(ps, p).Some?
    requires forall q {:trigger ProcessAt(ps', q)} :: ProcessAt(ps', q) ==
               if q == p then Some(ProcessAt(ps, p).value.(children := []))
               else if ProcessAt(ps, q).Some? && q in ProcessAt(ps, p).value.children then
                 Some(ProcessAt(ps, q).value.(parent := None))
               else ProcessAt(ps, q)
    ensures Forest(ps')
  {
    hide ProcessAt;
    forall q: nat, c: nat | ProcessAt(ps', q).Some? && c in ProcessAt(ps', q).value.children
      ensures ProcessAt(ps', c).Some? && ProcessAt(ps', c).value.parent == Some(q)
    {
      assert c in ProcessAt(ps, q).value.children;
    }
  }

  /** Orphaning removes both sides of every edge below `p` and nothing else. */
  lemma OrphanEffect(tb: Table, p: nat)
    requires TableInv(tb)
    ensures var (tb', r) := OrphanChildren(tb, p);
            && TableInv(tb') && (r.None? ==> tb' == tb) && (r.Some? <==> ProcessAt(tb.processes, p).Some?)
            && (r.Some? ==> r.value == |ProcessAt(tb.processes, p).value.children|)
            && (forall x :: ThreadAt(tb'.processes, x) == ThreadAt(tb.processes, x))
            && (r.Some? ==>
                  forall q {:trigger ProcessAt(tb'.processes, q)} :: ProcessAt(tb'.processes, q) ==
                    if q == p then Some(ProcessAt(tb.processes, p).value.(children := []))
                    else if ProcessAt(tb.processes, q).Some? && q in ProcessAt(tb.processes, p).value.children then
                      Some(ProcessAt(tb.processes, q).value.(parent := None))
                    else ProcessAt(tb.processes, q))
  {
    hide CountThreads, SameThreads, ThreadAt, ClearParents;
    var ps := tb.processes;
    var i := IndexOf(ps, Pid, p);
    if i.Some? {
      var pr := ps[i.value];
      assert ProcessAt(ps, p) == Some(pr);
      assert SameThreads(ps, ps[i.value := pr.(children := [])]) by { RelinkThreads(ps, i.value, pr.(children := [])); }
      assert p !in pr.children;
      var ps1 := ps[i.value := pr.(children := [])];
      ParentlessOk(pr);
      RelinkSound(ps, IdentityBound(tb.nextProcess), i.value, pr.(children := []));
      ClearParentsEffect(ps1, IdentityBound(tb.nextProcess), pr.children);
      var ps' := ClearParents(ps1, pr.children);
      SameThreadsTrans(ps, ps1, ps');
      SameThreadsEffect(ps, ps');
      OrphanForest(ps, ps', p);
    }
  }
}
