/** The mutable process table (`ProcessTable` in kernel/src/process_model.rs), proved against the operations on
    values. A method that contains an `expect` returns `None` where it would panic. */
module ProcessTable {
  import opened Common
  import opened Processes
  import P = Processes

  /** How the outcome of a call that may panic shows in the table and in what the method returns. */
  ghost predicate Agrees<T, E>(outcome: CallOutcome<T, E>, tb: Table, r: Option<Result<T, E>>) {
    match outcome
    case CallPanics => r.None?
    case Returns(tb1, result) => tb == tb1 && r == Some(result)
  }

  ghost predicate ExitAgrees(outcome: ExitOutcome, tb: Table, r: Option<Result<Option<ProcessExit>, StateError>>) {
    match outcome
    case ExitPanics => r.None?
    case Refused(tb1, error) => tb == tb1 && r == Some(Err(error))
    case Exits(tb1, exit) => tb == tb1 && r == Some(Ok(exit))
  }

  lemma ClearParentsPush(ps: seq<Process>, children: seq<nat>, c: nat)
    ensures ClearParents(ps, children + [c]) == ClearParents(ClearParents(ps, children), [c])
    decreases |children|
  {
    if children == [] {
      assert children + [c] == [c];
    } else {
      var ps1 := ClearParents(ps, [children[0]]);
      assert [children[0]][1..] == [] && (children + [c])[1..] == children[1..] + [c];
      ClearParentsPush(ps1, children[1..], c);
    }
  }

  class ProcessTable {
    var nextProcess: nat
    var nextThread: nat
    var processes: seq<Process>
    var threadCount: nat

    function State(): Table
      reads this
    {
      Table(nextProcess, nextThread, processes, threadCount)
    }

    constructor ()
      ensures State() == EMPTY_TABLE
    {
      nextProcess, nextThread, processes, threadCount := 1, 1, [], 0;
    }

    method CreateProcess(parent: Option<nat>) returns (r: Result<nat, CreateError>)
      modifies this
      ensures (State(), r) == P.CreateProcess(old(State()), parent)
    {
      if |processes| >= MAX_PROCESSES { return Err(ProcessLimitReached); }
      if parent.Some? {
        var found := ProcessAt(processes, parent.value);
        if found.None? { return Err(InvalidProcess); }
        if found.value.state.Exited? { return Err(ProcessExited); }
        if |found.value.children| >= MAX_CHILDREN_PER_PROCESS { return Err(ChildLimitReached); }
      }
      var id := nextProcess;
      nextProcess := SatInc(nextProcess);
      var pr := Process(id, parent, Created, [], [], None);
      if parent.Some? { StillThere(processes, pr, parent.value); }
      processes := processes + [pr];
      if parent.Some? { processes := AddChild(processes, parent.value, id); }
      r := Ok(id);
    }

    method CreateThread(p: nat, name: string) returns (r: Result<nat, CreateError>)
      modifies this
      ensures (State(), r) == P.CreateThread(old(State()), p, name)
    {
      var bad := ValidateThreadCreation(State(), p);
      if bad.Some? { return Err(bad.value); }
      var id := AllocateThreadId();
      if id.None? { return Err(ThreadLimitReached); }
      var ok := Insert(p, id.value, name);
      assert ok;
      r := Ok(id.value);
    }

    method CreateThreadWithId(p: nat, t: nat, name: string) returns (r: Result<nat, CreateError>)
      modifies this
      ensures (State(), r) == P.CreateThreadWithId(old(State()), p, t, name)
    {
      var bad := ValidateThreadCreation(State(), p);
      if bad.Some? { return Err(bad.value); }
      if ThreadAt(processes, t).Some? { return Err(DuplicateThread); }
      var ok := Insert(p, t, name);
      assert ok;
      r := Ok(t);
    }

    /** The search for an unused identity; it moves the counter past the one it finds. */
    method AllocateThreadId() returns (id: Option<nat>)
      modifies this`nextThread
      ensures id == FreeThreadId(processes, old(nextThread))
      ensures nextThread == if id.Some? then id.value + 1 else old(nextThread)
    {
      hide ThreadAt;
      var raw := nextThread;
      while raw < U64_MAX
        invariant FreeThreadId(processes, nextThread) == FreeThreadId(processes, raw)
      {
        if ThreadAt(processes, raw).None? {
          nextThread := raw + 1;
          return Some(raw);
        }
        raw := raw + 1;
      }
      id := None;
    }

    /** The insertion both kinds of creation share; it reports the failed `expect` of an unknown process. */
    method Insert(p: nat, t: nat, name: string) returns (ok: bool)
      modifies this`processes, this`threadCount
      ensures ok <==> old(ProcessAt(processes, p)).Some?
      ensures State() == if ok then InsertThread(old(State()), p, t, name) else old(State())
    {
      var i := IndexOf(processes, Pid, p);
      if i.None? { return false; }
      var pr := processes[i.value];
      processes := processes[i.value := pr.(threads := pr.threads + [NewThread(p, t, name)],
          state := ProcessState.Running)];
      threadCount := threadCount + 1;
      ok := true;
    }

    method RollbackThread(t: nat) returns (r: Result<(), StateError>)
      modifies this
      ensures (State(), r) == P.RollbackThread(old(State()), t)
    {
      var found := ThreadAt(processes, t);
      if found.None? { return Err(InvalidThread); }
      var th := found.value;
      if !th.state.Runnable? || th.detached || th.exit.Some? { return Err(InvalidTransition); }
      var i := IndexOf(processes, Pid, th.owner);
      if i.None? { return Err(InvalidThread); }
      var pr := processes[i.value];
      var j := IndexOf(pr.threads, Tid, t);
      if j.None? { return Err(InvalidThread); }
      var threads := RemoveAt(pr.threads, j.value);
      threadCount := SatSub(threadCount, 1);
      processes := processes[i.value := pr.(threads := threads, state := if threads == [] then Created else pr.state)];
      r := Ok(());
    }

    method RollbackProcess(p: nat) returns (r: Result<(), StateError>)
      modifies this
      ensures (State(), r) == P.RollbackProcess(old(State()), p)
    {
      var found := IndexOf(processes, Pid, p);
      if found.None? { return Err(InvalidThread); }
      var pr := processes[found.value];
      if pr.exit.Some? || pr.children != [] { return Err(InvalidTransition); }
      Drop(found.value);
      threadCount := SatSub(threadCount, |pr.threads|);
      r := Ok(());
    }

    method Drop(i: nat)
      requires i < |processes|
      modifies this`processes
      ensures processes == DropProcess(old(processes), i)
    {
      var pr := processes[i];
      processes := RemoveAt(processes, i);
      if pr.parent.Some? { processes := DropChild(processes, pr.parent.value, pr.id); }
    }

    /** One lifecycle call on one thread: run, yield, block, sleep, wake, stop or continue. */
    method Call(t: nat, call: ThreadCall) returns (r: Result<(), StateError>)
      modifies this`processes
      ensures (State(), r) == CallThread(old(State()), t, call)
    {
      var found := ThreadAt(processes, t);
      if found.None? { return Err(InvalidThread); }
      var after := After(found.value, call);
      if after.Err? { return Err(after.error); }
      processes := SetThread(processes, t, after.value);
      r := Ok(());
    }

    method ExitThread(t: nat, status: nat) returns (r: Option<Result<Option<ProcessExit>, StateError>>)
      modifies this
      ensures ExitAgrees(P.ExitThread(old(State()), t, status), State(), r)
    {
      var found := ThreadAt(processes, t);
      if found.None? { return Some(Err(InvalidThread)); }
      var th := found.value;
      if th.state.Exited? { return Some(Err(InvalidTransition)); }
      var th' := th.(state := ThreadState.Exited, resume := None, exit := Some(ThreadExit(t, th.owner, status)));
      processes := SetThread(processes, t, th');
      var owner := IndexOf(processes, Pid, th.owner);
      if owner.None? { return Some(Err(InvalidThread)); }
      var i := owner.value;
      var exit: Option<ProcessExit> := None;
      if AllExited(processes[i].threads) {
        exit := Some(ProcessExit(th.owner, status));
        processes := processes[i := processes[i].(state := ProcessState.Exited, exit := exit)];
      }
      if th.detached {
        var reclaimed := ReclaimThread(th.owner, t);
        if !reclaimed { return None; }
      }
      r := Some(Ok(exit));
    }

    method ReclaimThread(p: nat, t: nat) returns (reclaimed: bool)
      modifies this
      ensures var after := Reclaim(old(State()), p, t);
              reclaimed == after.Some? && State() == if reclaimed then after.value else old(State())
    {
      var i := IndexOf(processes, Pid, p);
      if i.None? { return false; }
      var pr := processes[i.value];
      var j := IndexOf(pr.threads, Tid, t);
      if j.None? { return false; }
      if !pr.threads[j.value].state.Exited? { return false; }
      processes := processes[i.value := pr.(threads := RemoveAt(pr.threads, j.value))];
      threadCount := SatSub(threadCount, 1);
      reclaimed := true;
    }

    method DetachThread(t: nat) returns (r: Option<Result<(), StateError>>)
      modifies this
      ensures Agrees(P.DetachThread(old(State()), t), State(), r)
    {
      var found := ThreadAt(processes, t);
      if found.None? { return Some(Err(InvalidThread)); }
      var th := found.value;
      if th.detached { return Some(Err(InvalidTransition)); }
      processes := SetThread(processes, t, th.(detached := true));
      if th.state.Exited? {
        var reclaimed := ReclaimThread(th.owner, t);
        if !reclaimed { return None; }
      }
      r := Some(Ok(()));
    }

    method JoinThread(t: nat) returns (r: Option<Result<ThreadExit, JoinError>>)
      modifies this
      ensures Agrees(P.JoinThread(old(State()), t), State(), r)
    {
      var found := ThreadAt(processes, t);
      if found.None? { return Some(Err(NoSuchThread)); }
      var th := found.value;
      if th.detached { return Some(Err(Detached)); }
      if th.exit.None? { return Some(Err(NotExited)); }
      var reclaimed := ReclaimThread(th.owner, t);
      if !reclaimed { return None; }
      r := Some(Ok(th.exit.value));
    }

    /** Takes the children of process `p` and clears the parent of each one that still exists. */
    method OrphanChildren(p: nat) returns (orphans: Option<nat>)
      modifies this`processes
      ensures (State(), orphans) == P.OrphanChildren(old(State()), p)
    {
      var found := IndexOf(processes, Pid, p);
      if found.None? { return None; }
      var children := processes[found.value].children;
      processes := processes[found.value := processes[found.value].(children := [])];
      ghost var ps := processes;
      var k := 0;
      while k < |children|
        invariant 0 <= k <= |children| && processes == ClearParents(ps, children[..k])
      {
        ClearParentsPush(ps, children[..k], children[k]);
        assert children[..k + 1] == children[..k] + [children[k]] && [children[k]][1..] == [];
        var child := IndexOf(processes, Pid, children[k]);
        if child.Some? { processes := processes[child.value := processes[child.value].(parent := None)]; }
        k := k + 1;
      }
      assert children[..k] == children;
      orphans := Some(|children|);
    }

    method ReapProcess(p: nat) returns (r: Option<Result<ProcessExit, ReapError>>)
      modifies this
      ensures Agrees(P.ReapProcess(old(State()), p), State(), r)
    {
      var found := IndexOf(processes, Pid, p);
      if found.None? { return Some(Err(NoSuchProcess)); }
      var pr := processes[found.value];
      if !pr.state.Exited? { return Some(Err(StillRunning)); }
      if pr.threads != [] { return Some(Err(HasThreads)); }
      if pr.children != [] { return Some(Err(HasChildren)); }
      if pr.exit.None? { return None; }
      Drop(found.value);
      r := Some(Ok(pr.exit.value));
    }
  }
}
