/** Reaping a userspace context (kernel/src/execution_runtime.rs, `reap_userspace_context`): where the code keeps
    its promise, exactly. */
module Reaping {
  import opened Common
  import opened Processes
  import opened ProcessInvariant

  // ---------------------------------------------------------------- reaping a context

  datatype ContextError = Lookup | InvalidContextIdentity | Join(join: JoinError) | Reap(reap: ReapError)

  /** The checks that precede the first change. */
  function CheckContext(tb: Table, p: nat, t: nat): Option<ContextError> {
    match ThreadAt(tb.processes, t)
    case None => Some(Lookup)
    case Some(th) =>
      if th.owner != p then Some(InvalidContextIdentity)
      else if th.detached then Some(Join(Detached))
      else if !th.state.Exited? then Some(Join(NotExited))
      else
        match ProcessAt(tb.processes, p)
        case None => Some(Lookup)
        case Some(pr) => if pr.state.Exited? then None else Some(Reap(StillRunning))
  }

  /** Orphan the children, join the thread, reap the process. */
  function ReapContext(tb: Table, p: nat, t: nat): CallOutcome<ProcessExit, ContextError> {
    var refused := CheckContext(tb, p, t);
    if refused.Some? then Returns(tb, Err(refused.value))
    else
      var orphaned := OrphanChildren(tb, p);
      if orphaned.1.None? then Returns(tb, Err(Lookup))
      else
        match JoinThread(orphaned.0, t)
        case CallPanics => CallPanics
        case Returns(tb1, Err(error)) => Returns(tb1, Err(Join(error)))
        case Returns(tb1, Ok(exit)) =>
          if exit.process != p then Returns(tb1, Err(InvalidContextIdentity))
          else
            match ReapProcess(tb1, p)
            case CallPanics => CallPanics
            case Returns(tb2, Err(error)) => Returns(tb2, Err(Reap(error)))
            case Returns(tb2, Ok(gone)) => Returns(tb2, Ok(gone))
  }

  lemma JoinedProcess(tb: Table, t: nat)
    requires TableInv(tb) && ThreadAt(tb.processes, t).Some? && ThreadAt(tb.processes, t).value.state.Exited?
    ensures var th := ThreadAt(tb.processes, t).value; var r := JoinThread(tb, t);
            && r.Returns? && ProcessAt(tb.processes, th.owner).Some? && ProcessAt(r.table.processes, th.owner).Some?
            && |ProcessAt(r.table.processes, th.owner).value.threads| ==
                |ProcessAt(tb.processes, th.owner).value.threads| - 1
            && ProcessAt(r.table.processes, th.owner).value.children == ProcessAt(tb.processes, th.owner).value.children
  {
    FoundThread(tb, t);
    var h := Holder(tb.processes, t).value;
    var pr := tb.processes[h];
    var j := IndexOf(pr.threads, Tid, t).value;
    LookupSet(tb.processes, Pid, h, pr.(threads := RemoveAt(pr.threads, j)));
  }

  /** A context is reaped iff the checks pass and its thread is the only one of its process. If the process
      holds another exited thread the call is refused after children were orphaned and the thread joined;
      every other refusal changes nothing. */
  lemma ReapContextExactly(tb: Table, p: nat, t: nat)
    requires TableInv(tb)
    ensures var r := ReapContext(tb, p, t); var checked := CheckContext(tb, p, t).None?;
            && r.Returns? && TableInv(r.table)
            && (checked ==> ProcessAt(tb.processes, p).Some? && ProcessAt(tb.processes, p).value.threads != [])
            && (r.result.Ok? <==> checked && |ProcessAt(tb.processes, p).value.threads| == 1)
            && (r.result.Ok? ==> ProcessAt(r.table.processes, p).None? && ThreadAt(r.table.processes, t).None?
                                 && Some(r.result.value) == ProcessAt(tb.processes, p).value.exit)
            && (r.result.Err? && !checked ==> r.table == tb)
            && (r.result.Err? && checked ==>
                  && r.result.error == Reap(HasThreads) && ThreadAt(r.table.processes, t).None?
                  && ProcessAt(r.table.processes, p).Some? && ProcessAt(r.table.processes, p).value.children == []
                  && forall q :: q in ProcessAt(tb.processes, p).value.children && ProcessAt(tb.processes, q).Some? ==>
                       ProcessAt(r.table.processes, q).Some? && ProcessAt(r.table.processes, q).value.parent.None?)
  {
    hide TableInv, OrphanChildren, JoinThread, ReapProcess, ThreadAt, ProcessAt;
    if CheckContext(tb, p, t).None? {
      ContextThread(tb, p, t);
      NotOwnChild(tb, p);
      OrphanEffect(tb, p);
      var tb0 := OrphanChildren(tb, p).0;
      JoinedProcess(tb0, t);
      JoinThreadEffect(tb0, t);
      var tb1 := JoinThread(tb0, t).table;
      ReapEffect(tb1, p);
      if ProcessAt(tb1.processes, p).value.threads != [] { ReapAnswer(tb1, p); }
    }
  }

  lemma ContextThread(tb: Table, p: nat, t: nat)
    requires TableInv(tb) && CheckContext(tb, p, t).None?
    ensures ThreadAt(tb.processes, t).Some? && ThreadAt(tb.processes, t).value.owner == p
    ensures ProcessAt(tb.processes, p).Some? && ProcessAt(tb.processes, p).value.threads != []
    ensures ProcessAt(tb.processes, p).value.exit.Some?
  {
  }

  lemma NotOwnChild(tb: Table, p: nat)
    requires TableInv(tb) && ProcessAt(tb.processes, p).Some?
    ensures p !in ProcessAt(tb.processes, p).value.children
  {
  }

  lemma ReapAnswer(tb: Table, p: nat)
    requires ProcessAt(tb.processes, p).Some? && ProcessAt(tb.processes, p).value.state.Exited?
    requires ProcessAt(tb.processes, p).value.threads != []
    ensures ReapProcess(tb, p) == Returns(tb, Err(HasThreads))
  {
  }

  // ---------------------------------------------------------------- a late refusal

  /** A process whose threads have all exited has exited. */
  lemma AllThreadsGone(tb: Table, p: nat, t: nat)
    requires TableInv(tb) && ThreadAt(tb.processes, t).Some? && ThreadAt(tb.processes, t).value.owner == p
    requires forall x :: ThreadAt(tb.processes, x).Some? ==> ThreadAt(tb.processes, x).value.state.Exited?
    ensures ProcessAt(tb.processes, p).Some? && ProcessAt(tb.processes, p).value.state.Exited?
  {
    FoundThread(tb, t);
    var h := Holder(tb.processes, t).value;
    var pr := tb.processes[h];
    assert ProcessOk(pr);
    forall j | 0 <= j < |pr.threads| ensures pr.threads[j].state.Exited? {
      UniqueIndex(pr.threads, Tid, j);
      Located(tb.processes, h, pr.threads[j].id);
    }
  }

  /** Two threads of one process make at least two of its threads. */
  lemma TwoThreads(tb: Table, p: nat, t: nat, u: nat)
    requires TableInv(tb) && t != u && ThreadAt(tb.processes, t).Some? && ThreadAt(tb.processes, u).Some?
    requires ThreadAt(tb.processes, t).value.owner == p && ThreadAt(tb.processes, u).value.owner == p
    ensures ProcessAt(tb.processes, p).Some? && |ProcessAt(tb.processes, p).value.threads| > 1
  {
    FoundThread(tb, t);
    FoundThread(tb, u);
  }

  /** A thread created while identity `t` is the next and unused one. */
  lemma NextThread(tb: Table, p: nat, name: string, t: nat)
    requires TableInv(tb) && ValidateThreadCreation(tb, p).None? && tb.nextThread == t && t + 1 < U64_MAX
    requires ThreadAt(tb.processes, t).None?
    ensures var tb' := CreateThread(tb, p, name).0;
            && TableInv(tb') && tb'.nextThread == t + 1 && tb'.nextProcess == tb.nextProcess
            && tb'.threadCount == tb.threadCount + 1 && |tb'.processes| == |tb.processes|
            && (forall x :: ThreadAt(tb'.processes, x) ==
                  if x == t then Some(NewThread(p, t, name)) else ThreadAt(tb.processes, x))
            && ProcessAt(tb.processes, p).Some?
            && ProcessAt(tb'.processes, p) == Some(ProcessAt(tb.processes, p).value.(
                 threads := ProcessAt(tb.processes, p).value.threads + [NewThread(p, t, name)],
                     state := ProcessState.Running))
  {
    hide TableInv, ThreadAt;
    CreateThreadEffect(tb, p, name);
    InsertEffect(tb, p, t, name);
  }

  /** A table with the exited process 1 of two exited threads, and its child 2, built by the calls that make it. */
  function TwoExited(): Table {
    var tb1 := CreateProcess(EMPTY_TABLE, None).0;
    var tb2 := CreateThread(CreateThread(tb1, 1, "first").0, 1, "second").0;
    var tb3 := CreateProcess(tb2, Some(1)).0;
    var first := ExitThread(tb3, 1, 0);
    if !first.Exits? then tb3
    else
      var second := ExitThread(first.table, 2, 0);
      if second.Exits? then second.table else first.table
  }

  lemma TwoExitedIs()
    ensures var tb := TwoExited();
            && TableInv(tb) && CheckContext(tb, 1, 1).None?
            && ProcessAt(tb.processes, 1).Some? && |ProcessAt(tb.processes, 1).value.threads| > 1
            && ProcessAt(tb.processes, 1).value.children == [2]
            && ProcessAt(tb.processes, 2) == Some(Process(2, Some(1), Created, [], [], None))
  {
    hide TableInv, ThreadAt, ProcessAt, CreateProcess, CreateThread, ExitThread, NewThread;
    var tb2 := CreateThread(CreateThread(CreateProcess(EMPTY_TABLE, None).0, 1, "first").0, 1, "second").0;
    TwoRunning();
    CreateProcessEffect(tb2, Some(1));
    var tb3 := CreateProcess(tb2, Some(1)).0;
    ExitEffect(tb3, 1, 0);
    var tb4 := ExitThread(tb3, 1, 0).table;
    ExitEffect(tb4, 2, 0);
    var tb := ExitThread(tb4, 2, 0).table;
    AllThreadsGone(tb, 1, 1);
    TwoThreads(tb, 1, 1, 2);
  }

  lemma TwoRunning()
    ensures var tb := CreateThread(CreateThread(CreateProcess(EMPTY_TABLE, None).0, 1, "first").0, 1, "second").0;
            && TableInv(tb) && tb.nextProcess == 2 && |tb.processes| == 1 && FreshIdentity(tb)
            && (forall x :: ThreadAt(tb.processes, x) == if x == 1
                then Some(Thread(1, 1, "first", Runnable, None, false, None))
                                                         else if x == 2 then Some(Thread(2, 1, "second", Runnable,
                                                             None, false, None))
                                                         else None)
            && ProcessAt(tb.processes, 1).Some? && ProcessAt(tb.processes, 1).value.children == []
            && ProcessAt(tb.processes, 1).value.state.Running? && CreateProcess(tb, Some(1)).1.Ok?
  {
    hide TableInv, ThreadAt, CreateThread;
    EmptyTableInv();
    CreateProcessEffect(EMPTY_TABLE, None);
    var tb1 := CreateProcess(EMPTY_TABLE, None).0;
    NextThread(tb1, 1, "first", 1);
    var tb2 := CreateThread(tb1, 1, "first").0;
    NextThread(tb2, 1, "second", 2);
    FreshBelowLast(CreateThread(tb2, 1, "second").0);
  }

  /** Reaping process 1 by its first thread passes every check and is refused, after the child has lost its
      parent and the thread is gone. */
  lemma RefusedTooLate()
    ensures var tb := TwoExited(); var r := ReapContext(tb, 1, 1);
            && TableInv(tb) && r.Returns? && r.result == Err(Reap(HasThreads))
            && ThreadAt(tb.processes, 1).Some? && ThreadAt(r.table.processes, 1).None?
            && ProcessAt(tb.processes, 2).Some? && ProcessAt(tb.processes, 2).value.parent == Some(1)
            && ProcessAt(r.table.processes, 2).Some? && ProcessAt(r.table.processes, 2).value.parent.None?
  {
    hide TableInv, TwoExited, ReapContext, ProcessAt;
    TwoExitedIs();
    ReapContextExactly(TwoExited(), 1, 1);
    assert 2 in ProcessAt(TwoExited().processes, 1).value.children;
  }
}
