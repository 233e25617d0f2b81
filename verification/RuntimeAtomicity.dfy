/** A batch of contexts is admitted as a whole or not at all. */
module RuntimeAtomicity {
  import opened Common
  import R = RoundRobin
  import S = Scheduling
  import SI = SchedulingInvariant
  import P = Processes
  import PI = ProcessInvariant
  import opened Execution
  import opened Coupling
  import opened Runtime

  // ---------------------------------------------------------------- the scheduler with a batch on top

  /** Queues alike in all but their statistics counters. */
  predicate Alike(q: R.Queue, q': R.Queue) {
    q.quantum == q'.quantum && q.ticks == q'.ticks && q.current == q'.current && q.runnable == q'.runnable
  }

  /** A queue with the threads `batch` admitted on top. */
  function Loaded(q: R.Queue, batch: seq<nat>): R.Queue {
    if batch == [] then q
    else if q.current.None? then q.(current := Some(batch[0]), runnable := batch[1..])
    else q.(runnable := q.runnable + batch)
  }

  function BatchAssignments(c: nat, batch: seq<nat>): seq<S.Assignment> {
    seq(|batch|, i requires 0 <= i < |batch| => S.Assignment(batch[i], {c}, c, S.Runnable))
  }

  /** `s` is `s0` with `batch` admitted to CPU `c` on top. */
  ghost predicate SchedStage(s0: S.Smp, s: S.Smp, c: nat, batch: seq<nat>) {
    && c < |s0.queues| && |s.queues| == |s0.queues| && s.online == s0.online
    && (forall d :: 0 <= d < |s.queues| && d != c ==> s.queues[d] == s0.queues[d])
    && Alike(s.queues[c], Loaded(s0.queues[c], batch))
    && s.assignments == s0.assignments + BatchAssignments(c, batch)
  }

  lemma LoadedEnqueue(q0: R.Queue, q: R.Queue, batch: seq<nat>, t: nat)
    requires R.QueueOk(q0) && Alike(q, Loaded(q0, batch)) && R.Enqueue(q, t).1.Ok?
    ensures Alike(R.Enqueue(q, t).0, Loaded(q0, batch + [t]))
    ensures R.Enqueue(q, t).1.value.Some? ==> R.Enqueue(q, t).1.value.value.to == t
  {
  }

  lemma BatchPush(c: nat, batch: seq<nat>, t: nat)
    ensures BatchAssignments(c, batch + [t]) == BatchAssignments(c, batch) + [S.Assignment(t, {c}, c, S.Runnable)]
  {
  }

  /** Admitting one more context to the batch. */
  lemma StageAdmit(s0: S.Smp, s: S.Smp, c: nat, batch: seq<nat>, t: nat)
    requires S.SmpInv(s0) && S.SmpInv(s) && SchedStage(s0, s, c, batch) && S.Admit(s, t, {c}).1.Ok?
    ensures SchedStage(s0, S.Admit(s, t, {c}).0, c, batch + [t])
    ensures var sw := S.Admit(s, t, {c}).1.value.switch; sw.Some? ==> sw.value.to == t
  {
    SI.LeastLoadedIsLeast(s, {c});
    assert S.LeastLoaded(s, {c}) == Ok(c);
    BatchPush(c, batch, t);
    LoadedEnqueue(s0.queues[c], s.queues[c], batch, t);
  }

  /** Taking the oldest thread of the batch out of its queue. */
  lemma LoadedRemove(q0: R.Queue, q: R.Queue, batch: seq<nat>)
    requires R.QueueOk(q0) && R.QueueOk(q) && batch != [] && Alike(q, Loaded(q0, batch))
    ensures var (q', r) := R.Remove(q, batch[0]);
            && r.Ok? && Alike(q', Loaded(q0, batch[1..]))
            && (r.value.Some? ==> |batch| > 1 && r.value.value.to == batch[1])
  {
    if q0.current.Some? {
      hide R.Remove, R.QueueOk;
      R.RemoveWaiting(q, |q0.runnable|);
      assert RemoveAt(q.runnable, |q0.runnable|) == q0.runnable + batch[1..];
    }
  }

  lemma BatchPop(s0: S.Smp, c: nat, batch: seq<nat>)
    requires batch != []
    ensures var as0 := s0.assignments;
            RemoveAt(as0 + BatchAssignments(c, batch), |as0|) == as0 + BatchAssignments(c, batch[1..])
  {
  }

  /** Discharging the oldest thread of the batch. */
  lemma StageDischarge(s0: S.Smp, s: S.Smp, c: nat, batch: seq<nat>)
    requires S.SmpInv(s0) && S.SmpInv(s) && SchedStage(s0, s, c, batch) && batch != []
    ensures S.Shaped(s)
    ensures var (s', r) := S.Discharge(s, batch[0]);
            && r.Ok? && SchedStage(s0, s', c, batch[1..])
            && (r.value.switch.Some? ==> |batch| > 1 && r.value.switch.value.to == batch[1])
  {
    hide S.Filed;
    S.InvShaped(s);
    var i := |s0.assignments|;
    assert s.assignments[i] == S.Assignment(batch[0], {c}, c, S.Runnable);
    UniqueIndex(s.assignments, S.ThreadOf, i);
    BatchPop(s0, c, batch);
    LoadedRemove(s0.queues[c], s.queues[c], batch);
  }

  // ---------------------------------------------------------------- the table with a batch process on top

  /** `tb` is `tb0` with one more, childless and parentless, process `p` at its end, holding threads `ids`. */
  ghost predicate TableStage(tb0: P.Table, tb: P.Table, p: nat, ids: seq<nat>) {
    var n := |tb0.processes|;
    && |tb.processes| == n + 1 && tb.processes[..n] == tb0.processes
    && var pr := tb.processes[n];
    && pr.id == p && pr.parent.None? && pr.children == [] && pr.exit.None? && Tids(pr.threads) == ids
    && tb.threadCount == tb0.threadCount + |ids| && tb.nextThread == tb0.nextThread && tb.nextProcess == SatInc(p)
  }

  lemma StageIndex(tb0: P.Table, tb: P.Table, p: nat, ids: seq<nat>)
    requires PI.TableInv(tb) && TableStage(tb0, tb, p, ids)
    ensures IndexOf(tb.processes, P.Pid, p) == Some(|tb0.processes|)
    ensures P.ProcessAt(tb.processes, p) == Some(tb.processes[|tb0.processes|])
  {
  }

  lemma StageInsert(tb0: P.Table, tb: P.Table, p: nat, ids: seq<nat>, t: nat, name: string)
    requires PI.TableInv(tb) && TableStage(tb0, tb, p, ids)
    ensures P.ProcessAt(tb.processes, p).Some? && TableStage(tb0, P.InsertThread(tb, p, t, name), p, ids + [t])
  {
    StageIndex(tb0, tb, p, ids);
    var n := |tb0.processes|;
    var tb' := P.InsertThread(tb, p, t, name);
    assert tb'.processes[..n] == tb.processes[..n];
    assert Tids(tb'.processes[n].threads) == ids + [t];
  }

  lemma AfterKeepsId(th: P.Thread, call: P.ThreadCall)
    ensures P.After(th, call).Ok? ==> P.After(th, call).value.id == th.id
  {
  }

  /** A lifecycle call on a thread of the batch touches only the batch process. */
  lemma StageCall(tb0: P.Table, tb: P.Table, p: nat, ids: seq<nat>, t: nat, call: P.ThreadCall)
    requires PI.TableInv(tb) && TableStage(tb0, tb, p, ids) && t in ids
    ensures TableStage(tb0, P.CallThread(tb, t, call).0, p, ids)
  {
    hide P.After;
    var n := |tb0.processes|;
    var pr := tb.processes[n];
    var k :| 0 <= k < |ids| && ids[k] == t;
    assert P.Tid(pr.threads[k]) == t;
    assert PI.ProcessOk(pr);
    UniqueIndex(pr.threads, P.Tid, k);
    PI.Located(tb.processes, n, t);
    var tb' := P.CallThread(tb, t, call).0;
    if tb' != tb {
      var th := P.After(pr.threads[k], call).value;
      AfterKeepsId(pr.threads[k], call);
      assert tb'.processes[n].threads == pr.threads[k := th];
      assert Tids(pr.threads[k := th]) == Tids(pr.threads);
      assert tb'.processes[..n] == tb.processes[..n];
    }
  }

  /** Rolling the batch process back restores the table, up to the process identity counter. */
  lemma StageRollback(tb0: P.Table, tb: P.Table, p: nat, ids: seq<nat>)
    requires PI.TableInv(tb) && TableStage(tb0, tb, p, ids)
    ensures P.RollbackProcess(tb, p) == (tb0.(nextProcess := SatInc(p)), Ok(()))
  {
    StageIndex(tb0, tb, p, ids);
    assert RemoveAt(tb.processes, |tb0.processes|) == tb0.processes;
  }

  // ---------------------------------------------------------------- the admission loop

  ghost predicate Staged(e0: Exec, e: Exec, p: nat, c: nat, ids: seq<nat>) {
    TableStage(e0.table, e.table, p, ids) && SchedStage(e0.sched, e.sched, c, ids)
  }

  lemma StagedAdmission(e0: Exec, e: Exec, p: nat, c: nat, ids: seq<nat>, t: nat, name: string)
    requires S.SmpInv(e0.sched) && Coupled(e) && Staged(e0, e, p, c, ids)
    requires CreateThreadWithId(e, p, t, name, {c}).Done? && CreateThreadWithId(e, p, t, name, {c}).result.Ok?
    ensures Staged(e0, CreateThreadWithId(e, p, t, name, {c}).exec, p, c, ids + [t])
  {
    hide PI.TableInv, S.SmpInv, TableStage, SchedStage, P.CallThread, P.ThreadAt, S.Admit, P.InsertThread;
    var tb := P.InsertThread(e.table, p, t, name);
    CreateThreadWithIdSafe(e, p, t, name, {c});
    PI.InsertEffect(e.table, p, t, name);
    StageInsert(e0.table, e.table, p, ids, t, name);
    var (s, r) := S.Admit(e.sched, t, {c});
    StageAdmit(e0.sched, e.sched, c, ids, t);
    if r.value.switch.Some? { StageCall(e0.table, tb, p, ids + [t], t, P.Run); }
  }

  function Identities(c: nat, contexts: seq<Context>): seq<nat> {
    if contexts == [] || KernelThreadId(c, contexts[0].slot).None? then []
    else [KernelThreadId(c, contexts[0].slot).value] + Identities(c, contexts[1..])
  }

  ghost predicate SlotsValid(contexts: seq<Context>) {
    forall i :: 0 <= i < |contexts| ==> contexts[i].slot < 255
  }

  /** The loop admits a prefix of the batch and never panics; it reports success iff it admitted all. */
  lemma {:induction false} AdmitContextsStaged(e0: Exec, e: Exec, p: nat, c: nat, ids: seq<nat>, contexts: seq<Context>)
    requires S.SmpInv(e0.sched) && Coupled(e) && Staged(e0, e, p, c, ids) && SlotsValid(contexts)
    ensures var r := AdmitContexts(e, p, c, contexts);
            && r.Done? && Coupled(r.exec)
            && (exists done :: Staged(e0, r.exec, p, c, ids + done) && done <= Identities(c, contexts)
                               && (r.result.Ok? <==> done == Identities(c, contexts)))
    decreases |contexts|
  {
    hide Coupled, CreateThreadWithId, Staged;
    if contexts == [] {
      assert ids + [] == ids;
    } else {
      var t := KernelThreadId(c, contexts[0].slot).value;
      var name := contexts[0].name;
      CreateThreadWithIdSafe(e, p, t, name, {c});
      var r := CreateThreadWithId(e, p, t, name, {c});
      if r.result.Err? {
        assert ids + [] == ids;
      } else {
        StagedAdmission(e0, e, p, c, ids, t, name);
        AdmitContextsStaged(e0, r.exec, p, c, ids + [t], contexts[1..]);
        var r' := AdmitContexts(r.exec, p, c, contexts[1..]);
        var done :| Staged(e0, r'.exec, p, c, ids + [t] + done) && done <= Identities(c, contexts[1..])
                    && (r'.result.Ok? <==> done == Identities(c, contexts[1..]));
        assert ids + [t] + done == ids + ([t] + done);
        assert [t] + done <= Identities(c, contexts);
      }
    }
  }

  /** Distinct identities, none of them in use. */
  ghost predicate Unused(e: Exec, ids: seq<nat>) {
    Unique(ids, Id) && forall i :: 0 <= i < |ids| ==> ThreadAt(e, ids[i]).None?
  }

  lemma CalmUnused(e: Exec, e': Exec, ids: seq<nat>)
    requires AllCalm(e, e')
    ensures Unused(e, ids) <==> Unused(e', ids)
  {
  }

  /** Whether one identity more is free is decided before the rest, on which its thread then no longer counts. */
  lemma UnusedStep(e: Exec, e': Exec, t: nat, ids: seq<nat>)
    requires OthersCalm(e, e', t) && ThreadAt(e, t).None? && ThreadAt(e', t).Some?
    ensures Unused(e, [t] + ids) <==> Unused(e', ids)
  {
    var all := [t] + ids;
    if Unused(e, all) {
      forall i | 0 <= i < |ids| ensures ThreadAt(e', ids[i]).None? {
        assert all[i + 1] == ids[i] && Id(all[0]) != Id(all[i + 1]);
      }
      forall i, j | 0 <= i < j < |ids| ensures Id(ids[i]) != Id(ids[j]) { assert Id(all[i + 1]) != Id(all[j + 1]); }
    }
    if Unused(e', ids) {
      forall i | 0 <= i < |all| ensures ThreadAt(e, all[i]).None? { if i > 0 { assert all[i] == ids[i - 1]; } }
      forall i, j | 0 <= i < j < |all| ensures Id(all[i]) != Id(all[j]) {
        if i > 0 { assert Id(ids[i - 1]) != Id(ids[j - 1]); } else { assert ThreadAt(e', ids[j - 1]).None?; }
      }
    }
  }

  /** The loop admits all contexts iff there is room for them and their identities are distinct and unused. */
  lemma {:induction false} AdmitsExactly(e0: Exec, e: Exec, p: nat, c: nat, ids: seq<nat>, contexts: seq<Context>)
    requires S.SmpInv(e0.sched) && Coupled(e) && Staged(e0, e, p, c, ids) && SlotsValid(contexts)
             && c in e0.sched.online
    requires |ids| <= P.MAX_THREADS_PER_PROCESS && e.table.threadCount <= P.MAX_THREADS
    requires |e.sched.assignments| <= R.MAX_RUNNABLE_THREADS
    ensures var r := AdmitContexts(e, p, c, contexts); var n := |contexts|;
            && r.Done?
            && (r.result.Ok? <==>
                  && |ids| + n <= P.MAX_THREADS_PER_PROCESS && e.table.threadCount + n <= P.MAX_THREADS
                  && |e.sched.assignments| + n <= R.MAX_RUNNABLE_THREADS && Unused(e, Identities(c, contexts)))
    decreases |contexts|
  {
    hide Coupled, CreateThreadWithId, Staged, Unused, P.ThreadAt, S.SmpInv;
    if contexts == [] {
      assert Unused(e, []) by { NothingUsed(e); }
    } else {
      var t := KernelThreadId(c, contexts[0].slot).value;
      var name := contexts[0].name;
      CreateThreadWithIdSafe(e, p, t, name, {c});
      StageAccepts(e0, e, p, c, ids);
      var r := CreateThreadWithId(e, p, t, name, {c});
      var rest := Identities(c, contexts[1..]);
      if r.result.Err? {
        if ThreadAt(e, t).Some? { FirstUsed(e, t, rest); }
      } else {
        StagedAdmission(e0, e, p, c, ids, t, name);
        StageCounts(e0, e, p, c, ids);
        StageCounts(e0, r.exec, p, c, ids + [t]);
        AdmitsExactly(e0, r.exec, p, c, ids + [t], contexts[1..]);
        UnusedStep(e, r.exec, t, rest);
      }
    }
  }

  lemma NothingUsed(e: Exec)
    ensures Unused(e, [])
  {
  }

  lemma FirstUsed(e: Exec, t: nat, ids: seq<nat>)
    requires ThreadAt(e, t).Some?
    ensures !Unused(e, [t] + ids)
  {
    assert ([t] + ids)[0] == t;
  }

  lemma StageCounts(e0: Exec, e: Exec, p: nat, c: nat, ids: seq<nat>)
    requires Staged(e0, e, p, c, ids)
    ensures e.table.threadCount == e0.table.threadCount + |ids|
    ensures |e.sched.assignments| == |e0.sched.assignments| + |ids|
  {
  }

  /** When the two validations pass for one context more. */
  lemma StageAccepts(e0: Exec, e: Exec, p: nat, c: nat, ids: seq<nat>)
    requires Coupled(e) && Staged(e0, e, p, c, ids) && c in e0.sched.online
    ensures P.ValidateThreadCreation(e.table, p).None? <==>
            e.table.threadCount < P.MAX_THREADS && |ids| < P.MAX_THREADS_PER_PROCESS
    ensures S.ValidateAdmission(e.sched, {c}).None? <==> |e.sched.assignments| < R.MAX_RUNNABLE_THREADS
  {
    StageIndex(e0.table, e.table, p, ids);
    assert PI.ProcessOk(e.table.processes[|e0.table.processes|]);
  }

  // ---------------------------------------------------------------- the rollback loop

  /** Half way through a rollback: `rest` still stands in line, the table still holds all of `ids`. */
  ghost predicate Unwinding(e0: Exec, e: Exec, p: nat, c: nat, ids: seq<nat>, rest: seq<nat>) {
    && PI.TableInv(e.table) && S.SmpInv(e.sched)
    && TableStage(e0.table, e.table, p, ids) && SchedStage(e0.sched, e.sched, c, rest)
    && (forall x :: x in rest ==> x in ids && Linked(ThreadAt(e, x), S.Where(e.sched, x)))
  }

  lemma UnwindOne(e0: Exec, e: Exec, p: nat, c: nat, ids: seq<nat>, rest: seq<nat>)
    requires S.SmpInv(e0.sched) && Unwinding(e0, e, p, c, ids, rest) && rest != []
    ensures S.Shaped(e.sched)
    ensures var (s, r) := S.Discharge(e.sched, rest[0]);
            && r.Ok?
            && var e1 := Activate(e.(sched := s), r.value.switch);
            e1.Some? && Unwinding(e0, e1.value, p, c, ids, rest[1..])
  {
    hide PI.TableInv, S.SmpInv, P.ThreadAt, P.CallThread, SchedStage;
    StageDischarge(e0.sched, e.sched, c, rest);
    SI.DischargeEffect(e.sched, rest[0]);
    var (s, r) := S.Discharge(e.sched, rest[0]);
    var sw := r.value.switch;
    if sw.Some? {
      assert rest[1] in rest;
      StageCall(e0.table, e.table, p, ids, rest[1], P.Run);
    }
    ActivateEffect(e.(sched := s), sw);
    var e1 := Activate(e.(sched := s), sw).value;
    RestDistinct(e0.sched, e.sched, c, rest);
    forall x | x in rest[1..] ensures x in ids && Linked(ThreadAt(e1, x), S.Where(s, x)) {
      assert x in rest;
    }
  }

  lemma RestDistinct(s0: S.Smp, s: S.Smp, c: nat, rest: seq<nat>)
    requires S.SmpInv(s) && SchedStage(s0, s, c, rest) && rest != []
    ensures rest[0] !in rest[1..]
  {
    forall k | 0 < k < |rest| ensures rest[k] != rest[0] {
      var n := |s0.assignments|;
      assert S.ThreadOf(s.assignments[n]) == rest[0] && S.ThreadOf(s.assignments[n + k]) == rest[k];
    }
  }

  lemma {:induction false} UnwindAll(e0: Exec, e: Exec, p: nat, c: nat, ids: seq<nat>, rest: seq<nat>)
    requires S.SmpInv(e0.sched) && Unwinding(e0, e, p, c, ids, rest)
    ensures S.Shaped(e.sched)
    ensures var r := DischargeAll(e, rest);
            r.Done? && r.result.Ok? && Unwinding(e0, r.exec, p, c, ids, [])
    decreases |rest|
  {
    hide Unwinding;
    assert S.SmpInv(e.sched) by { UnwindingInv(e0, e, p, c, ids, rest); }
    S.InvShaped(e.sched);
    if rest != [] {
      UnwindOne(e0, e, p, c, ids, rest);
      var (s, r) := S.Discharge(e.sched, rest[0]);
      UnwindAll(e0, Activate(e.(sched := s), r.value.switch).value, p, c, ids, rest[1..]);
    }
  }

  lemma UnwindingInv(e0: Exec, e: Exec, p: nat, c: nat, ids: seq<nat>, rest: seq<nat>)
    requires Unwinding(e0, e, p, c, ids, rest)
    ensures S.SmpInv(e.sched)
  {
  }

  // ---------------------------------------------------------------- all or nothing

  /** `e` is `e0` again, up to statistics counters, but for an identity counter of `next` and an online mask of
      `online`: the process table, the assignments and every queue's running thread, order and quantum. */
  ghost predicate Restored(e0: Exec, e: Exec, next: nat, online: set<nat>) {
    && e.table == e0.table.(nextProcess := next)
    && e.sched.assignments == e0.sched.assignments && e.sched.online == online
    && |e.sched.queues| == |e0.sched.queues|
    && (forall d :: 0 <= d < |e.sched.queues| ==> Alike(e.sched.queues[d], e0.sched.queues[d]))
  }

  lemma RestoredWhere(e0: Exec, e: Exec, next: nat, online: set<nat>, x: nat)
    requires Restored(e0, e, next, online)
    ensures ThreadAt(e, x) == ThreadAt(e0, x) && S.Where(e.sched, x) == S.Where(e0.sched, x)
  {
  }

  lemma RestoredCoupled(e0: Exec, e: Exec, next: nat, online: set<nat>)
    requires Coupled(e0) && Restored(e0, e, next, online) && S.SmpInv(e.sched)
             && e0.table.nextProcess <= next <= U64_MAX
    ensures Coupled(e)
  {
    assert PI.Named(e.table.processes, PI.IdentityBound(next));
    forall x ensures Linked(ThreadAt(e, x), S.Where(e.sched, x)) {
      RestoredWhere(e0, e, next, online, x);
      assert Linked(ThreadAt(e0, x), S.Where(e0.sched, x));
    }
  }

  lemma CoupledUnwinds(e0: Exec, e: Exec, p: nat, c: nat, ids: seq<nat>)
    requires Coupled(e) && Staged(e0, e, p, c, ids)
    ensures Unwinding(e0, e, p, c, ids, ids)
  {
  }

  /** Rolling back a staged batch restores the state before it. */
  lemma RollbackRestores(e0: Exec, e: Exec, p: nat, c: nat, ids: seq<nat>)
    requires Coupled(e0) && Coupled(e) && Staged(e0, e, p, c, ids) && p == e0.table.nextProcess
    ensures S.Shaped(e.sched)
    ensures var r := RollbackProcess(e, p);
            r.Done? && r.result.Ok? && Restored(e0, r.exec, SatInc(p), e0.sched.online) && Coupled(r.exec)
  {
    hide P.RollbackProcess;
    CoupledShaped(e);
    StageIndex(e0.table, e.table, p, ids);
    CoupledUnwinds(e0, e, p, c, ids);
    UnwindAll(e0, e, p, c, ids, ids);
    var e1 := DischargeAll(e, ids).exec;
    StageRollback(e0.table, e1.table, p, ids);
    assert e1.sched.assignments == e0.sched.assignments;
    RestoredCoupled(e0, RollbackProcess(e, p).exec, SatInc(p), e0.sched.online);
  }

  lemma BatchStarts(e0: Exec, c: nat)
    requires Coupled(e0) && PI.FreshIdentity(e0.table) && c < |e0.sched.queues|
    requires P.CreateProcess(e0.table, None).1.Ok?
    ensures var (tb, made) := P.CreateProcess(e0.table, None); var e := e0.(table := tb);
            Coupled(e) && made.value == e0.table.nextProcess && Staged(e0, e, made.value, c, [])
  {
    CreateProcessSafe(e0, None);
    var tb := P.CreateProcess(e0.table, None).0;
    assert tb.processes[..|e0.table.processes|] == e0.table.processes;
    assert e0.sched.assignments + BatchAssignments(c, []) == e0.sched.assignments;
  }

  /** The call is not refused before its CPU goes online. */
  predicate GoesOnline(m: Machine, c: nat, contexts: seq<Context>) {
    contexts != [] && c < |m.cpuProcesses| && m.cpuProcesses[c].None? && c < |m.exec.sched.queues|
  }

  /** There is room for one more process with threads `ids`, and nothing uses these identities. */
  ghost predicate Admissible(e: Exec, ids: seq<nat>) {
    && |e.table.processes| < P.MAX_PROCESSES && |ids| <= P.MAX_THREADS_PER_PROCESS
    && e.table.threadCount + |ids| <= P.MAX_THREADS && |e.sched.assignments| + |ids| <= R.MAX_RUNNABLE_THREADS
    && Unused(e, ids)
  }

  /** The online mask and the identity counter a refused call leaves behind. */
  function LeftOnline(m: Machine, c: nat, contexts: seq<Context>): set<nat> {
    if GoesOnline(m, c, contexts) then m.exec.sched.online + {c} else m.exec.sched.online
  }

  function LeftCounter(m: Machine, c: nat, contexts: seq<Context>): nat {
    var next := m.exec.table.nextProcess;
    if GoesOnline(m, c, contexts) && |m.exec.table.processes| < P.MAX_PROCESSES then SatInc(next) else next
  }

  /** All-or-nothing admission. Registering a CPU's contexts never panics and its rollback never fails. It
      succeeds exactly when the CPU can go online, there is room, and the contexts' identities are distinct
      and unused; then the new process holds exactly these. Otherwise the state is as before, except exactly
      for the CPU left online and the identity spent. */
  lemma RegisterAllOrNothing(m: Machine, c: nat, contexts: seq<Context>)
    requires Coupled(m.exec) && (GoesOnline(m, c, contexts) ==> !Reuses(m.exec, None)) && SlotsValid(contexts)
    ensures S.Shaped(m.exec.sched)
    ensures var r := RegisterCpuContexts(m, c, contexts);
            && r.Served? && Coupled(r.machine.exec)
            && (r.result.Ok? <==> GoesOnline(m, c, contexts) && Admissible(m.exec, Identities(c, contexts)))
            && (r.result.Err? ==>
                  && !r.result.error.RollbackFailed? && r.machine.cpuProcesses == m.cpuProcesses
                  && Restored(m.exec, r.machine.exec, LeftCounter(m, c, contexts), LeftOnline(m, c, contexts)))
            && (r.result.Ok? ==>
                  && r.machine.cpuProcesses == m.cpuProcesses[c := Some(r.result.value)]
                  && r.machine.exec.sched.online == m.exec.sched.online + {c}
                  && P.ProcessAt(r.machine.exec.table.processes, r.result.value).Some?
                  && Tids(P.ProcessAt(r.machine.exec.table.processes, r.result.value).value.threads) ==
                      Identities(c, contexts))
  {
    hide Coupled, AdmitContexts, RollbackProcess, P.ThreadAt, Staged, P.ProcessAt, S.SmpInv, Unused;
    CoupledShaped(m.exec);
    OnlineCpuSafe(m.exec, c);
    var (s, online) := S.OnlineCpu(m.exec.sched, c);
    if GoesOnline(m, c, contexts) {
      var e0 := m.exec.(sched := s);
      CreateProcessExactly(e0, None);
      var (tb, made) := P.CreateProcess(e0.table, None);
      if made.Ok? {
        BatchStarts(e0, c);
        RegisterLoop(e0, e0.(table := tb), made.value, c, contexts);
        LoopSucceedsIff(e0, e0.(table := tb), made.value, c, contexts);
        CalmUnused(m.exec, e0, Identities(c, contexts));
      }
    }
  }

  lemma {:induction false} IdentitiesLength(c: nat, contexts: seq<Context>)
    requires SlotsValid(contexts)
    ensures |Identities(c, contexts)| == |contexts|
  {
    if contexts != [] { IdentitiesLength(c, contexts[1..]); }
  }

  lemma LoopSucceedsIff(e0: Exec, e: Exec, p: nat, c: nat, contexts: seq<Context>)
    requires Coupled(e0) && Coupled(e) && SlotsValid(contexts) && Staged(e0, e, p, c, []) && c in e0.sched.online
    requires AllCalm(e0, e) && |e0.table.processes| < P.MAX_PROCESSES
    ensures var r := AdmitContexts(e, p, c, contexts);
            r.Done? && (r.result.Ok? <==> Admissible(e0, Identities(c, contexts)))
  {
    hide AdmitContexts, Staged, Unused, AllCalm, PI.TableInv, S.SmpInv, AllLinked, Identities, SlotsValid;
    IdentitiesLength(c, contexts);
    StageCounts(e0, e, p, c, []);
    assert e.table.threadCount <= P.MAX_THREADS by { TableFacts(e.table); }
    assert |e.sched.assignments| <= R.MAX_RUNNABLE_THREADS by { SchedBound(e.sched); }
    AdmitsExactly(e0, e, p, c, [], contexts);
    CalmUnused(e0, e, Identities(c, contexts));
  }

  lemma SchedBound(s: S.Smp)
    requires S.SmpInv(s)
    ensures |s.assignments| <= R.MAX_RUNNABLE_THREADS
  {
  }

  lemma RegisterLoop(e0: Exec, e: Exec, p: nat, c: nat, contexts: seq<Context>)
    requires Coupled(e0) && Coupled(e) && p == e0.table.nextProcess && SlotsValid(contexts)
    requires Staged(e0, e, p, c, [])
    ensures var r := AdmitContexts(e, p, c, contexts);
            && r.Done? && Coupled(r.exec) && S.Shaped(r.exec.sched)
            && (r.result.Ok? ==> P.ProcessAt(r.exec.table.processes, p).Some? && r.exec.sched.online == e0.sched.online
                                 && Tids(P.ProcessAt(r.exec.table.processes, p).value.threads) ==
                                     Identities(c, contexts))
            && (r.result.Err? ==>
                  var b := RollbackProcess(r.exec, p);
                  b.Done? && b.result.Ok? && Restored(e0, b.exec, SatInc(p), e0.sched.online) && Coupled(b.exec))
  {
    hide AdmitContexts, RollbackProcess, Restored, S.SmpInv, PI.TableInv, AllLinked, Identities, P.ProcessAt;
    AdmitContextsStaged(e0, e, p, c, [], contexts);
    var r := AdmitContexts(e, p, c, contexts);
    CoupledShaped(r.exec);
    var done :| Staged(e0, r.exec, p, c, [] + done) && done <= Identities(c, contexts)
                && (r.result.Ok? <==> done == Identities(c, contexts));
    assert [] + done == done;
    StageIndex(e0.table, r.exec.table, p, done);
    RollbackRestores(e0, r.exec, p, c, done);
  }

  /** A refused registration leaves the online mask and the identity counter alone iff it is refused before
      going online, or the CPU was online and no process is created or the counter is saturated. */
  lemma NoTraceIff(m: Machine, c: nat, contexts: seq<Context>)
    requires Coupled(m.exec) && (GoesOnline(m, c, contexts) ==> !Reuses(m.exec, None)) && SlotsValid(contexts)
    ensures S.Shaped(m.exec.sched) && RegisterCpuContexts(m, c, contexts).Served?
    ensures var r := RegisterCpuContexts(m, c, contexts);
            r.result.Err? ==>
              ((r.machine.exec.sched.online == m.exec.sched.online
                && r.machine.exec.table.nextProcess == m.exec.table.nextProcess)
               <==> (!GoesOnline(m, c, contexts)
                     || (c in m.exec.sched.online
                         && (|m.exec.table.processes| >= P.MAX_PROCESSES || m.exec.table.nextProcess == U64_MAX))))
  {
    hide Coupled, RegisterCpuContexts, P.ProcessAt, Admissible;
    assert m.exec.table.nextProcess <= U64_MAX by { CounterBound(m.exec); }
    RegisterAllOrNothing(m, c, contexts);
    if c !in m.exec.sched.online { assert c in m.exec.sched.online + {c}; }
  }

  lemma CounterBound(e: Exec)
    requires Coupled(e)
    ensures e.table.nextProcess <= U64_MAX
  {
  }

  /** A refusal that leaves its traces: the second of two contexts with one slot is refused, and CPU 1 stays
      online and identity 1 stays spent. */
  lemma RefusedButOnline()
    ensures var start := S.WithOnlineMask(2, 1, {0});
            && start.Ok? && S.Shaped(start.value)
            && var m := Machine(Exec(P.EMPTY_TABLE, start.value), [None, None]);
            var r := RegisterCpuContexts(m, 1, [Context(0, "first"), Context(0, "second")]);
            && r.Served? && r.result.Err?
            && m.exec.sched.online == {0} && r.machine.exec.sched.online == {0, 1}
            && m.exec.table.nextProcess == 1 && r.machine.exec.table.nextProcess == 2
  {
    hide RegisterCpuContexts, Coupled;
    var start := S.WithOnlineMask(2, 1, {0});
    SI.NewSmpInv(2, 1, {0});
    var m := Machine(Exec(P.EMPTY_TABLE, start.value), [None, None]);
    var contexts := [Context(0, "first"), Context(0, "second")];
    InitialCoupled(2, 1, {0});
    var ids := Identities(1, contexts);
    assert contexts[1..] == [Context(0, "second")];
    assert Id(ids[0]) == Id(ids[1]);
    RegisterAllOrNothing(m, 1, contexts);
  }

  // ---------------------------------------------------------------- one userspace context

  lemma {:induction false} WithoutPush(s: seq<nat>, x: nat)
    requires x !in s
    ensures Without(s + [x], x) == s
  {
    if s == [] {
      assert (s + [x])[1..] == [];
    } else {
      WithoutPush(s[1..], x);
      assert (s + [x])[1..] == s[1..] + [x];
    }
  }

  lemma DropUndoesAddUnder(ps: seq<P.Process>, pr: P.Process, i: nat)
    requires Unique(ps, P.Pid) && i < |ps| && pr.parent == Some(ps[i].id) && pr.id !in ps[i].children
    requires forall j :: 0 <= j < |ps| ==> P.Pid(ps[j]) != pr.id
    ensures P.ProcessAt(ps + [pr], ps[i].id).Some?
    ensures var ps' := P.AddChild(ps + [pr], ps[i].id, pr.id);
            |ps'| == |ps| + 1 && ps'[|ps|] == pr && P.DropProcess(ps', |ps|) == ps
  {
    var ps1 := ps + [pr];
    assert Unique(ps1, P.Pid);
    assert ps1[i] == ps[i];
    UniqueIndex(ps1, P.Pid, i);
    var now := ps[i].(children := ps[i].children + [pr.id]);
    assert RemoveAt(ps1[i := now], |ps|) == ps[i := now];
    LookupSet(ps, P.Pid, i, now);
    UniqueIndex(ps[i := now], P.Pid, i);
    WithoutPush(ps[i].children, pr.id);
    assert ps[i := now][i := ps[i]] == ps;
  }

  /** Dropping a process just added, under any parent, restores the list of processes exactly. */
  lemma DropUndoesAdd(ps: seq<P.Process>, id: nat, parent: Option<nat>)
    requires PI.Sound(ps, id) && PI.Forest(ps) && id > 0
    requires parent.Some? ==> P.ProcessAt(ps, parent.value).Some?
    ensures var ps' := P.AddProcess(ps, id, parent);
            |ps'| == |ps| + 1 && ps'[|ps|] == P.Process(id, parent, P.Created, [], [], None)
            && P.DropProcess(ps', |ps|) == ps
  {
    hide P.AddChild, P.DropProcess, PI.ProcessOk;
    var pr := P.Process(id, parent, P.Created, [], [], None);
    if parent.None? {
      DropUndoesPush(ps, pr);
    } else {
      PI.FreshProcessOk(id, parent);
      PI.AppendSound(ps, pr);
      PI.NoSuchChild(ps, parent.value, id);
      DropUndoesAddUnder(ps, pr, IndexOf(ps, P.Pid, parent.value).value);
    }
  }

  lemma DropUndoesPush(ps: seq<P.Process>, pr: P.Process)
    requires pr.parent.None?
    ensures P.DropProcess(ps + [pr], |ps|) == ps
  {
  }

  lemma CreateRefused(tb: P.Table, parent: Option<nat>)
    ensures P.CreateProcess(tb, parent).1.Err? ==> P.CreateProcess(tb, parent).0 == tb
  {
  }

  lemma RestoredSelf(e: Exec)
    ensures Restored(e, e, e.table.nextProcess, e.sched.online)
  {
  }

  /** A refused userspace context leaves no trace but the identity counter, whatever its parent. */
  lemma RegisterUserAllOrNothing(m: Machine, parent: Option<nat>, name: string, c: nat)
    requires Coupled(m.exec) && !Reuses(m.exec, parent)
    ensures var r := RegisterUserContext(m, parent, name, c); var next := m.exec.table.nextProcess;
            var created := P.CreateProcess(m.exec.table, parent).1.Ok?;
            && r.Served? && Coupled(r.machine.exec) && r.machine.cpuProcesses == m.cpuProcesses
            && (r.result.Err? ==>
                  && !r.result.error.RollbackFailed?
                  && Restored(m.exec, r.machine.exec, if created then SatInc(next) else next, m.exec.sched.online))
            && (r.result.Ok? <==>
                  && created && c in m.exec.sched.online && m.exec.table.threadCount < P.MAX_THREADS
                  && |m.exec.sched.assignments| < R.MAX_RUNNABLE_THREADS
                  && P.FreeThreadId(m.exec.table.processes, m.exec.table.nextThread).Some?)
            && (r.result.Ok? ==> r.result.value.cpu == c && ThreadAt(m.exec, r.result.value.thread).None?
                                 && Placed(r.machine.exec, S.Placement(r.result.value.thread, c, false))
                                 && Calm(ThreadAt(r.machine.exec, r.result.value.thread))
                                    == Some(P.NewThread(r.result.value.process, r.result.value.thread, name)))
  {
    hide P.ThreadAt, CreateThread, P.CreateProcess, Coupled, Restored, RollbackProcess;
    var e0 := m.exec;
    CreateProcessExactly(e0, parent);
    CreateRefused(e0.table, parent);
    var (tb, made) := P.CreateProcess(e0.table, parent);
    RestoredSelf(e0);
    if made.Ok? {
      var e := e0.(table := tb);
      CreateThreadSafe(e, made.value, name, {c});
      UserAccepted(e0, parent, c);
      CoupledShaped(e);
      if CreateThread(e, made.value, name, {c}).result.Err? {
        RollbackFresh(e0, parent);
      }
    }
  }

  /** When the two validations pass for the first thread of a process just created. */
  lemma UserAccepted(e0: Exec, parent: Option<nat>, c: nat)
    requires Coupled(e0) && PI.FreshIdentity(e0.table) && P.CreateProcess(e0.table, parent).1.Ok?
    ensures var (tb, made) := P.CreateProcess(e0.table, parent);
            && (P.ValidateThreadCreation(tb, made.value).None? <==> e0.table.threadCount < P.MAX_THREADS)
            && (S.ValidateAdmission(e0.sched, {c}).None? <==>
                  c in e0.sched.online && |e0.sched.assignments| < R.MAX_RUNNABLE_THREADS)
            && P.FreeThreadId(tb.processes, tb.nextThread) == P.FreeThreadId(e0.table.processes, e0.table.nextThread)
  {
    hide P.ThreadAt, AllLinked, S.SmpInv, PI.TableInv, P.FreeThreadId, P.AddProcess;
    PI.CreateProcessEffect(e0.table, parent);
    SameSearch(e0.table.processes, P.CreateProcess(e0.table, parent).0.processes, e0.table.nextThread);
  }

  lemma {:induction false} SameSearch(ps: seq<P.Process>, ps': seq<P.Process>, raw: nat)
    requires forall x :: P.ThreadAt(ps', x) == P.ThreadAt(ps, x)
    ensures P.FreeThreadId(ps', raw) == P.FreeThreadId(ps, raw)
    decreases U64_MAX - raw
  {
    hide P.ThreadAt;
    if raw < U64_MAX { SameSearch(ps, ps', raw + 1); }
  }

  lemma TableFacts(tb: P.Table)
    requires PI.TableInv(tb)
    ensures PI.Forest(tb.processes) && Unique(tb.processes, P.Pid)
    ensures 0 < tb.nextProcess <= U64_MAX && tb.threadCount <= P.MAX_THREADS
  {
  }

  lemma RollbackFresh(e0: Exec, parent: Option<nat>)
    requires Coupled(e0) && PI.FreshIdentity(e0.table) && P.CreateProcess(e0.table, parent).1.Ok?
    ensures var (tb, made) := P.CreateProcess(e0.table, parent); var e := e0.(table := tb);
            && S.Shaped(e.sched)
            && var r := RollbackProcess(e, made.value);
            r.Done? && r.result.Ok? && Restored(e0, r.exec, SatInc(e0.table.nextProcess), e0.sched.online)
                && Coupled(r.exec)
  {
    hide P.AddProcess, P.DropProcess, PI.TableInv, S.SmpInv, AllLinked, AllCalm;
    var (tb, made) := P.CreateProcess(e0.table, parent);
    var e := e0.(table := tb);
    CreateProcessSafe(e0, parent);
    CoupledShaped(e);
    PI.FreshSound(e0.table);
    TableFacts(e0.table);
    TableFacts(tb);
    DropUndoesAdd(e0.table.processes, made.value, parent);
    UniqueIndex(tb.processes, P.Pid, |e0.table.processes|);
    RestoredCoupled(e0, RollbackProcess(e, made.value).exec, SatInc(made.value), e0.sched.online);
  }
}
