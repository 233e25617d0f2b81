/** What each scheduler operation does to the place of every thread, and that the
    scheduler invariant survives. */
module SchedulingInvariant {
  import opened Common
  import opened RoundRobin
  import opened Scheduling

  predicate Standing(p: Place) {
    p.Queued? || p.OnCpu?
  }

  /** A thread with no place in any line fits at the end of any CPU's line. */
  lemma RoomFor(s: Smp, t: nat, c: nat, assignments: seq<Assignment>)
    requires SmpInv(s) && c < |s.queues| && !Standing(Where(s, t))
    requires |assignments| <= MAX_RUNNABLE_THREADS
    requires Lookup(assignments, ThreadOf, t).Some?
    requires forall x :: Assigned(s, x).Some? ==> Lookup(assignments, ThreadOf, x).Some?
    ensures t !in Line(s.queues[c])
    ensures |Line(s.queues[c])| < MAX_RUNNABLE_THREADS
    ensures |s.queues[c].runnable| < MAX_RUNNABLE_THREADS
  {
    var line := Line(s.queues[c]);
    assert t !in line;
    forall x | x in line + [t] ensures Lookup(assignments, ThreadOf, x).Some? {
      if x != t { assert x in Line(s.queues[c]); }
    }
    assert Unique(line + [t], Id) by {
      assert forall i :: 0 <= i < |line| ==> line[i] != t;
    }
    Pigeonhole(line + [t], assignments, ThreadOf);
  }

  /** `assignments` gives `t` the assignment `a`, and everyone else what they had. */
  ghost predicate Engaged(s: Smp, t: nat, a: Assignment, assignments: seq<Assignment>) {
    && a.thread == t && a.state.Runnable? && AssignmentOk(s, a)
    && Unique(assignments, ThreadOf) && |assignments| <= MAX_RUNNABLE_THREADS
    && (forall x :: Lookup(assignments, ThreadOf, x) == if x == t then Some(a) else Assigned(s, x))
  }

  /** The scheduler once `t` has joined CPU `c`'s line. */
  function Joined(s: Smp, t: nat, c: nat, assignments: seq<Assignment>): Smp
    requires c < |s.queues|
  {
    s.(queues := s.queues[c := Enqueue(s.queues[c], t).0], assignments := assignments)
  }

  lemma JoinKeepsInv(s: Smp, t: nat, a: Assignment, assignments: seq<Assignment>)
    requires SmpInv(s) && !Standing(Where(s, t)) && Engaged(s, t, a, assignments)
    ensures QueueCanAccept(s, a.cpu) == Ok(true)
    ensures Enqueue(s.queues[a.cpu], t).1 == Ok(if s.queues[a.cpu].current.None? then Some(Switch(None, t)) else None)
    ensures SmpInv(Joined(s, t, a.cpu, assignments))
  {
    var c := a.cpu;
    RoomFor(s, t, c, assignments);
    EnqueueLine(s.queues[c], t);
    var s' := Joined(s, t, c, assignments);
    forall x ensures Assigned(s', x) == if x == t then Some(a) else Assigned(s, x) {
    }
    forall d, x | 0 <= d < |s'.queues|
      ensures x in Line(s'.queues[d]) <==> StandsOn(Assigned(s', x), d)
    {
      assert x in Line(s.queues[d]) <==> StandsOn(Assigned(s, x), d);
    }
    assert Filed(s');
  }

  lemma JoinPlaces(s: Smp, t: nat, a: Assignment, assignments: seq<Assignment>)
    requires SmpInv(s) && !Standing(Where(s, t)) && Engaged(s, t, a, assignments)
    ensures forall x :: Where(Joined(s, t, a.cpu, assignments), x) ==
                        if x == t then (if s.queues[a.cpu].current.None? then OnCpu(a.cpu) else Queued(a.cpu))
                        else Where(s, x)
  {
    var c := a.cpu;
    RoomFor(s, t, c, assignments);
    EnqueueLine(s.queues[c], t);
    var s' := Joined(s, t, c, assignments);
    forall x
      ensures Where(s', x) == if x == t then (if s.queues[c].current.None? then OnCpu(c) else Queued(c))
              else Where(s, x)
    {
      assert Assigned(s', x) == if x == t then Some(a) else Assigned(s, x);
      assert x in Line(s.queues[c]) <==> StandsOn(Assigned(s, x), c);
    }
  }

  lemma InLine(line: seq<nat>, x: nat)
    requires Unique(line, Id)
    ensures x in line <==> Lookup(line, Id, x).Some?
  {
  }

  /** Who is in the line, and who runs, once `t` has left. */
  lemma LineWithout(q: Queue, t: nat)
    requires QueueOk(q) && t in Line(q)
    ensures var (q', r) := Remove(q, t);
            && QueueOk(q') && r.Ok?
            && (forall x :: x in Line(q') <==> x in Line(q) && x != t)
            && (r.value.Some? ==> var u := r.value.value.to; q.current == Some(t) && u in Line(q) && u != t)
            && q'.current == (if q.current != Some(t) then q.current
                              else if r.value.Some? then Some(r.value.value.to) else None)
  {
    RemoveLine(q, t);
    var (q', r) := Remove(q, t);
    var line, line' := Line(q), Line(q');
    LookupRemove(line, Id, IndexOf(line, Id, t).value);
    forall x ensures x in line' <==> x in line && x != t {
      InLine(line, x); InLine(line', x);
    }
    LineView(q);
    LineView(q');
    if r.value.Some? {
      assert Id(line[0]) != Id(line[1]);
    }
  }

  lemma LeaveFiled(s: Smp, t: nat, c: nat, q: Queue, assignments: seq<Assignment>)
    requires SmpInv(s) && c < |s.queues| && t in Line(s.queues[c])
    requires forall x :: x in Line(q) <==> x in Line(s.queues[c]) && x != t
    requires forall x :: x != t ==> Lookup(assignments, ThreadOf, x) == Assigned(s, x)
    requires forall d :: !StandsOn(Lookup(assignments, ThreadOf, t), d)
    ensures Filed(s.(queues := s.queues[c := q], assignments := assignments))
  {
  }

  /** The scheduler once `t` has left its line and `assignments` no longer lets it stand anywhere. */
  function Without(s: Smp, t: nat, c: nat, assignments: seq<Assignment>): Smp
    requires c < |s.queues|
  {
    s.(queues := s.queues[c := Remove(s.queues[c], t).0], assignments := assignments)
  }

  ghost predicate Dismissed(s: Smp, t: nat, c: nat, assignments: seq<Assignment>) {
    && Assigned(s, t).Some? && StandsOn(Assigned(s, t), c)
    && Unique(assignments, ThreadOf) && |assignments| <= MAX_RUNNABLE_THREADS
    && (forall x :: x != t ==> Lookup(assignments, ThreadOf, x) == Assigned(s, x))
    && var a := Lookup(assignments, ThreadOf, t); a.Some? ==> a.value.state.Blocked? && AssignmentOk(s, a.value)
  }

  lemma LeaveKeepsInv(s: Smp, t: nat, c: nat, assignments: seq<Assignment>)
    requires SmpInv(s) && c < |s.queues| && Dismissed(s, t, c, assignments)
    ensures SmpInv(Without(s, t, c, assignments))
    ensures Remove(s.queues[c], t).1.Ok?
  {
    assert t in Line(s.queues[c]);
    LineWithout(s.queues[c], t);
    LeaveFiled(s, t, c, Remove(s.queues[c], t).0, assignments);
    var s' := Without(s, t, c, assignments);
    forall x ensures Assigned(s', x) == Lookup(assignments, ThreadOf, x) {
    }
  }

  lemma LeavePlace(s: Smp, t: nat, c: nat, assignments: seq<Assignment>, q: Queue, next: Option<nat>, x: nat)
    requires SmpInv(s) && c < |s.queues| && x != t
    requires Lookup(assignments, ThreadOf, x) == Assigned(s, x)
    requires next.Some? ==> next.value in Line(s.queues[c])
    requires q.current == if s.queues[c].current != Some(t) then s.queues[c].current else next
    ensures Where(s.(queues := s.queues[c := q], assignments := assignments), x)
            == if s.queues[c].current == Some(t) && next == Some(x) then OnCpu(c) else Where(s, x)
  {
  }

  /** Only the thread promoted to the freed CPU changes place. */
  lemma LeavePlaces(s: Smp, t: nat, c: nat, assignments: seq<Assignment>)
    requires SmpInv(s) && c < |s.queues| && Dismissed(s, t, c, assignments)
    requires Remove(s.queues[c], t).1.Ok?
    ensures var sw := Remove(s.queues[c], t).1.value;
            && (sw.Some? ==> Where(s, t) == OnCpu(c) && sw.value.to != t && Where(s, sw.value.to) == Queued(c))
            && (forall x | x != t :: Where(Without(s, t, c, assignments), x)
                                     == if sw.Some? && x == sw.value.to then OnCpu(c) else Where(s, x))
  {
    assert t in Line(s.queues[c]);
    LineWithout(s.queues[c], t);
    var (q, r) := Remove(s.queues[c], t);
    var next := if r.value.Some? then Some(r.value.value.to) else None;
    forall x | x != t
      ensures Where(Without(s, t, c, assignments), x) == if next == Some(x) then OnCpu(c) else Where(s, x)
    {
      LeavePlace(s, t, c, assignments, q, next, x);
    }
    if r.value.Some? {
      assert next.value in Line(s.queues[c]) <==> StandsOn(Assigned(s, next.value), c);
    }
  }

  // ---------------------------------------------------------------- choosing a CPU

  /** The allowed CPU of least load, the lowest number winning ties. */
  ghost predicate IsLeast(s: Smp, affinity: set<nat>, bound: nat, c: nat)
    requires bound <= |s.queues|
  {
    && c in affinity && c < bound
    && forall d :: d in affinity && d < bound ==>
         Load(s.queues[c]) <= Load(s.queues[d]) && (d < c ==> Load(s.queues[c]) < Load(s.queues[d]))
  }

  lemma {:induction false} LeastLoadedScan(s: Smp, affinity: set<nat>, raw: nat, best: Option<nat>)
    requires affinity != {} && affinity <= s.online && raw <= |s.queues|
    requires forall c :: c in affinity ==> c < |s.queues|
    requires best.Some? ==> IsLeast(s, affinity, raw, best.value)
    requires best.None? ==> forall c :: c in affinity ==> c >= raw
    ensures LeastLoadedFrom(s, affinity, raw, best).Ok?
    ensures IsLeast(s, affinity, |s.queues|, LeastLoadedFrom(s, affinity, raw, best).value)
    decreases |s.queues| - raw
  {
    if raw == |s.queues| {
      assert best.None? ==> affinity == {};
    } else if raw !in affinity {
      LeastLoadedScan(s, affinity, raw + 1, best);
    } else {
      var better := best.None? || Load(s.queues[raw]) < Load(s.queues[best.value]);
      LeastLoadedScan(s, affinity, raw + 1, if better then Some(raw) else best);
    }
  }

  /** `least_loaded_cpu` on a valid mask always finds the least loaded allowed CPU. */
  lemma LeastLoadedIsLeast(s: Smp, affinity: set<nat>)
    requires Topology(s) && affinity != {} && affinity <= s.online
    ensures LeastLoaded(s, affinity).Ok?
    ensures IsLeast(s, affinity, |s.queues|, LeastLoaded(s, affinity).value)
  {
    LeastLoadedScan(s, affinity, 0, None);
  }

  // ---------------------------------------------------------------- each operation

  /** Admission fails exactly on a bad mask, a known thread or a full table, and then changes
      nothing; otherwise the thread joins the line of the least loaded allowed CPU. */
  lemma AdmitEffect(s: Smp, t: nat, affinity: set<nat>)
    requires SmpInv(s)
    ensures var (s', r) := Admit(s, t, affinity);
            && SmpInv(s')
            && (r.Err? ==> s' == s)
            && (r.Err? <==> ValidateAdmission(s, affinity).Some? || Assigned(s, t).Some?)
            && (r.Ok? ==> var c := r.value.placement.cpu;
                  && c < |s.queues| && IsLeast(s, affinity, |s.queues|, c)
                  && r.value == Admission(Placement(t, c, false), if s.queues[c].current.None?
                      then Some(Switch(None, t)) else None)
                  && Where(s, t) == Absent
                  && (forall x :: Where(s', x) ==
                        if x == t then (if s.queues[c].current.None? then OnCpu(c) else Queued(c)) else Where(s, x)))
  {
    if ValidateAdmission(s, affinity).None? && Assigned(s, t).None? {
      LeastLoadedIsLeast(s, affinity);
      var c := LeastLoaded(s, affinity).value;
      var a := Assignment(t, affinity, c, Runnable);
      LookupPush(s.assignments, ThreadOf, a);
      JoinKeepsInv(s, t, a, s.assignments + [a]);
      JoinPlaces(s, t, a, s.assignments + [a]);
    }
  }

  /** Blocking takes a standing thread out of its line and parks it; `QueueStateMismatch`
      cannot occur. */
  lemma BlockEffect(s: Smp, t: nat)
    requires SmpInv(s)
    ensures Shaped(s)
    ensures var (s', r) := Block(s, t);
            && SmpInv(s')
            && (r.Err? ==> s' == s && (r.error.UnknownThread? || r.error.NotRunnable?))
            && (r.Ok? <==> Standing(Where(s, t)))
            && (r.Ok? ==> var c := Where(s, t).cpu; var sw := r.value.switch;
                  && r.value.thread == t && r.value.cpu == c
                  && (sw.Some? ==> Where(s, t) == OnCpu(c) && sw.value.to != t && Where(s, sw.value.to) == Queued(c))
                  && (forall x :: Where(s', x) == if x == t then Parked(c)
                                                 else if sw.Some? && x == sw.value.to then OnCpu(c) else Where(s, x)))
  {
    InvShaped(s);
    if Standing(Where(s, t)) {
      var i := IndexOf(s.assignments, ThreadOf, t).value;
      var a := s.assignments[i];
      var assignments := s.assignments[i := a.(state := Blocked)];
      LookupSet(s.assignments, ThreadOf, i, a.(state := Blocked));
      LeaveKeepsInv(s, t, a.cpu, assignments);
      LeavePlaces(s, t, a.cpu, assignments);
      assert Assigned(Without(s, t, a.cpu, assignments), t) == Some(a.(state := Blocked));
    }
  }

  lemma InvAssignments(s: Smp)
    requires SmpInv(s)
    ensures Unique(s.assignments, ThreadOf) && |s.assignments| <= MAX_RUNNABLE_THREADS
  {
  }

  /** Removal takes any known thread away from its line and from the table. */
  lemma DischargeEffect(s: Smp, t: nat)
    requires SmpInv(s)
    ensures Shaped(s)
    ensures var (s', r) := Discharge(s, t);
            && SmpInv(s')
            && (r.Err? ==> s' == s && (r.error.UnknownThread?))
            && (r.Ok? <==> Where(s, t) != Absent)
            && (r.Ok? ==> var c := Where(s, t).cpu; var sw := r.value.switch;
                  && r.value.thread == t && r.value.cpu == c
                  && (sw.Some? ==> Where(s, t) == OnCpu(c) && sw.value.to != t && Where(s, sw.value.to) == Queued(c))
                  && (forall x :: Where(s', x) == if x == t then Absent
                                                 else if sw.Some? && x == sw.value.to then OnCpu(c) else Where(s, x)))
  {
    hide SmpInv, Remove;
    InvShaped(s);
    InvAssignments(s);
    if Where(s, t) != Absent {
      var i := IndexOf(s.assignments, ThreadOf, t).value;
      var a := s.assignments[i];
      assert Assigned(s, t) == Some(a);
      var assignments := RemoveAt(s.assignments, i);
      LookupRemove(s.assignments, ThreadOf, i);
      if a.state.Runnable? {
        LeaveKeepsInv(s, t, a.cpu, assignments);
        LeavePlaces(s, t, a.cpu, assignments);
        assert Assigned(Without(s, t, a.cpu, assignments), t) == None;
      } else {
        ForgetParked(s, t, assignments);
        assert s.queues[a.cpu := s.queues[a.cpu]] == s.queues;
      }
    }
  }

  lemma ForgetParked(s: Smp, t: nat, assignments: seq<Assignment>)
    requires SmpInv(s) && Where(s, t).Parked?
    requires Unique(assignments, ThreadOf) && |assignments| <= MAX_RUNNABLE_THREADS
    requires forall x :: Lookup(assignments, ThreadOf, x) == if x == t then None else Assigned(s, x)
    ensures var s' := s.(assignments := assignments);
            SmpInv(s') && forall x :: Where(s', x) == if x == t then Absent else Where(s, x)
  {
    var s' := s.(assignments := assignments);
    forall x ensures Assigned(s', x) == if x == t then None else Assigned(s, x) {
    }
    forall d, x | 0 <= d < |s'.queues|
      ensures x in Line(s'.queues[d]) <==> StandsOn(Assigned(s', x), d)
    {
      assert x in Line(s.queues[d]) <==> StandsOn(Assigned(s, x), d);
    }
  }

  /** Waking lets a parked thread stand again, on its previous CPU or on the least loaded allowed
      one if that is shorter by at least two. Neither `Capacity` nor `QueueStateMismatch` can occur. */
  lemma WakeEffect(s: Smp, t: nat)
    requires SmpInv(s)
    ensures Shaped(s)
    ensures var (s', r) := Wake(s, t);
            && SmpInv(s')
            && (r.Err? ==> s' == s && (r.error.UnknownThread? || r.error.AlreadyRunnable?))
            && (r.Ok? <==> Where(s, t).Parked?)
            && (r.Ok? ==> var c := r.value.placement.cpu; var previous := Where(s, t).cpu;
                  && c < |s.queues| && WakeChoice(s, t, previous, c)
                  && r.value == Admission(Placement(t, c, c != previous),
                                          if s.queues[c].current.None? then Some(Switch(None, t)) else None)
                  && (forall x :: Where(s', x) ==
                        if x == t then (if s.queues[c].current.None? then OnCpu(c) else Queued(c)) else Where(s, x)))
  {
    InvShaped(s);
    if Where(s, t).Parked? {
      var i := IndexOf(s.assignments, ThreadOf, t).value;
      var a := s.assignments[i];
      assert Assigned(s, t) == Some(a);
      LeastLoadedIsLeast(s, a.affinity);
      var to := WakeTarget(s, a).value;
      var a' := a.(cpu := to, state := Runnable);
      LookupSet(s.assignments, ThreadOf, i, a');
      JoinKeepsInv(s, t, a', s.assignments[i := a']);
      JoinPlaces(s, t, a', s.assignments[i := a']);
    }
  }

  ghost predicate WakeChoice(s: Smp, t: nat, previous: nat, c: nat) {
    && Assigned(s, t).Some? && previous < |s.queues| && c < |s.queues|
    && var affinity := Assigned(s, t).value.affinity;
    && (forall d :: d in affinity && d < |s.queues| ==>
          Load(s.queues[c]) <= Load(s.queues[d]) + if c == previous then 1 else 0)
    && (c != previous ==> Load(s.queues[c]) + 1 < Load(s.queues[previous]))
  }

  /** Taking a standing thread from its line to another CPU's under the new assignment `a'`. */
  lemma MoveEffect(s: Smp, t: nat, i: nat, a': Assignment)
    requires SmpInv(s) && Standing(Where(s, t)) && IndexOf(s.assignments, ThreadOf, t) == Some(i)
    requires a'.thread == t && a'.state.Runnable? && AssignmentOk(s, a') && a'.cpu != s.assignments[i].cpu
    ensures var from := s.assignments[i].cpu;
            from < |s.queues| && a'.cpu < |s.queues| &&
            var (s1, r) := MoveRunnable(s, t, from, a'.cpu);
            var s' := s1.(assignments := s.assignments[i := a']);
            && r.Ok? && SmpInv(s')
            && r.value.0 == Where(s, t).OnCpu?
            && (r.value.1.Some? ==> var u := r.value.1.value.to; r.value.0 && u != t && Where(s, u) == Queued(from))
            && r.value.2 == (if s.queues[a'.cpu].current.None? then Some(Switch(None, t)) else None)
            && (forall x :: Where(s', x) ==
                  if x == t then (if s.queues[a'.cpu].current.None? then OnCpu(a'.cpu) else Queued(a'.cpu))
                  else if r.value.1.Some? && x == r.value.1.value.to then OnCpu(from) else Where(s, x))
  {
    hide Remove, Enqueue;
    var a := s.assignments[i];
    assert Assigned(s, t) == Some(a);
    var parked := s.assignments[i := a.(state := Blocked)];
    LookupSet(s.assignments, ThreadOf, i, a.(state := Blocked));
    LeaveKeepsInv(s, t, a.cpu, parked);
    LeavePlaces(s, t, a.cpu, parked);
    var s1 := Without(s, t, a.cpu, parked);
    assert Assigned(s1, t) == Some(a.(state := Blocked));
    var assignments := s.assignments[i := a'];
    LookupSet(s.assignments, ThreadOf, i, a');
    assert Engaged(s1, t, a', assignments);
    JoinKeepsInv(s1, t, a', assignments);
    JoinPlaces(s1, t, a', assignments);
  }

  /** How a successful migration moves places. */
  ghost predicate Relocated(s: Smp, s': Smp, t: nat, m: Migration) {
    && Where(s, t) != Absent && m.placement.thread == t
    && var from := Where(s, t).cpu; var to := m.placement.cpu;
    && to < |s.queues|
    && (m.placement.migrated <==> from != to)
    && (m.sourceWasCurrent <==> Where(s, t).OnCpu? && from != to)
    && (m.sourceSwitch.Some? ==> var u := m.sourceSwitch.value.to;
          m.sourceWasCurrent && u != t && Where(s, u) == Queued(from))
    && m.destinationSwitch == (if from != to && Standing(Where(s, t)) && s.queues[to].current.None?
                               then Some(Switch(None, t)) else None)
    && (forall x | x != t :: Where(s', x) ==
          if m.sourceSwitch.Some? && x == m.sourceSwitch.value.to then OnCpu(from) else Where(s, x))
    && Where(s', t) == (if from == to then Where(s, t)
                        else if Where(s, t).Parked? then Parked(to)
                        else if s.queues[to].current.None? then OnCpu(to) else Queued(to))
  }

  /** Changing one thread's assignment without moving it between lines. */
  lemma Reassign(s: Smp, t: nat, i: nat, a': Assignment)
    requires SmpInv(s) && IndexOf(s.assignments, ThreadOf, t) == Some(i)
    requires a'.thread == t && a'.state == s.assignments[i].state && AssignmentOk(s, a')
    requires a'.cpu == s.assignments[i].cpu || a'.state.Blocked?
    ensures var s' := s.(assignments := s.assignments[i := a']);
            && SmpInv(s')
            && (forall x :: Where(s', x) == if x == t && a'.state.Blocked? then Parked(a'.cpu) else Where(s, x))
  {
    LookupSet(s.assignments, ThreadOf, i, a');
    var s' := s.(assignments := s.assignments[i := a']);
    forall x ensures Assigned(s', x) == if x == t then Some(a') else Assigned(s, x) {
    }
    forall d, x | 0 <= d < |s'.queues|
      ensures x in Line(s'.queues[d]) <==> StandsOn(Assigned(s', x), d)
    {
      assert x in Line(s.queues[d]) <==> StandsOn(Assigned(s, x), d);
    }
    assert Filed(s');
  }

  /** Migration succeeds exactly when the target is online, the thread known and the target allowed. */
  lemma MigrateEffect(s: Smp, t: nat, to: nat)
    requires SmpInv(s)
    ensures Shaped(s)
    ensures var (s', r) := Migrate(s, t, to);
            && SmpInv(s')
            && (r.Err? ==> s' == s && (!r.error.QueueStateMismatch? && !r.error.Capacity?))
            && (r.Ok? <==> to in s.online && Assigned(s, t).Some? && to in Assigned(s, t).value.affinity)
            && (r.Ok? ==> r.value.placement.cpu == to && Relocated(s, s', t, r.value))
  {
    InvShaped(s);
    if to in s.online && Assigned(s, t).Some? && to in Assigned(s, t).value.affinity {
      var i := IndexOf(s.assignments, ThreadOf, t).value;
      var a := s.assignments[i];
      assert Assigned(s, t) == Some(a);
      if a.cpu != to {
        if a.state.Runnable? {
          MoveEffect(s, t, i, a.(cpu := to));
        } else {
          Reassign(s, t, i, a.(cpu := to));
        }
      }
    }
  }

  /** A new mask takes effect at once: the thread stays if allowed, else goes to the least loaded. */
  lemma SetAffinityEffect(s: Smp, t: nat, affinity: set<nat>)
    requires SmpInv(s)
    ensures Shaped(s)
    ensures var (s', r) := SetAffinity(s, t, affinity);
            && SmpInv(s')
            && (r.Err? ==> s' == s && (!r.error.QueueStateMismatch? && !r.error.Capacity?))
            && (r.Ok? <==> ValidateAffinity(s, affinity).None? && Assigned(s, t).Some?)
            && (r.Ok? ==> var c := r.value.placement.cpu;
                  && (if Where(s, t).cpu in affinity then c == Where(s, t).cpu else IsLeast(s, affinity, |s.queues|, c))
                  && c in affinity && Relocated(s, s', t, r.value))
  {
    InvShaped(s);
    if ValidateAffinity(s, affinity).None? && Assigned(s, t).Some? {
      var i := IndexOf(s.assignments, ThreadOf, t).value;
      var a := s.assignments[i];
      assert Assigned(s, t) == Some(a);
      if a.cpu in affinity {
        Reassign(s, t, i, a.(affinity := affinity));
      } else {
        LeastLoadedIsLeast(s, affinity);
        var a' := a.(affinity := affinity, cpu := LeastLoaded(s, affinity).value);
        if a.state.Runnable? {
          MoveEffect(s, t, i, a');
        } else {
          Reassign(s, t, i, a');
        }
      }
    }
  }

  /** A timer tick or a yield either changes no place or swaps the head of the line with the next. */
  ghost predicate Rotated(s: Smp, s': Smp, c: nat, sw: Option<Switch>) {
    && (sw.None? ==> forall x :: Where(s', x) == Where(s, x))
    && (sw.Some? ==>
          && sw.value.from.Some?
          && var u := sw.value.from.value; var v := sw.value.to;
          && u != v && Where(s, u) == OnCpu(c) && Where(s, v) == Queued(c)
          && forall x :: Where(s', x) == if x == u then Queued(c) else if x == v then OnCpu(c) else Where(s, x))
  }

  lemma RotationMembers(line: seq<nat>)
    requires |line| >= 2
    ensures forall x :: x in line[1..] + [line[0]] <==> x in line
  {
  }

  ghost predicate RotatedLine(line: seq<nat>, line': seq<nat>, sw: Option<Switch>) {
    || (line' == line && sw.None?)
    || (|line| >= 2 && line' == line[1..] + [line[0]] && sw == Some(Switch(Some(line[0]), line[1])))
  }

  lemma RotateKeepsInv(s: Smp, c: nat, q: Queue)
    requires SmpInv(s) && c < |s.queues| && QueueOk(q)
    requires forall x :: x in Line(q) <==> x in Line(s.queues[c])
    ensures SmpInv(s.(queues := s.queues[c := q]))
  {
    var s' := s.(queues := s.queues[c := q]);
    forall x ensures Assigned(s', x) == Assigned(s, x) {
    }
    forall d, x | 0 <= d < |s'.queues|
      ensures x in Line(s'.queues[d]) <==> StandsOn(Assigned(s', x), d)
    {
      assert x in Line(s.queues[d]) <==> StandsOn(Assigned(s, x), d);
    }
    assert Filed(s');
  }

  lemma RotatePlace(s: Smp, c: nat, q: Queue, x: nat)
    requires SmpInv(s) && c < |s.queues|
    ensures Where(s.(queues := s.queues[c := q]), x) ==
            if x !in Line(s.queues[c]) then Where(s, x) else if q.current == Some(x) then OnCpu(c) else Queued(c)
    ensures x in Line(s.queues[c]) ==>
              Where(s, x) == if s.queues[c].current == Some(x) then OnCpu(c) else Queued(c)
  {
  }

  lemma QueueAt(s: Smp, c: nat)
    requires SmpInv(s) && c < |s.queues|
    ensures QueueOk(s.queues[c])
  {
  }

  lemma RotateEffect(s: Smp, c: nat, q: Queue, sw: Option<Switch>)
    requires SmpInv(s) && c < |s.queues| && QueueOk(q)
    requires RotatedLine(Line(s.queues[c]), Line(q), sw)
    ensures SmpInv(s.(queues := s.queues[c := q]))
    ensures Rotated(s, s.(queues := s.queues[c := q]), c, sw)
  {
    hide SmpInv, Where, Line;
    assert QueueOk(s.queues[c]) by { QueueAt(s, c); }
    var line := Line(s.queues[c]);
    LineView(q);
    LineView(s.queues[c]);
    if sw.Some? {
      RotationMembers(line);
      assert Id(line[0]) != Id(line[1]);
    }
    RotateKeepsInv(s, c, q);
    forall x { RotatePlace(s, c, q, x); }
  }

  lemma TickCpuEffect(s: Smp, c: nat)
    requires SmpInv(s)
    ensures var (s', r) := TickCpu(s, c);
            && SmpInv(s') && (r.Err? ==> s' == s) && (r.Ok? <==> c in s.online)
            && (r.Ok? ==> Rotated(s, s', c, r.value))
  {
    if c in s.online {
      TickLine(s.queues[c]);
      RotateEffect(s, c, Tick(s.queues[c]).0, Tick(s.queues[c]).1);
    }
  }

  lemma YieldCpuEffect(s: Smp, c: nat)
    requires SmpInv(s)
    ensures var (s', r) := YieldCpu(s, c);
            && SmpInv(s') && (r.Err? ==> s' == s) && (r.Ok? <==> c in s.online)
            && (r.Ok? ==> Rotated(s, s', c, r.value))
  {
    if c in s.online {
      YieldLine(s.queues[c]);
      RotateEffect(s, c, YieldCurrent(s.queues[c]).0, YieldCurrent(s.queues[c]).1);
    }
  }

  lemma OnlineCpuEffect(s: Smp, c: nat)
    requires SmpInv(s)
    ensures var (s', r) := OnlineCpu(s, c);
            && SmpInv(s') && (r.Err? ==> s' == s) && (r.Ok? <==> c < |s.queues|)
            && (forall x :: Where(s', x) == Where(s, x))
  {
    var s' := OnlineCpu(s, c).0;
    forall x ensures Assigned(s', x) == Assigned(s, x) {
    }
    assert Filed(s') by {
      forall d, x | 0 <= d < |s'.queues|
        ensures x in Line(s'.queues[d]) <==> StandsOn(Assigned(s', x), d)
      {
        assert x in Line(s.queues[d]) <==> StandsOn(Assigned(s, x), d);
      }
    }
  }

  lemma NewSmpInv(capacity: nat, quantum: nat, online: set<nat>)
    requires quantum <= U64_MAX
    ensures var r := WithOnlineMask(capacity, quantum, online);
            && (r.Ok? <==> 0 < capacity <= MAX_CPUS && online != {} && quantum > 0 && forall c :: c in online ==>
                c < capacity)
            && (r.Ok? ==> SmpInv(r.value) && forall x :: Where(r.value, x) == Absent)
  {
  }

  // ---------------------------------------------------------------- assignments

  /** `s'` gives `t` the assignment `a`, and everyone else what they had in `s`. */
  ghost predicate Reassigned(s: Smp, s': Smp, t: nat, a: Option<Assignment>) {
    forall x :: Assigned(s', x) == if x == t then a else Assigned(s, x)
  }

  /** Masks: admission records the requested one, and waking and blocking keep it. */
  lemma AdmitRecords(s: Smp, t: nat, affinity: set<nat>)
    requires Unique(s.assignments, ThreadOf) && Admit(s, t, affinity).1.Ok?
    ensures var (s', r) := Admit(s, t, affinity);
            Reassigned(s, s', t, Some(Assignment(t, affinity, r.value.placement.cpu, Runnable)))
  {
    LookupPush(s.assignments, ThreadOf, Assignment(t, affinity, Admit(s, t, affinity).1.value.placement.cpu, Runnable));
  }

  lemma BlockRecords(s: Smp, t: nat)
    requires Unique(s.assignments, ThreadOf) && Shaped(s) && Block(s, t).1.Ok?
    ensures Assigned(s, t).Some? && Reassigned(s, Block(s, t).0, t, Some(Assigned(s, t).value.(state := Blocked)))
  {
    var i := IndexOf(s.assignments, ThreadOf, t).value;
    LookupSet(s.assignments, ThreadOf, i, s.assignments[i].(state := Blocked));
  }

  lemma WakeRecords(s: Smp, t: nat)
    requires Unique(s.assignments, ThreadOf) && Shaped(s) && Wake(s, t).1.Ok?
    ensures var (s', r) := Wake(s, t);
            Assigned(s, t).Some?
            && Reassigned(s, s', t, Some(Assigned(s, t).value.(cpu := r.value.placement.cpu, state := Runnable)))
  {
    hide WakeTarget, QueueCanAccept, Enqueue;
    var i := IndexOf(s.assignments, ThreadOf, t).value;
    LookupSet(s.assignments, ThreadOf, i,
        s.assignments[i].(cpu := Wake(s, t).1.value.placement.cpu, state := Runnable));
  }

  lemma DischargeRecords(s: Smp, t: nat)
    requires Unique(s.assignments, ThreadOf) && Shaped(s) && Discharge(s, t).1.Ok?
    ensures Reassigned(s, Discharge(s, t).0, t, None)
  {
    LookupRemove(s.assignments, ThreadOf, IndexOf(s.assignments, ThreadOf, t).value);
  }

  lemma SetAffinityRecords(s: Smp, t: nat, affinity: set<nat>)
    requires Unique(s.assignments, ThreadOf) && Shaped(s) && SetAffinity(s, t, affinity).1.Ok?
    ensures var (s', r) := SetAffinity(s, t, affinity);
            Assigned(s, t).Some?
            && Reassigned(s, s', t, Some(Assigned(s, t).value.(affinity := affinity, cpu := r.value.placement.cpu)))
  {
    hide MoveRunnable, LeastLoaded;
    var i := IndexOf(s.assignments, ThreadOf, t).value;
    var to := SetAffinity(s, t, affinity).1.value.placement.cpu;
    LookupSet(s.assignments, ThreadOf, i, s.assignments[i].(affinity := affinity, cpu := to));
  }

  lemma MigrateRecords(s: Smp, t: nat, to: nat)
    requires Unique(s.assignments, ThreadOf) && Shaped(s) && Migrate(s, t, to).1.Ok?
    ensures Assigned(s, t).Some? && Reassigned(s, Migrate(s, t, to).0, t, Some(Assigned(s, t).value.(cpu := to)))
  {
    hide MoveRunnable;
    var i := IndexOf(s.assignments, ThreadOf, t).value;
    LookupSet(s.assignments, ThreadOf, i, s.assignments[i].(cpu := to));
  }
}
