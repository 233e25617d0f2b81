/** What a call to `advance` reports and leaves behind, and what holds over whole runs of timer operations. */
module TimerRuns {
  import opened Common
  import opened Timers

  /** `fired` lists exactly the due timers, by deadline and then identity, each once. */
  ghost predicate Reports(q: Queue, now: nat, fired: seq<nat>) {
    exists keys: seq<Key> ::
      && Ids(keys) == fired
      && (forall i, j :: 0 <= i < j < |keys| ==> Before(keys[i], keys[j]))
      && (forall k :: k in keys <==> exists i ::
          0 <= i < |q.entries| && Due(q.entries[i], now)
          && KeyOf(q.entries[i].value) == k)
  }

  lemma InvPeriods(q: Queue)
    requires QueueInv(q)
    ensures PeriodsOk(q.entries)
  {
  }

  lemma AdvanceReports(q: Queue, now: nat)
    requires QueueInv(q)
    ensures Reports(q, now, Ids(Sorted(DueKeys(q.entries, now))))
  {
    hide DueKeys, Sorted;
    var due := DueKeys(q.entries, now);
    var keys := Sorted(due);
    SortedSorts(due);
    assert q.entries[..|q.entries|] == q.entries;
    DueKeysDistinct(q, |q.entries|, now);
    PermutedDistinct(due, keys);
    forall k ensures k in keys <==> exists i ::
      0 <= i < |q.entries| && Due(q.entries[i], now)
      && KeyOf(q.entries[i].value) == k {
      DueKeysMeaning(q.entries, now, k);
      assert k in keys <==> k in multiset(due);
    }
  }

  /** The timer fits when rescheduled. */
  predicate Fits(e: Option<Entry>, now: nat)
    requires e.Some? ==> e.value.mode != Periodic(0)
  {
    Due(e, now) && e.value.mode.Periodic? ==> NextDeadline(e.value.deadline, e.value.mode.period, now) <= U64_MAX
  }

  lemma FitsIffNoError(e: Option<Entry>, now: nat)
    requires now <= U64_MAX && (e.Some? ==> EntryOk(e.value))
    ensures RescheduleError(e, now).None? <==> Fits(e, now)
    ensures RescheduleError(e, now) == Some(ArithmeticPanic) ==> now == U64_MAX
  {
  }

  /** What becomes of a timer when the clock reaches `now`: a due one-shot is dropped, and a due periodic
      timer moves by whole periods to the least deadline after `now`. */
  ghost predicate Moves(e: Option<Entry>, e': Option<Entry>, now: nat) {
    if !Due(e, now) then e' == e
    else if e.value.mode.OneShot? then e' == None
    else
      && e'.Some? && e' == Some(e.value.(deadline := e'.value.deadline)) && now < e'.value.deadline
      && (exists k: nat :: e'.value.deadline == e.value.deadline + e.value.mode.period * k)
      && forall k: nat :: e.value.deadline + e.value.mode.period * k <= now
                          || e'.value.deadline <= e.value.deadline + e.value.mode.period * k
  }

  lemma RescheduledMoves(e: Option<Entry>, now: nat)
    requires e.Some? ==> EntryOk(e.value)
    ensures Moves(e, Rescheduled(e, now), now) && !Due(Rescheduled(e, now), now)
  {
    if Due(e, now) && e.value.mode.Periodic? { NextDeadlineIsLeast(e.value.deadline, e.value.mode.period, now); }
  }

  /** `advance` succeeds iff the clock does not run backwards, the output has room for all due timers and
      every due periodic timer can be rescheduled. Then it reports exactly the due timers in order and moves
      each of them on; otherwise nothing changes. */
  lemma AdvanceExactly(q: Queue, now: nat, room: nat)
    requires QueueInv(q) && now <= U64_MAX
    ensures PeriodsOk(q.entries)
    ensures var (q', r) := Advance(q, now, room);
            && QueueInv(q') && (r.Err? ==> q' == q && (r.error == ArithmeticPanic ==> now == U64_MAX))
            && (r.Ok? <==> q.lastNow <= now && |DueKeys(q.entries, now)| <= room
                           && forall i :: 0 <= i < |q.entries| ==> Fits(q.entries[i], now))
            && (r.Ok? ==>
                  && Reports(q, now, r.value) && |r.value| == |DueKeys(q.entries, now)|
                  && q'.lastNow == now && q'.nextId == q.nextId && |q'.entries| == |q.entries|
                  && forall i :: 0 <= i < |q.entries| ==>
                     Moves(q.entries[i], q'.entries[i], now)
                     && !Due(q'.entries[i], now))
  {
    hide Moves, Fits, DueKeys, Sorted, Reports, NextDeadline;
    InvPeriods(q);
    var (q', r) := Advance(q, now, room);
    forall i | 0 <= i < |q.entries|
      ensures RescheduleError(q.entries[i], now).None? <==> Fits(q.entries[i], now)
      ensures RescheduleError(q.entries[i], now) == Some(ArithmeticPanic) ==> now == U64_MAX
    {
      FitsIffNoError(q.entries[i], now);
    }
    if r.Ok? {
      AdvanceReports(q, now);
      SortedSorts(DueKeys(q.entries, now));
      forall i | 0 <= i < |q.entries|
        ensures Moves(q.entries[i], q'.entries[i], now) && !Due(q'.entries[i], now)
      {
        RescheduledMoves(q.entries[i], now);
      }
      AdvanceKeeps(q, now);
    }
  }

  lemma AdvanceKeeps(q: Queue, now: nat)
    requires QueueInv(q) && PeriodsOk(q.entries) && now <= U64_MAX && FirstError(q.entries, now, 0).None?
    ensures QueueInv(Queue(RescheduledAll(q.entries, now), q.nextId, now))
  {
  }

  /** At the last instant of the clock no due periodic timer can be rescheduled, so the call never succeeds. */
  lemma LastInstantFails(q: Queue, room: nat, i: nat)
    requires QueueInv(q) && i < |q.entries| && q.entries[i].Some? && q.entries[i].value.mode.Periodic?
    ensures PeriodsOk(q.entries) && Advance(q, U64_MAX, room).1.Err?
  {
  }

  // ---------------------------------------------------------------- runs

  datatype Op =
    | Arm(deadline: nat, mode: Mode)
    | Disarm(id: nat)
    | Elapse(now: nat, room: nat)

  /** Arguments are 64-bit numbers. */
  predicate InRange(op: Op) {
    match op
    case Arm(deadline, mode) => deadline <= U64_MAX && (mode.Periodic? ==> mode.period <= U64_MAX)
    case Disarm(_) => true
    case Elapse(now, _) => now <= U64_MAX
  }

  function Next(q: Queue, op: Op): Queue
    requires PeriodsOk(q.entries)
  {
    match op
    case Arm(deadline, mode) => Schedule(q, deadline, mode).0
    case Disarm(id) => Cancel(q, id).0
    case Elapse(now, room) => Advance(q, now, room).0
  }

  /** What a step reports as fired. */
  function Fired(q: Queue, op: Op): seq<nat>
    requires PeriodsOk(q.entries)
  {
    match op
    case Elapse(now, room) =>
      var r := Advance(q, now, room).1;
      if r.Ok? then r.value else []
    case _ => []
  }

  /** The timer existed and is no longer in the queue. */
  ghost predicate Expired(q: Queue, id: nat) {
    id < q.nextId && !Active(q, id)
  }

  lemma StepKeeps(q: Queue, op: Op)
    requires QueueInv(q) && InRange(op)
    ensures PeriodsOk(q.entries) && QueueInv(Next(q, op))
  {
    InvPeriods(q);
    match op
    case Arm(deadline, mode) => ScheduleKeeps(q, deadline, mode);
    case Disarm(id) => CancelKeeps(q, id);
    case Elapse(now, room) => AdvanceExactly(q, now, room);
  }

  lemma ExpiredStep(q: Queue, op: Op, id: nat)
    requires QueueInv(q) && InRange(op) && Expired(q, id)
    ensures PeriodsOk(q.entries) && Expired(Next(q, op), id) && id !in Fired(q, op)
  {
    StepKeeps(q, op);
    match op
    case Arm(deadline, mode) =>
    case Disarm(other) => CancelKeeps(q, other);
    case Elapse(now, room) => ExpiredElapse(q, now, room, id);
  }

  lemma ExpiredElapse(q: Queue, now: nat, room: nat, id: nat)
    requires QueueInv(q) && PeriodsOk(q.entries) && now <= U64_MAX && Expired(q, id)
    ensures var (q', r) := Advance(q, now, room); Expired(q', id) && (r.Ok? ==> id !in r.value)
  {
    hide Reports, Fits, DueKeys;
    AdvanceExactly(q, now, room);
    var (q', r) := Advance(q, now, room);
    if r.Ok? {
      if id in r.value { OnlyActiveFire(q, now, r.value, id); }
      forall j | 0 <= j < |q'.entries| && q'.entries[j].Some? ensures q'.entries[j].value.id != id {
        assert Moves(q.entries[j], q'.entries[j], now);
      }
    }
  }

  lemma {:induction false} OnlyActiveFire(q: Queue, now: nat, fired: seq<nat>, id: nat)
    requires Reports(q, now, fired) && id in fired
    ensures Active(q, id)
  {
    var keys: seq<Key> :| Ids(keys) == fired
      && (forall k :: k in keys <==> exists i ::
          0 <= i < |q.entries| && Due(q.entries[i], now)
          && KeyOf(q.entries[i].value) == k);
    var m :| 0 <= m < |fired| && fired[m] == id;
    var k := keys[m];
    assert k in keys && Ids(keys)[m] == k.1;
    var i :| 0 <= i < |q.entries| && Due(q.entries[i], now) && KeyOf(q.entries[i].value) == k;
    assert Due(q.entries[i], now) && KeyOf(q.entries[i].value) == k;
  }

  /** A one-shot timer that fired has expired. */
  lemma OneShotExpires(q: Queue, now: nat, room: nat, i: nat)
    requires QueueInv(q) && now <= U64_MAX && i < |q.entries| && Due(q.entries[i], now)
             && q.entries[i].value.mode.OneShot?
    ensures PeriodsOk(q.entries)
    ensures Advance(q, now, room).1.Ok? ==> Expired(Advance(q, now, room).0, q.entries[i].value.id)
  {
  }

  ghost function Run(q: Queue, ops: seq<Op>): (q': Queue)
    requires QueueInv(q) && forall i :: 0 <= i < |ops| ==> InRange(ops[i])
    ensures QueueInv(q')
    decreases |ops|
  {
    if ops == [] then q
    else
      StepKeeps(q, ops[0]);
      Run(Next(q, ops[0]), ops[1..])
  }

  /** A timer that was cancelled, or fired as a one-shot, never fires again in any run. */
  lemma {:induction false} ExpiredNeverFires(q: Queue, ops: seq<Op>, last: Op, id: nat)
    requires QueueInv(q) && (forall i :: 0 <= i < |ops| ==> InRange(ops[i])) && InRange(last) && Expired(q, id)
    ensures PeriodsOk(Run(q, ops).entries) && Expired(Run(q, ops), id) && id !in Fired(Run(q, ops), last)
    decreases |ops|
  {
    if ops == [] {
      ExpiredStep(q, last, id);
    } else {
      ExpiredStep(q, ops[0], id);
      StepKeeps(q, ops[0]);
      ExpiredNeverFires(Next(q, ops[0]), ops[1..], last, id);
    }
  }
}
