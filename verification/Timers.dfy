/** The interrupt timer queue (`InterruptTimerQueue` in kernel/src/interrupt_model.rs), as functions on
    values, and what a call to `advance` means. */
module Timers {
  import opened Common

  datatype Mode = OneShot | Periodic(period: nat)

  datatype Entry = Entry(id: nat, deadline: nat, mode: Mode)

  datatype Queue = Queue(entries: seq<Option<Entry>>, nextId: nat, lastNow: nat)

  /** `ArithmeticPanic` is the overflow of an unchecked addition in a build with overflow checks. */
  datatype TimerError =
    | Capacity | InvalidDeadline | InvalidPeriod | UnknownTimer | ClockWentBackwards | OutputFull | DeadlineOverflow
    | ArithmeticPanic

  // ---------------------------------------------------------------- schedule and cancel

  /** The first empty slot from position `i` on. */
  function EmptySlot(es: seq<Option<Entry>>, i: nat): (r: Option<nat>)
    requires i <= |es|
    ensures r.Some? ==> i <= r.value < |es| && es[r.value].None?
    ensures r.None? ==> forall j :: i <= j < |es| ==> es[j].Some?
    decreases |es| - i
  {
    if i == |es| then None else if es[i].None? then Some(i) else EmptySlot(es, i + 1)
  }

  /** The slot of timer `id`, from position `i` on. */
  function SlotOf(es: seq<Option<Entry>>, id: nat, i: nat): (r: Option<nat>)
    requires i <= |es|
    ensures r.Some? ==> i <= r.value < |es| && es[r.value].Some? && es[r.value].value.id == id
    ensures r.None? ==> forall j :: i <= j < |es| && es[j].Some? ==> es[j].value.id != id
    decreases |es| - i
  {
    if i == |es| then None else if es[i].Some? && es[i].value.id == id then Some(i) else SlotOf(es, id, i + 1)
  }

  function Schedule(q: Queue, deadline: nat, mode: Mode): (Queue, Result<nat, TimerError>) {
    if deadline == U64_MAX then (q, Err(InvalidDeadline))
    else if mode == Periodic(0) then (q, Err(InvalidPeriod))
    else
      match EmptySlot(q.entries, 0)
      case None => (q, Err(Capacity))
      case Some(slot) =>
        if q.nextId >= U32_MAX then (q, Err(Capacity))
        else
          (q.(entries := q.entries[slot := Some(Entry(q.nextId, deadline, mode))], nextId := q.nextId + 1),
              Ok(q.nextId))
  }

  function Cancel(q: Queue, id: nat): (Queue, Result<(), TimerError>) {
    match SlotOf(q.entries, id, 0)
    case None => (q, Err(UnknownTimer))
    case Some(slot) => (q.(entries := q.entries[slot := None]), Ok(()))
  }

  // ---------------------------------------------------------------- advance

  predicate Due(e: Option<Entry>, now: nat) {
    e.Some? && e.value.deadline <= now
  }

  /** A timer as it is sorted: by deadline, then by identity. */
  type Key = (nat, nat)

  function KeyOf(e: Entry): Key { (e.deadline, e.id) }

  predicate Before(a: Key, b: Key) {
    a.0 < b.0 || (a.0 == b.0 && a.1 < b.1)
  }

  /** The due timers in slot order. */
  function DueKeys(es: seq<Option<Entry>>, now: nat): seq<Key> {
    if es == [] then []
    else
      var last := es[|es| - 1];
      DueKeys(es[..|es| - 1], now) + if Due(last, now) then [KeyOf(last.value)] else []
  }

  /** The deadline after skipping every period that has passed. */
  function NextDeadline(deadline: nat, period: nat, now: nat): nat
    requires period > 0 && deadline <= now
  {
    deadline + period * ((now - deadline) / period + 1)
  }

  predicate PeriodsOk(es: seq<Option<Entry>>) {
    forall i :: 0 <= i < |es| && es[i].Some? ==> es[i].value.mode != Periodic(0)
  }

  /** Whether rescheduling this timer overflows, and how. */
  function RescheduleError(e: Option<Entry>, now: nat): Option<TimerError>
    requires e.Some? ==> e.value.mode != Periodic(0)
  {
    if !Due(e, now) || e.value.mode.OneShot? then None
    else
      var period := e.value.mode.period;
      if (now - e.value.deadline) / period + 1 > U64_MAX then Some(ArithmeticPanic)
      else if period * ((now - e.value.deadline) / period + 1) > U64_MAX then Some(DeadlineOverflow)
      else if NextDeadline(e.value.deadline, period, now) > U64_MAX then Some(DeadlineOverflow)
      else None
  }

  function FirstError(es: seq<Option<Entry>>, now: nat, i: nat): (r: Option<TimerError>)
    requires PeriodsOk(es) && i <= |es|
    ensures r.None? <==> forall j :: i <= j < |es| ==> RescheduleError(es[j], now).None?
    ensures r.Some? ==> exists j :: i <= j < |es| && RescheduleError(es[j], now) == r
    decreases |es| - i
  {
    if i == |es| then None
    else if RescheduleError(es[i], now).Some? then RescheduleError(es[i], now)
    else FirstError(es, now, i + 1)
  }

  /** A timer after it fired, or as it was. */
  function Rescheduled(e: Option<Entry>, now: nat): Option<Entry>
    requires e.Some? ==> e.value.mode != Periodic(0)
  {
    if !Due(e, now) then e
    else if e.value.mode.OneShot? then None
    else Some(e.value.(deadline := NextDeadline(e.value.deadline, e.value.mode.period, now)))
  }

  function RescheduledAll(es: seq<Option<Entry>>, now: nat): seq<Option<Entry>>
    requires PeriodsOk(es)
  {
    seq(|es|, i requires 0 <= i < |es| => Rescheduled(es[i], now))
  }

  /** Insertion as the inner loop does it: `x` sinks from the end past every later key. */
  function Insert(s: seq<Key>, x: Key): seq<Key> {
    if s == [] || !Before(x, s[|s| - 1]) then s + [x] else Insert(s[..|s| - 1], x) + [s[|s| - 1]]
  }

  function Sorted(s: seq<Key>): seq<Key> {
    if s == [] then [] else Insert(Sorted(s[..|s| - 1]), s[|s| - 1])
  }

  function Ids(s: seq<Key>): seq<nat> {
    seq(|s|, i requires 0 <= i < |s| => s[i].1)
  }

  function Advance(q: Queue, now: nat, room: nat): (Queue, Result<seq<nat>, TimerError>)
    requires PeriodsOk(q.entries)
  {
    if now < q.lastNow then (q, Err(ClockWentBackwards))
    else if |DueKeys(q.entries, now)| > room then (q, Err(OutputFull))
    else
      match FirstError(q.entries, now, 0)
      case Some(error) => (q, Err(error))
      case None =>
        (Queue(RescheduledAll(q.entries, now), q.nextId, now), Ok(Ids(Sorted(DueKeys(q.entries, now)))))
  }

  // ---------------------------------------------------------------- sorting

  predicate Ordered(s: seq<Key>) {
    forall i, j :: 0 <= i < j < |s| ==> !Before(s[j], s[i])
  }

  lemma {:induction false} InsertSorts(s: seq<Key>, x: Key)
    requires Ordered(s)
    ensures Ordered(Insert(s, x)) && multiset(Insert(s, x)) == multiset(s) + multiset{x} && |Insert(s, x)| == |s| + 1
    decreases |s|
  {
    if s != [] {
      var front, last := s[..|s| - 1], s[|s| - 1];
      assert s == front + [last];
      if Before(x, last) {
        InsertSorts(front, x);
        forall k | k in Insert(front, x) ensures !Before(last, k) {
          assert k in multiset(front) + multiset{x};
        }
      }
    }
  }

  /** The sorting loops produce an ordered permutation. */
  lemma {:induction false} SortedSorts(s: seq<Key>)
    ensures Ordered(Sorted(s)) && multiset(Sorted(s)) == multiset(s) && |Sorted(s)| == |s|
  {
    if s != [] {
      SortedSorts(s[..|s| - 1]);
      InsertSorts(Sorted(s[..|s| - 1]), s[|s| - 1]);
      assert s == s[..|s| - 1] + [s[|s| - 1]];
    }
  }

  // ---------------------------------------------------------------- deadlines

  lemma {:induction false} Monotone(x: nat, y: nat, period: nat)
    requires x <= y
    ensures period * x <= period * y
  {
    if x < y {
      Monotone(x, y - 1, period);
      assert period * y == period * (y - 1) + period;
    }
  }

  lemma Quotient(a: nat, period: nat)
    requires period > 0
    ensures period * (a / period) <= a < period * (a / period) + period
  {
  }

  /** The new deadline is the least one after `now` that differs from the old one by whole periods. */
  lemma NextDeadlineIsLeast(deadline: nat, period: nat, now: nat)
    requires period > 0 && deadline <= now
    ensures var next := NextDeadline(deadline, period, now);
            && now < next <= now + period
            && (exists k: nat :: next == deadline + period * k)
            && forall k: nat :: deadline + period * k <= now || next <= deadline + period * k
  {
    var n := (now - deadline) / period;
    Quotient(now - deadline, period);
    assert period * (n + 1) == period * n + period;
    forall k: nat ensures deadline + period * k <= now || NextDeadline(deadline, period, now) <= deadline + period * k {
      if k <= n { Monotone(k, n, period); } else { Monotone(n + 1, k, period); }
    }
  }

  predicate EntryOk(e: Entry) {
    e.deadline <= U64_MAX && (e.mode.Periodic? ==> 0 < e.mode.period <= U64_MAX)
  }

  /** Rescheduling fails iff the new deadline does not fit 64 bits; it panics iff a timer of period 1 and
      deadline 0 is advanced to the last instant. */
  lemma RescheduleErrorExactly(e: Entry, now: nat)
    requires EntryOk(e) && now <= U64_MAX && e.deadline <= now && e.mode.Periodic?
    ensures var r := RescheduleError(Some(e), now);
            && (r.None? <==> NextDeadline(e.deadline, e.mode.period, now) <= U64_MAX)
            && (r == Some(ArithmeticPanic) <==> e.deadline == 0 && e.mode.period == 1 && now == U64_MAX)
            && (now == U64_MAX ==> r.Some?)
  {
    hide NextDeadline;
    NextDeadlineSum(e, now);
    var period, a := e.mode.period, now - e.deadline;
    NextDeadlineIsLeast(e.deadline, period, now);
    QuotientSmall(a, period);
  }

  /** The new deadline where the count of periods wraps around at 64 bits, as it does without overflow checks. */
  function WrappedDeadline(deadline: nat, period: nat, now: nat): Option<nat>
    requires period > 0 && deadline <= now
  {
    var periods := ((now - deadline) / period + 1) % (U64_MAX + 1);
    if period * periods > U64_MAX || deadline + period * periods > U64_MAX then None
    else Some(deadline + period * periods)
  }

  /** Wrapping makes a difference for one timer at one instant only: it is put back to deadline 0, still due. */
  lemma WrappingDiffersExactly(e: Entry, now: nat)
    requires EntryOk(e) && now <= U64_MAX && e.deadline <= now && e.mode.Periodic?
    ensures var next := NextDeadline(e.deadline, e.mode.period, now);
            var wrapped := WrappedDeadline(e.deadline, e.mode.period, now);
            && (wrapped == (if next <= U64_MAX then Some(next) else None)
                <==> !(e.deadline == 0 && e.mode.period == 1 && now == U64_MAX))
            && (e.deadline == 0 && e.mode.period == 1 && now == U64_MAX ==> wrapped == Some(0))
  {
    hide NextDeadline, WrappedDeadline;
    RescheduleErrorExactly(e, now);
    if (now - e.deadline) / e.mode.period + 1 <= U64_MAX {
      Unwrapped(e.deadline, e.mode.period, now);
    } else {
      WrappedToZero();
    }
  }

  lemma Unwrapped(deadline: nat, period: nat, now: nat)
    requires period > 0 && deadline <= now && (now - deadline) / period + 1 <= U64_MAX
    ensures WrappedDeadline(deadline, period, now) ==
            if NextDeadline(deadline, period, now) <= U64_MAX then Some(NextDeadline(deadline, period, now)) else None
  {
    var periods: nat := (now - deadline) / period + 1;
    FitsWord(periods);
    var increment := period * periods;
    assert NextDeadline(deadline, period, now) == deadline + increment;
  }

  lemma FitsWord(n: nat)
    requires n <= U64_MAX
    ensures n % (U64_MAX + 1) == n
  {
  }

  lemma WrappedToZero()
    ensures WrappedDeadline(0, 1, U64_MAX) == Some(0) && NextDeadline(0, 1, U64_MAX) > U64_MAX
  {
  }

  lemma NextDeadlineSum(e: Entry, now: nat)
    requires EntryOk(e) && e.deadline <= now && e.mode.Periodic?
    ensures NextDeadline(e.deadline, e.mode.period, now) ==
            e.deadline + e.mode.period * ((now - e.deadline) / e.mode.period + 1)
  {
  }

  lemma QuotientSmall(a: nat, period: nat)
    requires period > 0
    ensures a / period <= a && (period == 1 ==> a / period == a) && (period > 1 && a > 0 ==> a / period < a)
  {
    Quotient(a, period);
    Monotone(if period == 1 then 1 else 2, period, a / period);
    assert a / period * period == period * (a / period);
  }

  // ---------------------------------------------------------------- the invariant

  ghost predicate QueueInv(q: Queue) {
    && (forall i :: 0 <= i < |q.entries| && q.entries[i].Some? ==>
        EntryOk(q.entries[i].value)
        && q.entries[i].value.id < q.nextId)
    && (forall i, j :: 0 <= i < j < |q.entries| && q.entries[i].Some? && q.entries[j].Some? ==>
          q.entries[i].value.id != q.entries[j].value.id)
  }

  lemma ScheduleKeeps(q: Queue, deadline: nat, mode: Mode)
    requires QueueInv(q) && deadline <= U64_MAX && (mode.Periodic? ==> mode.period <= U64_MAX)
    ensures var (q', r) := Schedule(q, deadline, mode);
            && QueueInv(q') && (r.Err? ==> q' == q)
            && (r.Ok? <==> deadline != U64_MAX && mode != Periodic(0) && q.nextId < U32_MAX && None in q.entries)
            && (r.Ok? ==> r.value == q.nextId && q'.nextId == q.nextId + 1 && q'.lastNow == q.lastNow
                          && exists slot :: 0 <= slot < |q.entries| && q.entries[slot].None?
                                            && q'.entries == q.entries[slot := Some(Entry(r.value, deadline, mode))])
  {
  }

  lemma CancelKeeps(q: Queue, id: nat)
    requires QueueInv(q)
    ensures var (q', r) := Cancel(q, id);
            && QueueInv(q') && (r.Err? ==> q' == q) && (r.Ok? <==> Active(q, id)) && !Active(q', id)
            && q'.nextId == q.nextId && q'.lastNow == q.lastNow && |q'.entries| == |q.entries|
            && (forall i :: 0 <= i < |q.entries| ==>
                  q'.entries[i] == if q.entries[i].Some? && q.entries[i].value.id == id then None else q.entries[i])
            && forall other :: other != id ==> (Active(q', other) <==> Active(q, other))
  {
  }

  ghost predicate Active(q: Queue, id: nat) {
    exists i :: 0 <= i < |q.entries| && q.entries[i].Some? && q.entries[i].value.id == id
  }

  // ---------------------------------------------------------------- what advance reports

  /** The keys are those of the due timers. */
  lemma {:induction false} DueKeysMeaning(es: seq<Option<Entry>>, now: nat, k: Key)
    ensures k in DueKeys(es, now) <==> exists i :: 0 <= i < |es| && Due(es[i], now) && KeyOf(es[i].value) == k
  {
    if es != [] {
      var front, last := es[..|es| - 1], es[|es| - 1];
      DueKeysMeaning(front, now, k);
      if exists i :: 0 <= i < |es| && Due(es[i], now) && KeyOf(es[i].value) == k {
        var i :| 0 <= i < |es| && Due(es[i], now) && KeyOf(es[i].value) == k;
        if i < |front| { assert Due(front[i], now); }
      }
      if k in DueKeys(front, now) {
        var i :| 0 <= i < |front| && Due(front[i], now) && KeyOf(front[i].value) == k;
        assert Due(es[i], now);
      }
    }
  }

  predicate Distinct(s: seq<Key>) {
    forall i, j :: 0 <= i < j < |s| ==> s[i].1 != s[j].1
  }

  lemma {:induction false} DueKeysDistinct(q: Queue, n: nat, now: nat)
    requires QueueInv(q) && n <= |q.entries|
    ensures Distinct(DueKeys(q.entries[..n], now))
  {
    if n > 0 {
      var es := q.entries[..n];
      assert es[..n - 1] == q.entries[..n - 1];
      DueKeysDistinct(q, n - 1, now);
      var front := DueKeys(q.entries[..n - 1], now);
      if Due(es[n - 1], now) {
        forall i | 0 <= i < |front| ensures front[i].1 != es[n - 1].value.id {
          assert front[i] in front;
          DueKeysMeaning(q.entries[..n - 1], now, front[i]);
          var m :| 0 <= m < n - 1 && Due(q.entries[..n - 1][m], now) && KeyOf(q.entries[..n - 1][m].value) == front[i];
          assert q.entries[m].value.id != q.entries[n - 1].value.id;
        }
      }
    }
  }

  /** A permutation of distinct keys is distinct. */
  lemma PermutedDistinct(s: seq<Key>, s': seq<Key>)
    requires Distinct(s) && multiset(s') == multiset(s)
    ensures Distinct(s')
  {
    forall i, j | 0 <= i < j < |s'| ensures s'[i].1 != s'[j].1 {
      assert s'[i] in multiset(s') && s'[j] in multiset(s');
      var a :| 0 <= a < |s| && s[a] == s'[i];
      var b :| 0 <= b < |s| && s[b] == s'[j];
      OneOccurrence(s, a);
      if s'[i] == s'[j] { TwoOccurrences(s', i, j); }
    }
  }

  lemma TwoOccurrences(s: seq<Key>, i: nat, j: nat)
    requires i < j < |s| && s[i] == s[j]
    ensures multiset(s)[s[i]] >= 2
  {
    assert s == s[..j] + [s[j]] + s[j + 1..];
    assert s[i] in s[..j];
  }

  lemma OneOccurrence(s: seq<Key>, a: nat)
    requires Distinct(s) && a < |s|
    ensures multiset(s)[s[a]] == 1
  {
    assert s == s[..a] + [s[a]] + s[a + 1..];
    assert s[a] !in s[..a] && s[a] !in s[a + 1..];
  }
}
