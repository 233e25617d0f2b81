/** The mutable timer queue (`InterruptTimerQueue` in kernel/src/interrupt_model.rs): a fixed array of slots, an
    output array filled and sorted in place, proved against the operations on values. */
module InterruptTimerQueue {
  import opened Common
  import opened Timers
  import T = Timers
  import opened TimerRuns

  /** The keys spread over two parallel arrays. */
  function Pairs(deadlines: seq<nat>, ids: seq<nat>): seq<Key>
    requires |deadlines| == |ids|
  {
    seq(|ids|, i requires 0 <= i < |ids| => (deadlines[i], ids[i]))
  }

  lemma PairsIds(deadlines: seq<nat>, ids: seq<nat>)
    requires |deadlines| == |ids|
    ensures Ids(Pairs(deadlines, ids)) == ids
  {
  }

  lemma InsertStep(s: seq<Key>, x: Key, position: nat)
    requires 0 < position <= |s| && Before(x, s[position - 1])
    ensures Insert(s[..position], x) + s[position..] == Insert(s[..position - 1], x) + s[position - 1..]
  {
    assert s[..position][..position - 1] == s[..position - 1];
    assert s[position - 1..] == [s[position - 1]] + s[position..];
  }

  /** The keys `s` with `x` put in at `position`. */
  function Around(s: seq<Key>, x: Key, position: nat): seq<Key>
    requires position <= |s|
  {
    s[..position] + [x] + s[position..]
  }

  /** A sequence with its entry number `k` swapped with the one before. */
  function Swapped(s: seq<nat>, k: nat): seq<nat>
    requires 0 < k < |s|
  {
    s[k - 1 := s[k]][k := s[k - 1]]
  }

  lemma AroundAt(s: seq<Key>, x: Key, position: nat)
    requires position <= |s|
    ensures Around(s, x, position)[position] == x
    ensures position > 0 ==> Around(s, x, position)[position - 1] == s[position - 1]
  {
  }

  lemma AroundEnd(s: seq<Key>, x: Key)
    ensures Around(s, x, |s|) == s + [x]
  {
  }

  /** Swapping `x` with the key before it, in both arrays, moves it one place down and leaves the rest alone. */
  lemma SwapSinks(deadlines: seq<nat>, ids: seq<nat>, s: seq<Key>, x: Key, position: nat)
    requires 0 < position <= |s| < |deadlines| && |s| < |ids|
    requires Pairs(deadlines[..|s| + 1], ids[..|s| + 1]) == Around(s, x, position)
    ensures Pairs(Swapped(deadlines, position)[..|s| + 1], Swapped(ids, position)[..|s| + 1])
            == Around(s, x, position - 1)
    ensures Swapped(deadlines, position)[|s| + 1..] == deadlines[|s| + 1..]
    ensures Swapped(ids, position)[|s| + 1..] == ids[|s| + 1..]
  {
    var was, now := Around(s, x, position), Around(s, x, position - 1);
    var pairs := Pairs(Swapped(deadlines, position)[..|s| + 1], Swapped(ids, position)[..|s| + 1]);
    forall k | 0 <= k <= |s| ensures pairs[k] == now[k] {
      assert was[k] == (deadlines[k], ids[k]);
      assert was[position] == (deadlines[position], ids[position]);
      assert was[position - 1] == (deadlines[position - 1], ids[position - 1]);
    }
  }

  /** One turn of the outer loop: key number `index` sinks into the sorted ones before it. */
  method Sink(deadlines: array<nat>, ids: array<nat>, index: nat)
    requires deadlines != ids && index < deadlines.Length && index < ids.Length
    modifies deadlines, ids
    ensures Pairs(deadlines[..index + 1], ids[..index + 1])
            == Insert(old(Pairs(deadlines[..index], ids[..index])), old((deadlines[index], ids[index])))
    ensures deadlines[index + 1..] == old(deadlines[index + 1..]) && ids[index + 1..] == old(ids[index + 1..])
  {
    hide Insert, Around, Swapped;
    ghost var s := Pairs(deadlines[..index], ids[..index]);
    ghost var x := (deadlines[index], ids[index]);
    var position := index;
    AroundEnd(s, x);
    assert Pairs(deadlines[..index + 1], ids[..index + 1]) == s + [x];
    assert s[..index] == s && s[index..] == [] && Insert(s, x) + [] == Insert(s, x);
    while position > 0 && Before((deadlines[position], ids[position]), (deadlines[position - 1], ids[position - 1]))
      invariant 0 <= position <= index == |s|
      invariant Pairs(deadlines[..index + 1], ids[..index + 1]) == Around(s, x, position)
      invariant deadlines[index + 1..] == old(deadlines[index + 1..]) && ids[index + 1..] == old(ids[index + 1..])
      invariant Insert(s, x) == Insert(s[..position], x) + s[position..]
    {
      ApartAt(deadlines[..index + 1], ids[..index + 1], s, x, position);
      InsertStep(s, x, position);
      SwapSinks(deadlines[..], ids[..], s, x, position);
      SwapPair(deadlines, position);
      SwapPair(ids, position);
      position := position - 1;
    }
    ApartAt(deadlines[..index + 1], ids[..index + 1], s, x, position);
    InsertHere(s, x, position);
    AroundIs(s, x, position);
  }

  method SwapPair(a: array<nat>, k: nat)
    requires 0 < k < a.Length
    modifies a
    ensures a[..] == Swapped(old(a[..]), k)
  {
    a[k - 1], a[k] := a[k], a[k - 1];
  }

  /** The keys the guard of the inner loop compares. */
  lemma ApartAt(deadlines: seq<nat>, ids: seq<nat>, s: seq<Key>, x: Key, position: nat)
    requires position <= |s| && |deadlines| == |ids| == |s| + 1 && Pairs(deadlines, ids) == Around(s, x, position)
    ensures (deadlines[position], ids[position]) == x
    ensures position > 0 ==> (deadlines[position - 1], ids[position - 1]) == s[position - 1]
  {
    AroundAt(s, x, position);
    assert Pairs(deadlines, ids)[position] == (deadlines[position], ids[position]);
    if position > 0 {
      assert Pairs(deadlines, ids)[position - 1] == (deadlines[position - 1], ids[position - 1]);
    }
  }

  lemma AroundIs(s: seq<Key>, x: Key, position: nat)
    requires position <= |s|
    ensures Around(s, x, position) == s[..position] + [x] + s[position..]
  {
  }

  lemma InsertHere(s: seq<Key>, x: Key, position: nat)
    requires position <= |s| && (position == 0 || !Before(x, s[position - 1]))
    ensures Insert(s[..position], x) == s[..position] + [x]
  {
  }

  /** The two nested loops sort the first `count` keys. */
  method SortFired(deadlines: array<nat>, ids: array<nat>, count: nat)
    requires deadlines != ids && count <= deadlines.Length && count <= ids.Length
    modifies deadlines, ids
    ensures Pairs(deadlines[..count], ids[..count]) == Sorted(old(Pairs(deadlines[..count], ids[..count])))
    ensures ids[count..] == old(ids[count..])
  {
    hide Sorted;
    ghost var s := Pairs(deadlines[..count], ids[..count]);
    var index := if count == 0 then 0 else 1;
    SortedStart(s);
    assert index == 1 ==> Pairs(deadlines[..1], ids[..1]) == s[..1];
    while index < count
      invariant (if count == 0 then 0 else 1) <= index <= count
      invariant Pairs(deadlines[..index], ids[..index]) == Sorted(s[..index])
      invariant forall j :: index <= j < deadlines.Length ==> deadlines[j] == old(deadlines[j])
      invariant forall j :: index <= j < ids.Length ==> ids[j] == old(ids[j])
    {
      SortedNext(s, index);
      Sink(deadlines, ids, index);
      index := index + 1;
    }
    assert s[..count] == s;
  }

  lemma SortedStart(s: seq<Key>)
    ensures Sorted([]) == [] && (s != [] ==> Sorted(s[..1]) == s[..1]) && s[..0] == []
  {
  }

  lemma SortedNext(s: seq<Key>, index: nat)
    requires index < |s|
    ensures Sorted(s[..index + 1]) == Insert(Sorted(s[..index]), s[index])
  {
    assert s[..index + 1][..index] == s[..index];
  }

  lemma DueKeysNext(es: seq<Option<Entry>>, now: nat, i: nat)
    requires i < |es|
    ensures DueKeys(es[..i + 1], now) == DueKeys(es[..i], now) + if Due(es[i], now) then [KeyOf(es[i].value)] else []
    ensures |DueKeys(es[..i], now)| <= i
  {
    assert es[..i + 1][..i] == es[..i];
    DueKeysBound(es[..i], now);
  }

  lemma {:induction false} DueKeysBound(es: seq<Option<Entry>>, now: nat)
    ensures |DueKeys(es, now)| <= |es|
  {
    if es != [] { DueKeysBound(es[..|es| - 1], now); }
  }

  lemma {:induction false} DueKeysGrow(es: seq<Option<Entry>>, now: nat, i: nat)
    requires i <= |es|
    ensures |DueKeys(es[..i], now)| <= |DueKeys(es, now)|
  {
    if i == |es| {
      assert es[..i] == es;
    } else {
      DueKeysGrow(es[..|es| - 1], now, i);
      assert es[..|es| - 1][..i] == es[..i];
    }
  }

  class InterruptTimerQueue {
    const entries: array<Option<Entry>>
    var nextId: nat
    var lastNow: nat

    function State(): Queue
      reads this, entries
    {
      Queue(entries[..], nextId, lastNow)
    }

    ghost predicate Valid()
      reads this, entries
    {
      QueueInv(State())
    }

    constructor (capacity: nat)
      ensures Valid() && fresh(entries) && State() == Queue(seq(capacity, i => None), 0, 0)
    {
      entries := new Option<Entry>[capacity](i => None);
      nextId, lastNow := 0, 0;
      new;
      assert entries[..] == seq(capacity, i => None);
    }

    method Schedule(deadline: nat, mode: Mode) returns (r: Result<nat, TimerError>)
      requires Valid() && deadline <= U64_MAX && (mode.Periodic? ==> mode.period <= U64_MAX)
      modifies this, entries
      ensures Valid() && (State(), r) == T.Schedule(old(State()), deadline, mode)
    {
      ScheduleKeeps(State(), deadline, mode);
      if deadline == U64_MAX { return Err(InvalidDeadline); }
      if mode == Periodic(0) { return Err(InvalidPeriod); }
      var slot := EmptySlot(entries[..], 0);
      if slot.None? { return Err(Capacity); }
      if nextId >= U32_MAX { return Err(Capacity); }
      var id := nextId;
      nextId := nextId + 1;
      entries[slot.value] := Some(Entry(id, deadline, mode));
      r := Ok(id);
    }

    method Cancel(id: nat) returns (r: Result<(), TimerError>)
      requires Valid()
      modifies entries
      ensures Valid() && (State(), r) == T.Cancel(old(State()), id)
    {
      CancelKeeps(State(), id);
      var slot := SlotOf(entries[..], id, 0);
      if slot.None? { return Err(UnknownTimer); }
      entries[slot.value] := None;
      r := Ok(());
    }

    /** On success the first entries of `fired` are the reported timers; on any error neither the queue nor
        `fired` has changed. */
    method Advance(now: nat, fired: array<nat>) returns (r: Result<nat, TimerError>)
      requires Valid() && now <= U64_MAX
      modifies this, entries, fired
      ensures Valid() && PeriodsOk(old(State()).entries)
      ensures var (q, reported) := T.Advance(old(State()), now, fired.Length);
              && State() == q
              && (reported.Err? ==> r == Err(reported.error) && fired[..] == old(fired[..]))
              && (reported.Ok? ==> r == Ok(|reported.value|) && |reported.value| <= fired.Length
                                   && fired[..] == reported.value + old(fired[..])[|reported.value|..])
    {
      hide QueueInv, DueKeys, Sorted, Reports, Fits, Moves, FirstError, Ids;
      AdvanceExactly(State(), now, fired.Length);
      if now < lastNow { return Err(ClockWentBackwards); }
      var due := CountDue(now);
      if due > fired.Length { return Err(OutputFull); }
      var failed := CheckReschedules(now);
      if failed.Some? { return Err(failed.value); }
      lastNow := now;
      var deadlines := new nat[entries.Length](_ => 0);
      var count := CollectDue(now, fired, deadlines);
      SortFired(deadlines, fired, count);
      PairsIds(deadlines[..count], fired[..count]);
      SortedSorts(DueKeys(old(State()).entries, now));
      assert fired[..] == fired[..count] + fired[count..];
      RescheduleDue(now);
      r := Ok(count);
    }

    method CountDue(now: nat) returns (due: nat)
      ensures due == |DueKeys(entries[..], now)|
    {
      due := 0;
      var i := 0;
      while i < entries.Length
        invariant 0 <= i <= entries.Length && due == |DueKeys(entries[..][..i], now)|
      {
        DueKeysNext(entries[..], now, i);
        if Due(entries[i], now) { due := due + 1; }
        i := i + 1;
      }
      assert entries[..][..i] == entries[..];
    }

    method CheckReschedules(now: nat) returns (failed: Option<TimerError>)
      requires PeriodsOk(entries[..]) && now <= U64_MAX
      ensures failed == FirstError(entries[..], now, 0)
    {
      var i := 0;
      while i < entries.Length
        invariant 0 <= i <= entries.Length && FirstError(entries[..], now, 0) == FirstError(entries[..], now, i)
      {
        assert entries[..][i] == entries[i];
        if Due(entries[i], now) && entries[i].value.mode.Periodic? {
          var period := entries[i].value.mode.period;
          var elapsed := now - entries[i].value.deadline;
          if elapsed / period + 1 > U64_MAX { return Some(ArithmeticPanic); }
          var increment := period * (elapsed / period + 1);
          if increment > U64_MAX { return Some(DeadlineOverflow); }
          if entries[i].value.deadline + increment > U64_MAX { return Some(DeadlineOverflow); }
        }
        i := i + 1;
      }
      failed := None;
    }

    method CollectDue(now: nat, fired: array<nat>, deadlines: array<nat>) returns (count: nat)
      requires fired != deadlines && deadlines.Length == entries.Length && |DueKeys(entries[..], now)| <= fired.Length
      modifies fired, deadlines
      ensures count == |DueKeys(entries[..], now)| <= deadlines.Length
      ensures Pairs(deadlines[..count], fired[..count]) == DueKeys(entries[..], now)
      ensures fired[count..] == old(fired[count..])
    {
      hide DueKeys;
      count := 0;
      var i := 0;
      DueKeysNone(entries[..], now);
      while i < entries.Length
        invariant 0 <= i <= entries.Length && count == |DueKeys(entries[..][..i], now)| <= i
        invariant count <= fired.Length
        invariant Pairs(deadlines[..count], fired[..count]) == DueKeys(entries[..][..i], now)
        invariant forall j :: count <= j < fired.Length ==> fired[j] == old(fired[j])
      {
        DueKeysNext(entries[..], now, i);
        DueKeysGrow(entries[..], now, i + 1);
        if Due(entries[i], now) {
          ghost var before := Pairs(deadlines[..count], fired[..count]);
          fired[count] := entries[i].value.id;
          deadlines[count] := entries[i].value.deadline;
          assert Pairs(deadlines[..count + 1], fired[..count + 1]) == before + [KeyOf(entries[i].value)];
          count := count + 1;
        }
        i := i + 1;
      }
      assert entries[..][..i] == entries[..];
    }

    method RescheduleDue(now: nat)
      requires PeriodsOk(entries[..])
      modifies entries
      ensures entries[..] == RescheduledAll(old(entries[..]), now)
    {
      ghost var es := entries[..];
      var i := 0;
      while i < entries.Length
        invariant 0 <= i <= entries.Length
        invariant forall j :: 0 <= j < i ==> entries[j] == Rescheduled(es[j], now)
        invariant forall j :: i <= j < entries.Length ==> entries[j] == es[j]
      {
        if Due(entries[i], now) {
          match entries[i].value.mode {
            case OneShot => entries[i] := None;
            case Periodic(period) =>
              var elapsed := now - entries[i].value.deadline;
              var increment := period * (elapsed / period + 1);
              entries[i] := Some(entries[i].value.(deadline := entries[i].value.deadline + increment));
          }
        }
        i := i + 1;
      }
    }
  }

  lemma DueKeysNone(es: seq<Option<Entry>>, now: nat)
    ensures DueKeys(es[..0], now) == []
  {
  }
}
