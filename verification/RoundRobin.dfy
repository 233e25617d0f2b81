/** The round-robin policy of one CPU (kernel/src/scheduling.rs, `RoundRobin`).

    `Queue` is the value of the policy's fields and the functions on it are the
    specification; class `RoundRobin` updates the same fields in place. `Line` is the
    simple reference view: the running thread followed by the waiting ones. */
module RoundRobin {
  import opened Common

  const MAX_RUNNABLE_THREADS: nat := 256

  datatype Switch = Switch(from: Option<nat>, to: nat)

  datatype QueueError = NoRoom | AlreadyQueued | NotQueued | ZeroQuantum

  datatype Queue = Queue(
    quantum: nat,
    ticks: nat,
    current: Option<nat>,
    runnable: seq<nat>,
    switches: nat,
    preemptions: nat,
    voluntary: nat)

  function NewQueue(quantum: nat): Result<Queue, QueueError> {
    if quantum == 0 then Err(ZeroQuantum) else Ok(Queue(quantum, 0, None, [], 0, 0, 0))
  }

  predicate Contains(q: Queue, t: nat) {
    q.current == Some(t) || t in q.runnable
  }

  /** `admit` and `wake`, which have the same code. */
  function Enqueue(q: Queue, t: nat): (Queue, Result<Option<Switch>, QueueError>) {
    if Contains(q, t) then (q, Err(AlreadyQueued))
    else if |q.runnable| >= MAX_RUNNABLE_THREADS then (q, Err(NoRoom))
    else if q.current.None? then
      (q.(current := Some(t), switches := SatInc(q.switches)), Ok(Some(Switch(None, t))))
    else
      (q.(runnable := q.runnable + [t]), Ok(None))
  }

  function DispatchNext(q: Queue): (Queue, Option<Switch>) {
    if q.runnable == [] then (q, None)
    else
      var next := q.runnable[0];
      (q.(current := Some(next), runnable := q.runnable[1..], switches := SatInc(q.switches)),
       Some(Switch(q.current, next)))
  }

  function RotateCurrent(q: Queue): (Queue, Option<Switch>) {
    if q.current.None? || q.runnable == [] then (q, None)
    else
      var next := q.runnable[0];
      (q.(current := Some(next), runnable := q.runnable[1..] + [q.current.value], switches := SatInc(q.switches)),
       Some(Switch(q.current, next)))
  }

  function Tick(q: Queue): (Queue, Option<Switch>) {
    if q.current.None? then DispatchNext(q)
    else
      var q1 := q.(ticks := SatInc(q.ticks));
      if q1.ticks < q1.quantum then (q1, None)
      else
        var (q2, next) := RotateCurrent(q1.(ticks := 0));
        (if next.Some? then q2.(preemptions := SatInc(q2.preemptions)) else q2, next)
  }

  function YieldCurrent(q: Queue): (Queue, Option<Switch>) {
    var (q1, next) := RotateCurrent(q.(ticks := 0));
    (if next.Some? then q1.(voluntary := SatInc(q1.voluntary)) else q1, next)
  }

  function BlockCurrent(q: Queue): (Queue, Option<Switch>) {
    if q.current.None? then (q.(ticks := 0), None)
    else
      var (q1, next) := DispatchNext(q.(ticks := 0, current := None));
      (q1, if next.None? then None else Some(Switch(q.current, next.value.to)))
  }

  function Remove(q: Queue, t: nat): (Queue, Result<Option<Switch>, QueueError>) {
    if q.current == Some(t) then
      var (q1, next) := DispatchNext(q.(current := None, ticks := 0));
      (q1, Ok(next))
    else
      match IndexOf(q.runnable, Id, t)
      case None => (q, Err(NotQueued))
      case Some(i) => (q.(runnable := RemoveAt(q.runnable, i)), Ok(None))
  }

  /** The running thread (if any) followed by the waiting threads in order. */
  function Line(q: Queue): seq<nat> {
    (if q.current.Some? then [q.current.value] else []) + q.runnable
  }

  /** Threads queued or running on this CPU, the load the balancer looks at. */
  function Load(q: Queue): nat {
    |q.runnable| + if q.current.Some? then 1 else 0
  }

  /** What every reachable queue satisfies: an idle CPU has an empty queue and a fresh
      quantum, no thread stands in line twice, and the quantum is never overrun. */
  ghost predicate QueueOk(q: Queue) {
    && 0 < q.quantum <= U64_MAX
    && q.ticks < q.quantum
    && (q.current.None? ==> q.runnable == [] && q.ticks == 0)
    && Unique(Line(q), Id)
  }

  /** Under `QueueOk` the line is the whole state: its head runs, its length is the load. */
  lemma LineView(q: Queue)
    requires QueueOk(q)
    ensures |Line(q)| == Load(q)
    ensures q.current == (if Line(q) == [] then None else Some(Line(q)[0]))
    ensures q.runnable == (if Line(q) == [] then [] else Line(q)[1..])
    ensures forall t :: Contains(q, t) <==> t in Line(q)
  {
  }

  /** Joining puts the thread at the end of the line. It is refused exactly when the thread
      already stands there or 256 threads wait, and then nothing changes. */
  lemma EnqueueLine(q: Queue, t: nat)
    requires QueueOk(q)
    ensures var (q', r) := Enqueue(q, t);
            && QueueOk(q')
            && (r.Err? <==> t in Line(q) || |q.runnable| >= MAX_RUNNABLE_THREADS)
            && (r.Err? ==> q' == q)
            && (r.Ok? ==> Line(q') == Line(q) + [t] && q'.ticks == q.ticks && q'.quantum == q.quantum)
            && (r.Ok? ==> r.value == if Line(q) == [] then Some(Switch(None, t)) else None)
  {
    var (q', r) := Enqueue(q, t);
    if r.Ok? { assert Line(q') == Line(q) + [t]; }
  }

  /** Giving up the CPU sends the head of the line to its end. */
  lemma RotateLine(q: Queue)
    requires QueueOk(q)
    ensures var (q', sw) := RotateCurrent(q);
            && QueueOk(q') && q'.ticks == q.ticks && q'.quantum == q.quantum
            && (|Line(q)| < 2 ==> q' == q && sw.None?)
            && (|Line(q)| >= 2 ==>
                  Line(q') == Line(q)[1..] + [Line(q)[0]] && sw == Some(Switch(Some(Line(q)[0]), Line(q)[1])))
  {
  }

  lemma TickLine(q: Queue)
    requires QueueOk(q)
    ensures var (q', sw) := Tick(q);
            && QueueOk(q') && q'.quantum == q.quantum
            && (Line(q) == [] ==> q' == q && sw.None?)
            && (Line(q) != [] && q.ticks + 1 < q.quantum ==>
                  Line(q') == Line(q) && q'.ticks == q.ticks + 1 && sw.None?)
            && (Line(q) != [] && q.ticks + 1 == q.quantum ==>
                  q'.ticks == 0
                  && Line(q') == (if |Line(q)| == 1 then Line(q) else Line(q)[1..] + [Line(q)[0]])
                  && sw == if |Line(q)| == 1 then None else Some(Switch(Some(Line(q)[0]), Line(q)[1])))
  {
    if q.current.Some? {
      hide RotateCurrent;
    RotateLine(q.(ticks := 0));
    }
  }

  lemma YieldLine(q: Queue)
    requires QueueOk(q)
    ensures var (q', sw) := YieldCurrent(q);
            && QueueOk(q') && q'.ticks == 0 && q'.quantum == q.quantum
            && Line(q') == (if |Line(q)| < 2 then Line(q) else Line(q)[1..] + [Line(q)[0]])
            && sw == if |Line(q)| < 2 then None else Some(Switch(Some(Line(q)[0]), Line(q)[1]))
  {
    hide RotateCurrent;
    RotateLine(q.(ticks := 0));
  }

  lemma BlockCurrentLine(q: Queue)
    requires QueueOk(q)
    ensures var (q', sw) := BlockCurrent(q);
            && QueueOk(q') && q'.ticks == 0 && q'.quantum == q.quantum
            && Line(q') == (if Line(q) == [] then [] else Line(q)[1..])
            && sw == if |Line(q)| < 2 then None else Some(Switch(Some(Line(q)[0]), Line(q)[1]))
  {
  }

  /** Leaving closes the gap in the line; only if the head leaves does the CPU switch. */
  lemma RemoveLine(q: Queue, t: nat)
    requires QueueOk(q)
    ensures var (q', r) := Remove(q, t);
            && QueueOk(q') && q'.quantum == q.quantum
            && (r.Ok? <==> t in Line(q))
            && (r.Err? ==> q' == q)
            && (r.Ok? ==> var i := IndexOf(Line(q), Id, t);
                  && i.Some?
                  && Line(q') == RemoveAt(Line(q), i.value)
                  && q'.ticks == (if i.value == 0 then 0 else q.ticks)
                  && r.value == if i.value == 0 && |Line(q)| > 1 then Some(Switch(None, Line(q)[1])) else None)
  {
    var (q', r) := Remove(q, t);
    if q.current == Some(t) {
      UniqueIndex(Line(q), Id, 0);
      assert Line(q') == RemoveAt(Line(q), 0);
    } else if r.Ok? {
      var i := IndexOf(q.runnable, Id, t).value;
      assert Line(q)[i + 1] == t;
      UniqueIndex(Line(q), Id, i + 1);
      assert Line(q') == RemoveAt(Line(q), i + 1);
    } else {
      assert forall j :: 0 <= j < |q.runnable| ==> Id(q.runnable[j]) != t;
    }
  }

  /** Removing a waiting thread takes it out of the queue and leaves the running one alone. */
  lemma RemoveWaiting(q: Queue, k: nat)
    requires QueueOk(q) && k < |q.runnable|
    ensures var (q', r) := Remove(q, q.runnable[k]);
            && r == Ok(None) && q'.current == q.current && q'.runnable == RemoveAt(q.runnable, k)
            && q'.ticks == q.ticks && q'.quantum == q.quantum
  {
    var line := Line(q);
    assert Id(line[0]) != Id(line[k + 1]);
    forall i, j | 0 <= i < j < |q.runnable| ensures Id(q.runnable[i]) != Id(q.runnable[j]) {
      assert Id(line[i + 1]) != Id(line[j + 1]);
    }
    UniqueIndex(q.runnable, Id, k);
  }

  // ---------------------------------------------------------------- bounded waiting

  /** Everything that can happen to one CPU's queue. `Untouched` stands for activity elsewhere. */
  datatype QueueEvent =
    | TimerTick
    | Yields
    | Joins(thread: nat)
    | Leaves(thread: nat)
    | Blocks
    | Untouched

  function Apply(q: Queue, e: QueueEvent): Queue {
    match e
    case TimerTick => Tick(q).0
    case Yields => YieldCurrent(q).0
    case Joins(t) => Enqueue(q, t).0
    case Leaves(t) => Remove(q, t).0
    case Blocks => BlockCurrent(q).0
    case Untouched => q
  }

  function Ticks(es: seq<QueueEvent>): nat {
    if es == [] then 0 else Ticks(es[..|es| - 1]) + if es[|es| - 1].TimerTick? then 1 else 0
  }

  lemma {:induction false} TicksCons(es: seq<QueueEvent>)
    requires es != []
    ensures Ticks(es) == Ticks(es[1..]) + if es[0].TimerTick? then 1 else 0
  {
    if |es| > 1 {
      var front := es[..|es| - 1];
      TicksCons(front);
      assert front[1..] == es[1..][..|es| - 2];
    }
  }

  /** A run of queue states: each comes from the one before by the event between them. */
  ghost predicate QueueRun(qs: seq<Queue>, es: seq<QueueEvent>) {
    && |qs| == |es| + 1
    && forall i :: 0 <= i < |es| ==> qs[i + 1] == Apply(qs[i], es[i])
  }

  /** Timer ticks until `t` must be running: the quanta of those ahead, less the time used. */
  function Patience(q: Queue, t: nat): int {
    match IndexOf(Line(q), Id, t)
    case None => 0
    case Some(p) => p * q.quantum - q.ticks
  }

  lemma EventKeepsQueue(q: Queue, e: QueueEvent)
    requires QueueOk(q)
    ensures QueueOk(Apply(q, e)) && Apply(q, e).quantum == q.quantum
  {
    match e
    case TimerTick => TickLine(q);
    case Yields => YieldLine(q);
    case Joins(t) => EnqueueLine(q, t);
    case Leaves(t) => RemoveLine(q, t);
    case Blocks => BlockCurrentLine(q);
    case Untouched =>
  }

  lemma StepAhead(p: nat, quantum: nat, ticks: nat)
    requires p > 0 && ticks < quantum
    ensures (p - 1) * quantum == p * quantum - quantum
    ensures 0 <= (p - 1) * quantum < p * quantum - ticks
  {
    NoLess(p - 1, quantum);
  }

  lemma NoLess(a: nat, b: nat)
    ensures a * b >= 0
  {
  }

  lemma WaitsBehind(q: Queue, t: nat)
    requires QueueOk(q) && t in Line(q) && q.current != Some(t)
    ensures IndexOf(Line(q), Id, t).Some? && IndexOf(Line(q), Id, t).value > 0
  {
    LineView(q);
  }

  /** Removing someone else from the line never moves `t` back. */
  lemma RemovedAhead(line: seq<nat>, i: nat, p: nat)
    requires Unique(line, Id) && i < |line| && p < |line| && i != p
    ensures IndexOf(RemoveAt(line, i), Id, line[p]) == Some(if i < p then p - 1 else p)
  {
    LookupRemove(line, Id, i);
    UniqueIndex(RemoveAt(line, i), Id, if i < p then p - 1 else p);
  }

  lemma MovedUp(line: seq<nat>, p: nat)
    requires Unique(line, Id) && 0 < p < |line|
    ensures IndexOf(line[1..], Id, line[p]) == Some(p - 1)
    ensures IndexOf(line[1..] + [line[0]], Id, line[p]) == Some(p - 1)
  {
    UniqueIndex(line[1..], Id, p - 1);
    var rotated := line[1..] + [line[0]];
    assert forall k :: 0 <= k < |rotated| ==> rotated[k] == if k == |line| - 1 then line[0] else line[k + 1];
    UniqueIndex(rotated, Id, p - 1);
  }

  lemma EnqueueKeepsWaiter(q: Queue, u: nat, t: nat)
    requires QueueOk(q) && t in Line(q)
    ensures IndexOf(Line(Enqueue(q, u).0), Id, t) == IndexOf(Line(q), Id, t)
  {
    EnqueueLine(q, u);
    var q' := Enqueue(q, u).0;
    var p := IndexOf(Line(q), Id, t).value;
    UniqueIndex(Line(q'), Id, p);
  }

  /** Every event that does not take a waiting thread out moves it up, or leaves its place and counts the
      tick. */
  lemma WaiterMoves(q: Queue, t: nat, e: QueueEvent)
    requires QueueOk(q) && t in Line(q) && q.current != Some(t) && e != Leaves(t)
    ensures var q' := Apply(q, e); var p := IndexOf(Line(q), Id, t); var p' := IndexOf(Line(q'), Id, t);
            && t in Line(q') && p.Some? && p.value > 0 && p'.Some?
            && (q'.current == Some(t) || p'.value < p.value
                || (p' == p && q.ticks + (if e.TimerTick? then 1 else 0) <= q'.ticks))
  {
    var q' := Apply(q, e);
    EventKeepsQueue(q, e);
    var line := Line(q);
    var p := IndexOf(line, Id, t).value;
    assert line[p] == t && p > 0;
    match e
    case TimerTick =>
      TickLine(q); MovedUp(line, p);
    case Yields =>
      YieldLine(q); MovedUp(line, p);
    case Joins(u) =>
      EnqueueLine(q, u); EnqueueKeepsWaiter(q, u, t);
    case Leaves(u) =>
      RemoveLine(q, u);
      var i := IndexOf(line, Id, u);
      if i.Some? { RemovedAhead(line, i.value, p); }
    case Blocks =>
      BlockCurrentLine(q); MovedUp(line, p);
    case Untouched =>
  }

  lemma {:induction false} FewerAhead(p: nat, p': nat, quantum: nat)
    requires p' < p
    ensures p' * quantum <= p * quantum - quantum
  {
    if p' == p - 1 {
      assert p * quantum == p' * quantum + quantum;
    } else {
      FewerAhead(p - 1, p', quantum);
      assert p * quantum == (p - 1) * quantum + quantum;
    }
  }

  /** One event, other than the removal of `t` itself, leaves a waiting `t` in the line and
      never makes it wait longer; a timer tick brings it strictly closer. */
  lemma PatienceFalls(q: Queue, t: nat, e: QueueEvent)
    requires QueueOk(q) && t in Line(q) && q.current != Some(t)
    requires e != Leaves(t)
    ensures var q' := Apply(q, e);
            && t in Line(q')
            && (q'.current == Some(t)
                || Patience(q', t) + (if e.TimerTick? then 1 else 0) <= Patience(q, t))
  {
    hide Apply, Line;
    WaiterMoves(q, t, e);
    EventKeepsQueue(q, e);
    var p, p' := IndexOf(Line(q), Id, t).value, IndexOf(Line(Apply(q, e)), Id, t).value;
    if p' < p { FewerAhead(p, p', q.quantum); }
  }

  /** A waiting thread's patience is positive. */
  lemma PatiencePositive(q: Queue, t: nat)
    requires QueueOk(q) && t in Line(q) && q.current != Some(t)
    ensures Patience(q, t) > 0
  {
    hide Line;
    WaitsBehind(q, t);
    StepAhead(IndexOf(Line(q), Id, t).value, q.quantum, q.ticks);
  }

  lemma RunTail(qs: seq<Queue>, es: seq<QueueEvent>)
    requires QueueRun(qs, es) && es != []
    ensures QueueRun(qs[1..], es[1..]) && qs[1] == Apply(qs[0], es[0])
  {
  }

  /** Bounded waiting. A thread with `p - 1` threads waiting before it runs within
      `p * quantum` timer ticks of its CPU, whatever joins, leaves, yields and blocks in
      between, unless it is itself removed. */
  lemma {:induction false} BoundedWaiting(qs: seq<Queue>, es: seq<QueueEvent>, t: nat)
    requires QueueRun(qs, es) && QueueOk(qs[0]) && t in Line(qs[0])
    requires Leaves(t) !in es
    requires Ticks(es) >= Patience(qs[0], t)
    ensures exists n :: 0 <= n < |qs| && qs[n].current == Some(t)
    decreases |es|
  {
    if qs[0].current != Some(t) {
      PatiencePositive(qs[0], t);
      assert es != [];
      TicksCons(es);
      PatienceFalls(qs[0], t, es[0]);
      EventKeepsQueue(qs[0], es[0]);
      RunTail(qs, es);
      if qs[1].current != Some(t) {
        BoundedWaiting(qs[1..], es[1..], t);
        var n :| 0 <= n < |qs[1..]| && qs[1..][n].current == Some(t);
        assert qs[n + 1].current == Some(t);
      }
    }
  }

  /** The patience of a thread with `k` waiting threads before it is at most `(k + 1)` quanta. */
  lemma PatienceBound(q: Queue, k: nat)
    requires QueueOk(q) && k < |q.runnable|
    ensures q.runnable[k] in Line(q)
    ensures Patience(q, q.runnable[k]) <= (k + 1) * q.quantum
  {
    assert Line(q)[k + 1] == q.runnable[k];
    UniqueIndex(Line(q), Id, k + 1);
  }

  // ---------------------------------------------------------------- the object

  class RoundRobin {
    var quantumTicks: nat
    var ticksInQuantum: nat
    var current: Option<nat>
    var runnable: seq<nat>
    var contextSwitches: nat
    var preemptions: nat
    var voluntarySwitches: nat

    function State(): Queue
      reads this
    {
      Queue(quantumTicks, ticksInQuantum, current, runnable, contextSwitches, preemptions, voluntarySwitches)
    }

    constructor (quantum: nat)
      requires quantum > 0
      ensures Ok(State()) == NewQueue(quantum)
      ensures quantum <= U64_MAX ==> QueueOk(State())
    {
      quantumTicks := quantum;
      ticksInQuantum := 0;
      current := None;
      runnable := [];
      contextSwitches := 0;
      preemptions := 0;
      voluntarySwitches := 0;
    }

    method Admit(t: nat) returns (r: Result<Option<Switch>, QueueError>)
      modifies this
      ensures (State(), r) == Enqueue(old(State()), t)
    {
      if current == Some(t) || t in runnable {
        return Err(AlreadyQueued);
      }
      if |runnable| >= MAX_RUNNABLE_THREADS {
        return Err(NoRoom);
      }
      if current.None? {
        current := Some(t);
        contextSwitches := SatInc(contextSwitches);
        return Ok(Some(Switch(None, t)));
      }
      runnable := runnable + [t];
      return Ok(None);
    }

    method PopNext() returns (sw: Option<Switch>)
      modifies this
      ensures (State(), sw) == DispatchNext(old(State()))
    {
      if runnable == [] {
        return None;
      }
      var next := runnable[0];
      var from := current;
      runnable := runnable[1..];
      current := Some(next);
      contextSwitches := SatInc(contextSwitches);
      return Some(Switch(from, next));
    }

    method Rotate() returns (sw: Option<Switch>)
      modifies this
      ensures (State(), sw) == RotateCurrent(old(State()))
    {
      if current.None? || runnable == [] {
        return None;
      }
      var from, next := current.value, runnable[0];
      runnable := runnable[1..] + [from];
      current := Some(next);
      contextSwitches := SatInc(contextSwitches);
      return Some(Switch(Some(from), next));
    }

    method TimerInterrupt() returns (sw: Option<Switch>)
      modifies this
      ensures (State(), sw) == Tick(old(State()))
    {
      if current.None? {
        sw := PopNext();
        return;
      }
      ticksInQuantum := SatInc(ticksInQuantum);
      if ticksInQuantum < quantumTicks {
        return None;
      }
      ticksInQuantum := 0;
      sw := Rotate();
      if sw.Some? {
        preemptions := SatInc(preemptions);
      }
    }

    method GiveUp() returns (sw: Option<Switch>)
      modifies this
      ensures (State(), sw) == YieldCurrent(old(State()))
    {
      ticksInQuantum := 0;
      sw := Rotate();
      if sw.Some? {
        voluntarySwitches := SatInc(voluntarySwitches);
      }
    }

    method Park() returns (sw: Option<Switch>)
      modifies this
      ensures (State(), sw) == BlockCurrent(old(State()))
    {
      ticksInQuantum := 0;
      if current.None? {
        return None;
      }
      var from := current;
      current := None;
      var next := PopNext();
      return if next.None? then None else Some(Switch(from, next.value.to));
    }

    method Withdraw(t: nat) returns (r: Result<Option<Switch>, QueueError>)
      modifies this
      ensures (State(), r) == Remove(old(State()), t)
    {
      if current == Some(t) {
        current := None;
        ticksInQuantum := 0;
        var next := PopNext();
        return Ok(next);
      }
      var index := IndexOf(runnable, Id, t);
      if index.None? {
        return Err(NotQueued);
      }
      runnable := RemoveAt(runnable, index.value);
      return Ok(None);
    }
  }
}
