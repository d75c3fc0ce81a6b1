/**
 The bounded channel of channels/channel.hpp on values: one step per critical section of its spinlock, for
 any capacity of at least one, and one for the return of a receive that had to wait.

 A receive takes a ticket, by which the model names it.  While it waits its awaiter, a local variable of
 `Receive`, lies at some address and is linked into the list of intrusive/structures/list.hpp as that is coded:
 a first consumer is appended to itself and counted twice.  When the receive returns its awaiter is gone, and
 the address may be taken by a later one.  Touching an awaiter that is gone, or null, is a crash.

 `sent` is what the accepted sends brought, in the order of their critical sections; `deliveries` is which
 ticket was handed which value.
 */
module Channel {
  import opened Basics

  type Value(==, !new)

  /** 0 is null. */
  type Addr = nat

  /** `ChannelConsumerAwaiter`; its `prev` is written and never read here, and is left out. */
  datatype Awaiter = Awaiter(ticket: nat, answered: bool, next: Addr)

  type Memory = map<Addr, Awaiter>

  /** `List`, of which some awaiters may be gone. */
  datatype Waiters = Waiters(head: Addr, tail: Addr, size: nat)

  const NOBODY := Waiters(0, 0, 0)

  datatype State = State(
    capacity: nat,
    buffer: seq<Value>,
    waiters: Waiters,
    memory: Memory,
    producers: seq<Value>,
    next: nat,
    sent: seq<Value>,
    deliveries: seq<(nat, Value)>,
    crashed: bool
  )

  /** A call, with the address of its awaiter in case it has to wait, or the return of the receive whose awaiter is there. */
  datatype Event = Sending(value: Value) | TrySending(value: Value) | Receiving(awaiter: Addr) | TryReceiving | Returning(awaiter: Addr)

  function Open(capacity: nat): State {
    State(capacity, [], NOBODY, map[], [], 0, [], [], false)
  }

  /** `List::PushBack` (list.hpp:41-51) writes the link of the tail, which is the new node itself in an empty list. */
  function Linked(memory: Memory, w: Waiters, ticket: nat, a: Addr): Memory {
    var memory := memory[a := Awaiter(ticket, false, 0)];
    var tail := if w.size == 0 then a else w.tail;
    if tail in memory then memory[tail := memory[tail].(next := a)] else memory
  }

  function Appended(w: Waiters, a: Addr): Waiters {
    if w.size == 0 then Waiters(a, a, 2) else Waiters(w.head, a, w.size + 1)
  }

  /** The new awaiter exists when the tail is written to, so the tail may be at the same address. */
  predicate PushTouches(memory: Memory, w: Waiters, a: Addr) {
    w.size > 0 && w.tail != a && w.tail !in memory
  }

  /** `TryPopFront` (54-72) and then `Resume` touch the first awaiter, and the pop also the second, if it counts one. */
  predicate PopTouches(memory: Memory, w: Waiters) {
    w.head !in memory || (w.size > 1 && memory[w.head].next !in memory)
  }

  function Popped(memory: Memory, w: Waiters): Waiters
    requires w.head in memory
  {
    if w.size <= 1 then NOBODY else Waiters(memory[w.head].next, w.tail, w.size - 1)
  }

  /** `TrySendImpl` (74-87) where a place is found, `Send` (29-39) and `TrySend` (41-44) where none is. */
  function SendStep(s: State, value: Value, waits: bool): State {
    if s.waiters.size > 0 then
      if PopTouches(s.memory, s.waiters) then s.(crashed := true)
      else
        var a := s.waiters.head;
        s.(waiters := Popped(s.memory, s.waiters), memory := s.memory[a := s.memory[a].(answered := true)],
           sent := s.sent + [value], deliveries := s.deliveries + [(s.memory[a].ticket, value)])
    else if |s.buffer| < s.capacity then
      s.(buffer := s.buffer + [value], sent := s.sent + [value])
    else if waits then
      s.(producers := s.producers + [value], sent := s.sent + [value])
    else s
  }

  /** `TryTakeValueFromProducersQueue` (89-94), after the oldest value left the buffer. */
  function Refilled(buffer: seq<Value>, producers: seq<Value>): (seq<Value>, seq<Value>) {
    if producers == [] then (buffer, producers) else (buffer + [producers[0]], producers[1..])
  }

  /** `Receive` (46-60) and `TryReceive` (62-71) when there is a value. */
  function TakeStep(s: State): State
    requires s.buffer != []
  {
    var (buffer, producers) := Refilled(s.buffer[1..], s.producers);
    s.(buffer := buffer, producers := producers, next := s.next + 1, deliveries := s.deliveries + [(s.next, s.buffer[0])])
  }

  /** `Receive` when there is none: the awaiter joins the list (54-58). */
  function WaitStep(s: State, a: Addr): State {
    if PushTouches(s.memory, s.waiters, a) then s.(crashed := true)
    else s.(waiters := Appended(s.waiters, a), memory := Linked(s.memory, s.waiters, s.next, a), next := s.next + 1)
  }

  /** An answered receive is resumed and returns (58-60). */
  function ReturnStep(s: State, a: Addr): State {
    if a in s.memory && s.memory[a].answered then s.(memory := s.memory - {a}) else s
  }

  function Step(s: State, e: Event): State {
    if s.crashed then s
    else match e
      case Sending(v) => SendStep(s, v, true)
      case TrySending(v) => SendStep(s, v, false)
      case Receiving(a) => if s.buffer != [] then TakeStep(s) else WaitStep(s, a)
      case TryReceiving => if s.buffer != [] then TakeStep(s) else s
      case Returning(a) => ReturnStep(s, a)
  }

  function Run(s: State, events: seq<Event>): State
    decreases |events|
  {
    if events == [] then s else Run(Step(s, events[0]), events[1..])
  }

  /** An awaiter lies where no other one is. */
  predicate Fits(s: State, e: Event) {
    e.Receiving? && !s.crashed ==> e.awaiter != 0 && e.awaiter !in s.memory
  }

  predicate Possible(s: State, events: seq<Event>)
    decreases |events|
  {
    events == [] || (Fits(s, events[0]) && Possible(Step(s, events[0]), events[1..]))
  }

  /** What a channel is for: the `i`-th receive is handed the `i`-th accepted value, once. */
  ghost predicate Right(s: State) {
    && !s.crashed
    && |s.deliveries| <= |s.sent|
    && forall i | 0 <= i < |s.deliveries| :: s.deliveries[i] == (i, s.sent[i])
  }

  // ---------------------------------------------------------------- when it is right

  /**
   What the events alone make of a channel: nobody has waited for a value yet and `level` values wait; one
   consumer waits that found the list empty; several have waited at once and those in `chain` still do; the
   consumer that waited alone was answered, and is `here` until it returns; or others have queued behind it.
   */
  datatype Mode = Intact(level: nat) | Alone(a: Addr) | Crowded(chain: seq<Addr>) | Spent(a: Addr, here: bool) | Behind

  predicate Sends(e: Event) {
    e.Sending? || e.TrySending?
  }

  /**
   A send is in order unless the list is down to its last consumer or starts with an answered one.  A receive
   that has to wait is in order unless the only consumer in the list is gone and the new one is elsewhere.
   */
  predicate InOrder(m: Mode, e: Event) {
    && (Sends(e) ==> !m.Spent? && !m.Behind? && !(m.Crowded? && |m.chain| <= 1))
    && (e.Receiving? && m.Spent? ==> m.here || e.awaiter == m.a)
  }

  function After(m: Mode, e: Event, capacity: nat): Mode {
    match e
    case Sending(_) => AfterSend(m, true, capacity)
    case TrySending(_) => AfterSend(m, false, capacity)
    case Receiving(a) => AfterReceive(m, a)
    case TryReceiving => if m.Intact? && m.level > 0 then Intact(m.level - 1) else m
    case Returning(a) => if m == Spent(a, true) then Spent(a, false) else m
  }

  function AfterSend(m: Mode, waits: bool, capacity: nat): Mode {
    match m
    case Intact(level) => if waits || level < capacity then Intact(level + 1) else m
    case Alone(a) => Spent(a, true)
    case Crowded(chain) => if chain == [] then m else Crowded(chain[1..])
    case _ => m
  }

  function AfterReceive(m: Mode, a: Addr): Mode {
    match m
    case Intact(level) => if level > 0 then Intact(level - 1) else Alone(a)
    case Alone(b) => Crowded([b, a])
    case Crowded(chain) => Crowded(chain + [a])
    case Spent(b, here) => if here then Behind else Alone(a)
    case Behind => Behind
  }

  predicate AllInOrder(m: Mode, events: seq<Event>, capacity: nat)
    decreases |events|
  {
    events == [] || (InOrder(m, events[0]) && AllInOrder(After(m, events[0], capacity), events[1..], capacity))
  }

  /** The state of a channel whose events were in order so far. */
  ghost predicate Agrees(s: State, m: Mode) {
    && s.capacity > 0 && Right(s) && 0 !in s.memory
    && (if m.Intact? then Stocked(s, m.level) else s.buffer == [] && s.producers == [] && |s.sent| == |s.deliveries|)
    && match m
       case Intact(_) => s.waiters == NOBODY
       case Alone(a) =>
         s.waiters == Waiters(a, a, 2) && s.next == |s.sent| + 1 && a in s.memory && s.memory[a] == Awaiter(|s.sent|, false, a)
       case Crowded(chain) => Queued(s, chain)
       case Spent(a, here) =>
         && s.waiters == Waiters(a, a, 1) && s.next == |s.sent|
         && (here <==> a in s.memory) && (here ==> s.memory[a].answered && s.memory[a].ticket < |s.sent|)
       case Behind => Misled(s)
  }

  /** The values in the channel are the latest `level` accepted ones. */
  ghost predicate Stocked(s: State, level: nat) {
    && s.next == |s.deliveries|
    && level == |s.buffer| + |s.producers|
    && |s.sent| == s.next + level
    && (forall i | 0 <= i < |s.buffer| :: s.buffer[i] == s.sent[s.next + i])
    && (forall i | 0 <= i < |s.producers| :: s.producers[i] == s.sent[s.next + |s.buffer| + i])
    && |s.buffer| <= s.capacity
    && (s.producers != [] ==> |s.buffer| == s.capacity)
  }

  /** The consumers in `chain` wait for the next values in this order; the list counts one too many. */
  ghost predicate Queued(s: State, chain: seq<Addr>) {
    var n := |chain|;
    && n > 0 && s.waiters == Waiters(chain[0], chain[n - 1], n + 1) && s.next == |s.sent| + n
    && forall i | 0 <= i < n :: Waits(s, chain, i)
  }

  ghost predicate Waits(s: State, chain: seq<Addr>, i: nat)
    requires i < |chain|
  {
    chain[i] in s.memory && s.memory[chain[i]] == Awaiter(|s.sent| + i, false, if i + 1 < |chain| then chain[i + 1] else 0)
  }

  /** The list starts with an awaiter that is gone or has another ticket than the next one to be served. */
  ghost predicate Misled(s: State) {
    && s.waiters.size > 1 && s.next > |s.sent|
    && (s.waiters.head in s.memory ==> s.memory[s.waiters.head].ticket != |s.sent|)
    && s.waiters.tail in s.memory && !s.memory[s.waiters.tail].answered
  }

  lemma ChainDistinct(s: State, chain: seq<Addr>, i: nat, j: nat)
    requires Queued(s, chain) && i < |chain| && j < |chain| && i != j
    ensures chain[i] != chain[j]
  {
    assert Waits(s, chain, i) && Waits(s, chain, j);
  }

  /** The first of several is answered. */
  lemma FirstServed(s: State, chain: seq<Addr>, value: Value, waits: bool)
    requires Queued(s, chain) && |chain| > 1 && |s.sent| == |s.deliveries|
    ensures var after := SendStep(s, value, waits);
      && Queued(after, chain[1..]) && after.sent == s.sent + [value] && after.deliveries == s.deliveries + [(|s.sent|, value)]
      && after == s.(waiters := after.waiters, memory := after.memory, sent := after.sent, deliveries := after.deliveries)
      && (0 !in s.memory ==> 0 !in after.memory)
  {
    var after, rest := SendStep(s, value, waits), chain[1..];
    assert Waits(s, chain, 0) && Waits(s, chain, 1);
    assert rest[|rest| - 1] == chain[|chain| - 1];
    forall i | 0 <= i < |rest| ensures Waits(after, rest, i) {
      ChainDistinct(s, chain, 0, i + 1);
      assert Waits(s, chain, i + 1);
    }
  }

  lemma SendAgrees(s: State, m: Mode, value: Value, waits: bool)
    requires Agrees(s, m) && InOrder(m, Sending(value))
    ensures Agrees(SendStep(s, value, waits), AfterSend(m, waits, s.capacity))
  {
    if m.Crowded? {
      FirstServed(s, m.chain, value, waits);
      hide SendStep, Queued;
    } else {
      hide Queued, Misled;
    }
  }

  lemma TakeAgrees(s: State, m: Mode)
    requires Agrees(s, m) && s.buffer != []
    ensures m.Intact? && m.level > 0 && Agrees(TakeStep(s), Intact(m.level - 1))
  {
    var after := TakeStep(s);
    assert after.deliveries == s.deliveries + [(s.next, s.buffer[0])];
    assert s.producers != [] ==> after.buffer == s.buffer[1..] + [s.producers[0]];
  }

  lemma LastJoins(s: State, chain: seq<Addr>, a: Addr)
    requires Queued(s, chain) && a !in s.memory
    ensures var after := WaitStep(s, a);
      && Queued(after, chain + [a])
      && after == s.(waiters := after.waiters, memory := after.memory, next := after.next)
      && (0 !in s.memory && a != 0 ==> 0 !in after.memory)
  {
    var after, n := WaitStep(s, a), |chain|;
    assert Waits(s, chain, n - 1);
    forall i | 0 <= i < n + 1 ensures Waits(after, chain + [a], i) {
      if i < n - 1 {
        ChainDistinct(s, chain, i, n - 1);
      }
      assert i < n ==> Waits(s, chain, i);
    }
  }

  lemma WaitAgrees(s: State, m: Mode, a: Addr)
    requires Agrees(s, m) && s.buffer == [] && Fits(s, Receiving(a)) && InOrder(m, Receiving(a))
    ensures Agrees(WaitStep(s, a), AfterReceive(m, a))
  {
    if m.Crowded? {
      LastJoins(s, m.chain, a);
      hide WaitStep, Queued;
    } else if m.Alone? {
      hide Misled, Stocked;
    } else {
      hide Queued, Stocked;
    }
  }

  /** Who has not been answered does not return. */
  lemma QueueStays(s: State, chain: seq<Addr>, a: Addr)
    requires Queued(s, chain)
    ensures Queued(ReturnStep(s, a), chain)
  {
    assert forall i | 0 <= i < |chain| :: Waits(s, chain, i) ==> Waits(ReturnStep(s, a), chain, i);
  }

  lemma ReturnAgrees(s: State, m: Mode, a: Addr)
    requires Agrees(s, m)
    ensures Agrees(ReturnStep(s, a), After(m, Returning(a), s.capacity))
  {
    if m.Crowded? {
      QueueStays(s, m.chain, a);
    }
    hide Queued;
  }

  lemma StepAgrees(s: State, m: Mode, e: Event)
    requires Agrees(s, m) && Fits(s, e) && InOrder(m, e)
    ensures Agrees(Step(s, e), After(m, e, s.capacity)) && Step(s, e).capacity == s.capacity
  {
    assert !s.crashed && s.capacity > 0 && (m.Intact? && m.level > 0 ==> s.buffer != []);
    hide Agrees;
    match e {
      case Sending(v) => SendAgrees(s, m, v, true);
      case TrySending(v) => SendAgrees(s, m, v, false);
      case Receiving(a) => if s.buffer != [] { TakeAgrees(s, m); } else { WaitAgrees(s, m, a); }
      case TryReceiving => if s.buffer != [] { TakeAgrees(s, m); }
      case Returning(a) => ReturnAgrees(s, m, a);
    }
  }

  /** What is out of order crashes, or hands a value to a receive that is not the next. */
  lemma OutOfOrderBreaks(s: State, m: Mode, e: Event)
    requires Agrees(s, m) && Fits(s, e) && !InOrder(m, e)
    ensures !Right(Step(s, e))
  {
    var after := Step(s, e);
    if Sends(e) && !after.crashed {
      assert m.Crowded? ==> Waits(s, m.chain, 0);
      assert after.deliveries[|s.deliveries|].0 != |s.deliveries|;
    }
  }

  /** Nothing sent is lost or doubled, whoever it is delivered to. */
  predicate Balanced(s: State) {
    |s.sent| == |s.deliveries| + |s.buffer| + |s.producers|
  }

  lemma Accounted(s: State, e: Event)
    requires Balanced(s)
    ensures Balanced(Step(s, e))
    ensures s.deliveries <= Step(s, e).deliveries && s.sent <= Step(s, e).sent
  {
  }

  /** What went wrong stays wrong: neither a crash nor a delivery is taken back. */
  lemma {:induction false} BrokenStays(s: State, events: seq<Event>)
    requires !Right(s) && Balanced(s)
    ensures !Right(Run(s, events))
    decreases |events|
  {
    if events != [] {
      var after := Step(s, events[0]);
      Accounted(s, events[0]);
      assert after.crashed || after.deliveries[..|s.deliveries|] == s.deliveries;
      BrokenStays(after, events[1..]);
    }
  }

  lemma AgreesBalanced(s: State, m: Mode)
    requires Agrees(s, m)
    ensures Balanced(s) && Right(s)
  {
  }

  lemma {:induction false} RightExactlyFrom(s: State, m: Mode, events: seq<Event>)
    requires Agrees(s, m) && Possible(s, events)
    ensures Right(Run(s, events)) <==> AllInOrder(m, events, s.capacity)
    decreases |events|
  {
    AgreesBalanced(s, m);
    hide Agrees, Right, Step, InOrder, After, Fits;
    if events != [] {
      var after := Step(s, events[0]);
      if InOrder(m, events[0]) {
        StepAgrees(s, m, events[0]);
        RightExactlyFrom(after, After(m, events[0], s.capacity), events[1..]);
      } else {
        OutOfOrderBreaks(s, m, events[0]);
        Accounted(s, events[0]);
        BrokenStays(after, events[1..]);
      }
    }
  }

  /**
   The channel serves its purpose, after any critical sections and returns in any order, exactly if no send finds
   the consumers down to their last one after a crowd, or any consumer behind or after one that was answered while
   alone, and no receive waits behind that one after it returned, unless at the same address.
   */
  lemma RightExactly(capacity: nat, events: seq<Event>)
    requires capacity > 0 && Possible(Open(capacity), events)
    ensures Right(Run(Open(capacity), events)) <==> AllInOrder(Intact(0), events, capacity)
  {
    RightExactlyFrom(Open(capacity), Intact(0), events);
  }

  function ModeAfter(m: Mode, events: seq<Event>, capacity: nat): Mode
    decreases |events|
  {
    if events == [] then m else ModeAfter(After(m, events[0], capacity), events[1..], capacity)
  }

  lemma {:induction false} RunAgrees(s: State, m: Mode, events: seq<Event>)
    requires Agrees(s, m) && Possible(s, events) && AllInOrder(m, events, s.capacity)
    ensures Agrees(Run(s, events), ModeAfter(m, events, s.capacity)) && Run(s, events).capacity == s.capacity
    decreases |events|
  {
    hide Agrees, Step, InOrder, After, Fits;
    if events != [] {
      StepAgrees(s, m, events[0]);
      RunAgrees(Step(s, events[0]), After(m, events[0], s.capacity), events[1..]);
    }
  }

  lemma AccountsInOrder(s: State, m: Mode)
    requires Agrees(s, m)
    ensures |s.deliveries| == Min(|s.sent|, s.next)
    ensures |s.buffer| == Min(s.capacity, |s.sent| - |s.deliveries|)
    ensures s.sent[|s.deliveries|..] == s.buffer + s.producers
  {
  }

  /**
   Events in order are served as promised: as many receives are answered as there are values and tickets for them,
   and the values nobody has received yet are in the buffer and, only when that is full, with their producers, in
   the order they were sent.
   */
  lemma Served(capacity: nat, events: seq<Event>)
    requires capacity > 0 && Possible(Open(capacity), events) && AllInOrder(Intact(0), events, capacity)
    ensures var s := Run(Open(capacity), events);
      && Right(s)
      && |s.deliveries| == Min(|s.sent|, s.next)
      && s.sent[|s.deliveries|..] == s.buffer + s.producers
      && |s.buffer| == Min(capacity, |s.sent| - |s.deliveries|)
  {
    RunAgrees(Open(capacity), Intact(0), events);
    hide Run;
    AccountsInOrder(Run(Open(capacity), events), ModeAfter(Intact(0), events, capacity));
  }

  /** A channel on which no receive ever had to wait keeps its order. */
  lemma {:induction false} NeverWaited(events: seq<Event>, level: nat, capacity: nat)
    requires ModeAfter(Intact(level), events, capacity).Intact?
    ensures AllInOrder(Intact(level), events, capacity)
    decreases |events|
  {
    if events != [] {
      var m := After(Intact(level), events[0], capacity);
      if m.Intact? {
        NeverWaited(events[1..], m.level, capacity);
      } else {
        NeverIntactAgain(m, events[1..], capacity);
      }
    }
  }

  lemma {:induction false} NeverIntactAgain(m: Mode, events: seq<Event>, capacity: nat)
    requires !m.Intact?
    ensures !ModeAfter(m, events, capacity).Intact?
    decreases |events|
  {
    if events != [] {
      NeverIntactAgain(After(m, events[0], capacity), events[1..], capacity);
    }
  }

  // ---------------------------------------------------------------- what a caller can rely on

  /** A call alone: when answered receives return, and where awaiters lie, is not up to the callers. */
  datatype Call = Send(value: Value) | TrySend(value: Value) | Receive | TryReceive

  function Called(e: Event): seq<Call> {
    match e
    case Sending(v) => [Send(v)]
    case TrySending(v) => [TrySend(v)]
    case Receiving(_) => [Receive]
    case TryReceiving => [TryReceive]
    case Returning(_) => []
  }

  function Calls(events: seq<Event>): seq<Call> {
    if events == [] then [] else Called(events[0]) + Calls(events[1..])
  }

  /** As `Mode`, as far as the calls determine it. */
  datatype Plan = Fresh(level: nat) | One | Many(waiting: nat) | Done

  function PlanOf(m: Mode): Plan {
    match m
    case Intact(level) => Fresh(level)
    case Alone(_) => One
    case Crowded(chain) => Many(|chain|)
    case Spent(_, _) => Done
    case Behind => Done
  }

  predicate Safe(p: Plan, c: Call) {
    match c
    case Receive => p != Done
    case TryReceive => true
    case _ => p != Done && !(p.Many? && p.waiting <= 1)
  }

  function Next(p: Plan, c: Call, capacity: nat): Plan {
    match p
    case Fresh(level) => (
      match c
      case Send(_) => Fresh(level + 1)
      case TrySend(_) => if level < capacity then Fresh(level + 1) else p
      case Receive => if level > 0 then Fresh(level - 1) else One
      case TryReceive => if level > 0 then Fresh(level - 1) else p
    )
    case One => if c.Receive? then Many(2) else if c.TryReceive? then p else Done
    case Many(n) => if c.Receive? then Many(n + 1) else if c.TryReceive? || n == 0 then p else Many(n - 1)
    case Done => Done
  }

  predicate AllSafe(p: Plan, calls: seq<Call>, capacity: nat)
    decreases |calls|
  {
    calls == [] || (Safe(p, calls[0]) && AllSafe(Next(p, calls[0], capacity), calls[1..], capacity))
  }

  lemma StepSafe(m: Mode, e: Event, c: Call, capacity: nat)
    requires Called(e) == [c]
    ensures Safe(PlanOf(m), c) ==> InOrder(m, e) && PlanOf(After(m, e, capacity)) == Next(PlanOf(m), c, capacity)
    ensures InOrder(m, e) && !Safe(PlanOf(m), c) ==> (m.Spent? || m.Behind?) && c == Receive
  {
  }

  lemma {:induction false} SafeInOrder(m: Mode, events: seq<Event>, capacity: nat)
    requires AllSafe(PlanOf(m), Calls(events), capacity)
    ensures AllInOrder(m, events, capacity)
    decreases |events|
  {
    if events != [] {
      var e := events[0];
      if e.Returning? {
        assert Calls(events) == Calls(events[1..]);
      } else {
        StepSafe(m, e, Called(e)[0], capacity);
        assert Calls(events)[0] == Called(e)[0] && Calls(events)[1..] == Calls(events[1..]);
      }
      SafeInOrder(After(m, e, capacity), events[1..], capacity);
    }
  }

  function EventOf(c: Call, a: Addr): Event {
    match c
    case Send(v) => Sending(v)
    case TrySend(v) => TrySending(v)
    case Receive => Receiving(a)
    case TryReceive => TryReceiving
  }

  /** The worst that can happen: no address is used twice, and who was answered while alone returns at once. */
  function Worst(m: Mode, calls: seq<Call>, unused: Addr, capacity: nat): seq<Event>
    decreases |calls|
  {
    if calls == [] then []
    else
      var e := EventOf(calls[0], unused);
      var m' := After(m, e, capacity);
      if m'.Spent? && m'.here then [e] + ([Returning(m'.a)] + Worst(Spent(m'.a, false), calls[1..], unused + 1, capacity))
      else [e] + Worst(m', calls[1..], unused + 1, capacity)
  }

  /** What follows the first event of the worst case. */
  lemma WorstSplits(m: Mode, calls: seq<Call>, unused: Addr, capacity: nat)
    requires calls != []
    ensures var e, events := EventOf(calls[0], unused), Worst(m, calls, unused, capacity); var m' := After(m, e, capacity);
      && events != [] && events[0] == e
      && if m'.Spent? && m'.here
         then events[1..] != [] && events[1..][0] == Returning(m'.a) && events[1..][1..] == Worst(Spent(m'.a, false), calls[1..], unused + 1, capacity)
         else events[1..] == Worst(m', calls[1..], unused + 1, capacity)
  {
  }

  lemma {:induction false} WorstCalls(m: Mode, calls: seq<Call>, unused: Addr, capacity: nat)
    ensures Calls(Worst(m, calls, unused, capacity)) == calls
    decreases |calls|
  {
    if calls != [] {
      var e, events := EventOf(calls[0], unused), Worst(m, calls, unused, capacity);
      var m' := After(m, e, capacity);
      WorstSplits(m, calls, unused, capacity);
      hide Worst;
      assert Called(e) == [calls[0]] && calls == [calls[0]] + calls[1..];
      if m'.Spent? && m'.here {
        WorstCalls(Spent(m'.a, false), calls[1..], unused + 1, capacity);
        assert Calls(events[1..]) == Calls(events[1..][1..]);
      } else {
        WorstCalls(m', calls[1..], unused + 1, capacity);
      }
    }
  }

  /** Everybody's awaiter lies below `unused`. */
  predicate Below(s: State, unused: Addr) {
    unused > 0 && forall a | a in s.memory :: a < unused
  }

  lemma StepBelow(s: State, e: Event, unused: Addr)
    requires Below(s, unused) && (e.Receiving? ==> e.awaiter == unused)
    ensures Fits(s, e) && Below(Step(s, e), unused + 1)
    ensures e.Returning? ==> Below(Step(s, e), unused)
  {
  }

  lemma {:induction false} WorstPossible(s: State, m: Mode, calls: seq<Call>, unused: Addr, capacity: nat)
    requires Below(s, unused)
    ensures Possible(s, Worst(m, calls, unused, capacity))
    decreases |calls|
  {
    hide Step, Below, Fits;
    if calls != [] {
      var e := EventOf(calls[0], unused);
      var m' := After(m, e, capacity);
      WorstSplits(m, calls, unused, capacity);
      StepBelow(s, e, unused);
      if m'.Spent? && m'.here {
        StepBelow(Step(s, e), Returning(m'.a), unused + 1);
        WorstPossible(Step(Step(s, e), Returning(m'.a)), Spent(m'.a, false), calls[1..], unused + 1, capacity);
      } else {
        WorstPossible(Step(s, e), m', calls[1..], unused + 1, capacity);
      }
      hide After, Worst;
    }
  }

  lemma {:induction false} WorstInOrder(m: Mode, calls: seq<Call>, unused: Addr, capacity: nat)
    requires m != Behind && (m.Spent? ==> !m.here && m.a < unused) && (m.Alone? ==> m.a < unused)
    requires AllInOrder(m, Worst(m, calls, unused, capacity), capacity)
    ensures AllSafe(PlanOf(m), calls, capacity)
    decreases |calls|
  {
    if calls != [] {
      var e := EventOf(calls[0], unused);
      var m' := After(m, e, capacity);
      WorstSplits(m, calls, unused, capacity);
      StepSafe(m, e, calls[0], capacity);
      assert InOrder(m, e);
      hide Worst;
      if m'.Spent? && m'.here {
        assert m'.a < unused + 1;
        WorstInOrder(Spent(m'.a, false), calls[1..], unused + 1, capacity);
      } else {
        WorstInOrder(m', calls[1..], unused + 1, capacity);
      }
    }
  }

  /**
   The calls after which a channel has served its purpose wherever the awaiters lie and whenever the answered
   receives return: no send when one of a crowd is left, and nothing but `TryReceive` once a consumer was answered
   while it waited alone.
   */
  lemma RightForAll(capacity: nat, calls: seq<Call>)
    requires capacity > 0
    ensures (forall events | Calls(events) == calls && Possible(Open(capacity), events) :: Right(Run(Open(capacity), events)))
        <==> AllSafe(Fresh(0), calls, capacity)
  {
    hide Possible, Right, Run, AllInOrder, AllSafe, Calls, Worst;
    if AllSafe(Fresh(0), calls, capacity) {
      forall events | Calls(events) == calls && Possible(Open(capacity), events) ensures Right(Run(Open(capacity), events)) {
        SafeInOrder(Intact(0), events, capacity);
        RightExactly(capacity, events);
      }
    } else {
      var events := Worst(Intact(0), calls, 1, capacity);
      WorstCalls(Intact(0), calls, 1, capacity);
      WorstPossible(Open(capacity), Intact(0), calls, 1, capacity);
      RightExactly(capacity, events);
      if AllInOrder(Intact(0), events, capacity) {
        WorstInOrder(Intact(0), calls, 1, capacity);
      }
      assert !Right(Run(Open(capacity), events));
    }
  }

  /** After a consumer was answered while it waited alone, a caller can only look for a value. */
  lemma {:induction false} SpentForGood(calls: seq<Call>, capacity: nat)
    ensures AllSafe(Done, calls, capacity) <==> forall i | 0 <= i < |calls| :: calls[i] == TryReceive
    decreases |calls|
  {
    if calls != [] {
      SpentForGood(calls[1..], capacity);
      assert Next(Done, calls[0], capacity) == Done && (Safe(Done, calls[0]) <==> calls[0] == TryReceive);
      assert forall i | 0 <= i < |calls| - 1 :: calls[1..][i] == calls[i + 1];
    }
  }

  // ---------------------------------------------------------------- runs

  lemma RunOne(s: State, e: Event, rest: seq<Event>)
    ensures Run(s, [e] + rest) == Run(Step(s, e), rest)
    ensures Run(s, [e]) == Step(s, e)
  {
    assert ([e] + rest)[1..] == rest;
  }

  lemma RunFour(s: State, e: Event, f: Event, g: Event, h: Event)
    ensures Run(s, [e] + ([f] + [g])) == Step(Step(Step(s, e), f), g)
    ensures Run(s, [e] + ([f] + ([g] + [h]))) == Step(Step(Step(Step(s, e), f), g), h)
  {
    hide Step;
    RunOne(s, e, [f] + [g]);
    RunOne(s, e, [f] + ([g] + [h]));
    RunOne(Step(s, e), f, [g]);
    RunOne(Step(s, e), f, [g] + [h]);
    RunOne(Step(Step(s, e), f), g, [h]);
    RunOne(Step(Step(Step(s, e), f), g), h, []);
  }

  /** A first consumer waits and is answered. */
  lemma FirstAnswered(capacity: nat, a: Addr, v: Value)
    requires a != 0
    ensures Step(Step(Open(capacity), Receiving(a)), Sending(v))
         == State(capacity, [], Waiters(a, a, 1), map[a := Awaiter(0, true, a)], [], 1, [v], [(0, v)], false)
  {
    assert Step(Open(capacity), Receiving(a)).memory == map[a := Awaiter(0, false, a)];
  }

  /** One receive waits and two values are sent before it returns: it is handed both. */
  lemma AnsweredTwice(capacity: nat, a: Addr, v: Value, w: Value)
    requires a != 0
    ensures Run(Open(capacity), [Receiving(a)] + ([Sending(v)] + [Sending(w)])).deliveries == [(0, v), (0, w)]
  {
    FirstAnswered(capacity, a, v);
    RunFour(Open(capacity), Receiving(a), Sending(v), Sending(w), TryReceiving);
  }

  /** Two receives wait and two values are sent: the second send follows a null link. */
  lemma SecondOfTwoCrashes(capacity: nat, a: Addr, b: Addr, v: Value, w: Value)
    requires a != 0 && b != 0 && a != b
    ensures Run(Open(capacity), [Receiving(a)] + ([Receiving(b)] + ([Sending(v)] + [Sending(w)]))).crashed
  {
    var two := Step(Step(Open(capacity), Receiving(a)), Receiving(b));
    assert two.waiters == Waiters(a, b, 3) && two.memory == map[a := Awaiter(0, false, b), b := Awaiter(1, false, 0)];
    RunFour(Open(capacity), Receiving(a), Receiving(b), Sending(v), Sending(w));
  }

  /** A receive is answered and returns; the next one that has to wait writes through the awaiter that is gone. */
  lemma NextWaiterCrashes(capacity: nat, a: Addr, b: Addr, v: Value)
    requires a != 0 && b != 0 && a != b
    ensures var events := [Receiving(a)] + ([Sending(v)] + ([Returning(a)] + [Receiving(b)]));
      Possible(Open(capacity), events) && Run(Open(capacity), events).crashed
  {
    FirstAnswered(capacity, a, v);
    RunFour(Open(capacity), Receiving(a), Sending(v), Returning(a), Receiving(b));
    var two := Step(Step(Open(capacity), Receiving(a)), Sending(v));
    assert Step(two, Returning(a)).memory == map[];
    PossibleFour(Open(capacity), Receiving(a), Sending(v), Returning(a), Receiving(b));
  }

  lemma PossibleFour(s: State, e: Event, f: Event, g: Event, h: Event)
    requires Fits(s, e) && Fits(Step(s, e), f) && Fits(Step(Step(s, e), f), g) && Fits(Step(Step(Step(s, e), f), g), h)
    ensures Possible(s, [e] + ([f] + ([g] + [h])))
  {
    hide Step, Fits;
    PossibleOne(s, e, [f] + ([g] + [h]));
    PossibleOne(Step(s, e), f, [g] + [h]);
    PossibleOne(Step(Step(s, e), f), g, [h]);
    PossibleOne(Step(Step(Step(s, e), f), g), h, []);
    assert [h] + [] == [h];
  }

  lemma PossibleOne(s: State, e: Event, rest: seq<Event>)
    ensures Possible(s, [e] + rest) <==> Fits(s, e) && Possible(Step(s, e), rest)
  {
    assert ([e] + rest)[1..] == rest;
  }

  /** At the same address it makes the list what it was, and the next send goes to it, as it should. */
  lemma SameAddressHeals(capacity: nat, a: Addr, v: Value, w: Value)
    requires a != 0
    ensures var s := Run(Open(capacity), [Receiving(a)] + ([Sending(v)] + ([Returning(a)] + [Receiving(a)])));
      s.waiters == Waiters(a, a, 2) && Step(s, Sending(w)).deliveries == [(0, v), (1, w)] && Right(Step(s, Sending(w)))
  {
    FirstAnswered(capacity, a, v);
    RunFour(Open(capacity), Receiving(a), Sending(v), Returning(a), Receiving(a));
    var two := Step(Step(Open(capacity), Receiving(a)), Sending(v));
    assert Step(two, Returning(a)).memory == map[];
    assert Step(Step(two, Returning(a)), Receiving(a)).memory == map[a := Awaiter(1, false, a)];
  }
}
