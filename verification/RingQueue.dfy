/**
 The single-producer, multi-consumer ring buffer of lockfree/ring_queue.hpp as a machine of atomic steps.

 Thread `producer` is the producer (it may consume as well); the others call `TryPop` and `Grab`.  `pushed`
 is every item ever accepted and `hist` the history; no step tests them.
 */
module RingQueue {
  import opened Basics
  import opened Histories

  type Item(==, !new)

  datatype Op = TryPush(item: Item) | TryPop | Grab(size: nat)

  /** `Popped(None)` is the null pointer `TryPop` answers when it finds nothing. */
  datatype Res = Pushed | Full | Popped(item: Option<Item>) | Grabbed(items: seq<Option<Item>>)

  datatype Local =
    | Idle
    | PushLoadHead(item: Item)
    | PushLoadTail(item: Item, head: nat)
    | PushStore(item: Item, tail: nat)
    | PushPublish(item: Item, tail: nat)
    | PopLoadHead
    | PopLoadTail(head: nat)
    | PopRead(head: nat)
    | PopSwing(head: nat, got: Option<Item>)
    | GrabLoadHead(size: nat)
    | GrabLoadTail(size: nat, head: nat)
    | GrabRead(size: nat, head: nat, seen: nat, pos: nat, items: seq<Option<Item>>)
    | GrabSwing(size: nat, head: nat, seen: nat, items: seq<Option<Item>>)
    | Exit(op: Op, res: Res)

  datatype State = State(
    capacity: nat,
    producer: nat,
    buffer: seq<Option<Item>>,
    head: nat,
    tail: nat,
    threads: seq<Local>,
    pushed: seq<Item>,
    hist: seq<Event<Op, Res>>)

  datatype Choice = Choice(t: nat, op: Op)

  function Go(s: State, t: nat, l: Local): State
    requires t < |s.threads|
  {
    s.(threads := s.threads[t := l])
  }

  /** The position of the `i`-th item; there are `Capacity + 1` slots. */
  function Slot(i: nat, slots: nat): (pos: nat)
    requires slots > 0
    ensures pos < slots
  {
    i % slots
  }

  /** How `Grab` walks the slots (ring_queue.hpp:73). */
  function NextSlot(pos: nat, slots: nat): nat {
    if pos + 1 == slots then 0 else pos + 1
  }

  /** How many items a `Grab` that saw `tail` will try to take (67). */
  function Wanted(size: nat, head: nat, tail: nat): nat {
    if tail <= head then 0 else Min(tail - head, size)
  }

  // ---------------------------------------------------------------- steps

  function StepIdle(s: State, t: nat, op: Op): State
    requires t < |s.threads|
  {
    if op.TryPush? && t != s.producer then s
    else
      Go(s.(hist := s.hist + [Call(t, op)]), t,
         match op
         case TryPush(x) => PushLoadHead(x)
         case TryPop => PopLoadHead
         case Grab(n) => GrabLoadHead(n))
  }

  /** A push that will find the ring full is decided here: only the producer moves the tail. */
  function StepPushLoadHead(s: State, t: nat): State
    requires t < |s.threads| && s.threads[t].PushLoadHead?
  {
    var x := s.threads[t].item;
    var decided := if s.tail == s.head + s.capacity then [Effect(t, TryPush(x), Full)] else [];
    Go(s.(hist := s.hist + decided), t, PushLoadTail(x, s.head))
  }

  function StepPushLoadTail(s: State, t: nat): State
    requires t < |s.threads| && s.threads[t].PushLoadTail?
  {
    var l := s.threads[t];
    Go(s, t, if s.tail == l.head + s.capacity then Exit(TryPush(l.item), Full) else PushStore(l.item, s.tail))
  }

  function StepPushStore(s: State, t: nat): State
    requires t < |s.threads| && s.threads[t].PushStore? && |s.buffer| == s.capacity + 1
  {
    var l := s.threads[t];
    Go(s.(buffer := s.buffer[Slot(l.tail, s.capacity + 1) := Some(l.item)]), t, PushPublish(l.item, l.tail))
  }

  /** `tail_.fetch_add(1)`: the item becomes visible. */
  function StepPushPublish(s: State, t: nat): State
    requires t < |s.threads| && s.threads[t].PushPublish?
  {
    var x := s.threads[t].item;
    Go(s.(tail := s.tail + 1, pushed := s.pushed + [x], hist := s.hist + [Effect(t, TryPush(x), Pushed)]),
       t, Exit(TryPush(x), Pushed))
  }

  function StepPopLoadTail(s: State, t: nat): State
    requires t < |s.threads| && s.threads[t].PopLoadTail?
  {
    var h := s.threads[t].head;
    if h == s.tail then
      Go(s.(hist := s.hist + [Effect(t, TryPop, Popped(None))]), t, Exit(TryPop, Popped(None)))
    else
      Go(s, t, PopRead(h))
  }

  function StepPopRead(s: State, t: nat): State
    requires t < |s.threads| && s.threads[t].PopRead? && |s.buffer| == s.capacity + 1
  {
    var h := s.threads[t].head;
    Go(s, t, PopSwing(h, s.buffer[Slot(h, s.capacity + 1)]))
  }

  function StepPopSwing(s: State, t: nat): State
    requires t < |s.threads| && s.threads[t].PopSwing?
  {
    var l := s.threads[t];
    if s.head == l.head then
      Go(s.(head := s.head + 1, hist := s.hist + [Effect(t, TryPop, Popped(l.got))]), t, Exit(TryPop, Popped(l.got)))
    else
      Go(s, t, PopLoadTail(s.head))
  }

  /** The copying loop of `Grab` reads one slot a step and then tries to move the head. */
  function Copying(s: State, size: nat, head: nat, seen: nat, pos: nat, items: seq<Option<Item>>): Local {
    if |items| < Wanted(size, head, seen) then GrabRead(size, head, seen, pos, items)
    else GrabSwing(size, head, seen, items)
  }

  function StepGrabLoadTail(s: State, t: nat): State
    requires t < |s.threads| && s.threads[t].GrabLoadTail?
  {
    var l := s.threads[t];
    Go(s, t, Copying(s, l.size, l.head, s.tail, Slot(l.head, s.capacity + 1), []))
  }

  function StepGrabRead(s: State, t: nat): State
    requires t < |s.threads| && s.threads[t].GrabRead?
    requires |s.buffer| == s.capacity + 1 && s.threads[t].pos < |s.buffer|
  {
    var l := s.threads[t];
    Go(s, t, Copying(s, l.size, l.head, l.seen, NextSlot(l.pos, s.capacity + 1), l.items + [s.buffer[l.pos]]))
  }

  function StepGrabSwing(s: State, t: nat): State
    requires t < |s.threads| && s.threads[t].GrabSwing?
  {
    var l := s.threads[t];
    if s.head == l.head then
      Go(s.(head := s.head + |l.items|, hist := s.hist + [Effect(t, Grab(l.size), Grabbed(l.items))]),
         t, Exit(Grab(l.size), Grabbed(l.items)))
    else
      Go(s, t, GrabLoadTail(l.size, s.head))
  }

  function StepExit(s: State, t: nat): State
    requires t < |s.threads| && s.threads[t].Exit?
  {
    Go(s.(hist := s.hist + [Return(t, s.threads[t].res)]), t, Idle)
  }

  /** Every slot a thread touches exists. */
  predicate InBounds(s: State) {
    |s.buffer| == s.capacity + 1
    && forall t | 0 <= t < |s.threads| && s.threads[t].GrabRead? :: s.threads[t].pos < |s.buffer|
  }

  function Step(s: State, c: Choice): State
    requires InBounds(s)
  {
    var t := c.t;
    if t >= |s.threads| then s
    else
      match s.threads[t]
      case Idle => StepIdle(s, t, c.op)
      case PushLoadHead(_) => StepPushLoadHead(s, t)
      case PushLoadTail(_, _) => StepPushLoadTail(s, t)
      case PushStore(_, _) => StepPushStore(s, t)
      case PushPublish(_, _) => StepPushPublish(s, t)
      case PopLoadHead => Go(s, t, PopLoadTail(s.head))
      case PopLoadTail(_) => StepPopLoadTail(s, t)
      case PopRead(_) => StepPopRead(s, t)
      case PopSwing(_, _) => StepPopSwing(s, t)
      case GrabLoadHead(n) => Go(s, t, GrabLoadTail(n, s.head))
      case GrabLoadTail(_, _) => StepGrabLoadTail(s, t)
      case GrabRead(_, _, _, _, _) => StepGrabRead(s, t)
      case GrabSwing(_, _, _, _) => StepGrabSwing(s, t)
      case Exit(_, _) => StepExit(s, t)
  }

  function Init(capacity: nat, producer: nat, threads: nat): State {
    State(capacity, producer, seq(capacity + 1, i => None), 0, 0, seq(threads, i => Idle), [], [])
  }

  // ---------------------------------------------------------------- specification

  /** `items` are the first items of `q`, none missing and none null. */
  predicate Front(items: seq<Option<Item>>, q: seq<Item>) {
    |items| <= |q| && forall i | 0 <= i < |items| :: items[i] == Some(q[i])
  }

  /** A bounded queue whose `Grab` may take fewer items than it could. */
  function Answer(capacity: nat, q: seq<Item>, op: Op, res: Res): Option<seq<Item>> {
    match (op, res)
    case (TryPush(x), Pushed) => if |q| < capacity then Some(q + [x]) else None
    case (TryPush(_), Full) => if |q| == capacity then Some(q) else None
    case (TryPop, Popped(None)) => if q == [] then Some(q) else None
    case (TryPop, Popped(Some(x))) => if q != [] && q[0] == x then Some(q[1..]) else None
    case (Grab(n), Grabbed(items)) => if |items| <= n && Front(items, q) then Some(q[|items|..]) else None
    case _ => None
  }

  function Bounded(capacity: nat): Spec<seq<Item>, Op, Res> {
    (q, op, res) => Answer(capacity, q, op, res)
  }

  // ---------------------------------------------------------------- invariant

  function Contents(s: State): seq<Item>
    requires s.head <= s.tail == |s.pushed|
  {
    s.pushed[s.head..]
  }

  ghost predicate BufferOk(s: State) {
    && |s.buffer| == s.capacity + 1
    && s.tail == |s.pushed| && s.head <= s.tail <= s.head + s.capacity
    && forall i | s.head <= i < s.tail :: s.buffer[Slot(i, s.capacity + 1)] == Some(s.pushed[i])
  }

  /** What was copied from `head` on is right unless somebody has moved the head since. */
  ghost predicate CopiedOk(s: State, head: nat, items: seq<Option<Item>>) {
    s.head == head ==> |items| <= |s.pushed| - head && forall i | 0 <= i < |items| :: items[i] == Some(s.pushed[head + i])
  }

  ghost predicate LocalOk(s: State, t: nat, l: Local)
    requires BufferOk(s)
  {
    match l
    case PushLoadTail(_, h) => h <= s.head && s.tail <= h + s.capacity
    case PushStore(_, i) => i == s.tail && s.tail < s.head + s.capacity
    case PushPublish(x, i) => i == s.tail && s.tail < s.head + s.capacity && s.buffer[Slot(i, s.capacity + 1)] == Some(x)
    case PopLoadTail(h) => h <= s.head
    case PopRead(h) => h <= s.head && h < s.tail
    case PopSwing(h, got) => h <= s.head && h < s.tail && (s.head == h ==> got == Some(s.pushed[h]))
    case GrabLoadTail(_, h) => h <= s.head
    case GrabRead(n, h, seen, pos, items) =>
      && h <= s.head && h <= seen <= s.tail
      && |items| < Wanted(n, h, seen)
      && pos == Slot(h + |items|, s.capacity + 1)
      && CopiedOk(s, h, items)
    case GrabSwing(n, h, seen, items) =>
      h <= s.head && h <= seen <= s.tail && |items| == Wanted(n, h, seen) && CopiedOk(s, h, items)
    case _ => true
  }

  predicate Pushing(l: Local) {
    l.PushLoadHead? || l.PushLoadTail? || l.PushStore? || l.PushPublish?
  }

  ghost predicate LocalsOk(s: State)
    requires BufferOk(s)
  {
    forall t | 0 <= t < |s.threads| :: LocalOk(s, t, s.threads[t]) && (Pushing(s.threads[t]) ==> t == s.producer)
  }

  function PhaseAt(s: State, l: Local): Phase<Op, Res> {
    match l
    case Idle => Quiet
    case PushLoadHead(x) => Called(TryPush(x))
    case PushLoadTail(x, h) => if s.tail == h + s.capacity then Done(TryPush(x), Full) else Called(TryPush(x))
    case PushStore(x, _) => Called(TryPush(x))
    case PushPublish(x, _) => Called(TryPush(x))
    case PopLoadHead => Called(TryPop)
    case PopLoadTail(_) => Called(TryPop)
    case PopRead(_) => Called(TryPop)
    case PopSwing(_, _) => Called(TryPop)
    case GrabLoadHead(n) => Called(Grab(n))
    case GrabLoadTail(n, _) => Called(Grab(n))
    case GrabRead(n, _, _, _, _) => Called(Grab(n))
    case GrabSwing(n, _, _, _) => Called(Grab(n))
    case Exit(op, res) => Done(op, res)
  }

  ghost predicate HistoryOk(s: State)
    requires BufferOk(s)
  {
    && (forall t: nat :: PhaseOf(s.hist, t) == if t < |s.threads| then PhaseAt(s, s.threads[t]) else Quiet)
    && Replay(Bounded(s.capacity), [], s.hist) == Some(Contents(s))
  }

  ghost predicate Inv(s: State) {
    BufferOk(s) && LocalsOk(s) && HistoryOk(s)
  }

  lemma Boundaries(s: State)
    requires BufferOk(s) && LocalsOk(s)
    ensures InBounds(s)
  {
    forall t | 0 <= t < |s.threads| && s.threads[t].GrabRead? ensures s.threads[t].pos < |s.buffer| {
      assert LocalOk(s, t, s.threads[t]);
    }
  }

  // ---------------------------------------------------------------- positions

  lemma {:induction false} Multiple(slots: nat, a: int, b: int)
    requires a < b
    ensures slots * b - slots * a >= slots
    decreases b - a
  {
    assert slots * b == slots * (b - 1) + slots;
    if a < b - 1 {
      Multiple(slots, a, b - 1);
    }
  }

  /** A quotient and a remainder are unique. */
  lemma Remainder(slots: nat, a: int, r: nat, b: int, q: nat)
    requires r < slots && q < slots
    requires slots * a + r < slots * b + q + slots && slots * b + q < slots * a + r + slots
    ensures a == b || r != q
    ensures slots * a + r == slots * b + q ==> r == q
  {
    if a < b {
      Multiple(slots, a, b);
    } else if b < a {
      Multiple(slots, b, a);
    }
  }

  /** Two items fewer than `slots` apart never share a slot. */
  lemma SlotsDiffer(i: nat, j: nat, slots: nat)
    requires i < j < i + slots
    ensures Slot(i, slots) != Slot(j, slots)
  {
    Remainder(slots, i / slots, i % slots, j / slots, j % slots);
  }

  /** Walking the slots one by one visits the items in order. */
  lemma SlotSteps(i: nat, slots: nat)
    requires slots > 0
    ensures NextSlot(Slot(i, slots), slots) == Slot(i + 1, slots)
  {
    var (a, b) := (i / slots, (i + 1) / slots);
    if i % slots + 1 == slots {
      assert slots * (a + 1) == slots * a + slots;
      Remainder(slots, a + 1, 0, b, (i + 1) % slots);
    } else {
      Remainder(slots, a, i % slots + 1, b, (i + 1) % slots);
    }
  }
}
