/**
 The Michael-Scott queue of lockfree/queue.hpp as a machine of atomic steps.

 Every thread carries a program counter with its registers; one step performs exactly one atomic
 operation on shared memory (or the thread-local work between two of them).  Allocation may hand out
 any address that is not in use, so freed addresses come back and only the reference counts protect
 the compare-exchanges from ABA.  Touching a node that is not allocated sets `fault`.

 `chain`, `items`, `hist`, `clock` and the node fields `linked` and `wraps` are bookkeeping: no step
 tests them, except that a `TryPop` whose exchange succeeds with nothing left in `items` sets `fault`.
 */
module MsQueue {
  import opened Basics
  import opened Histories
  import opened CountedPointers

  type Addr = nat

  type Item(==, !new)

  /** `Node::kOneCounter` (lockfree/queue.hpp:81). */
  const ONE_COUNTER: int := 0x1000_0000_0000_0000

  /**
   `value` is None once the element has been moved out and deleted (and in the initial dummy).
   `linked` says the node has been published; `wraps` counts how often one of its external counters
   overflowed its 16 bits.
   */
  datatype Node = Node(value: Option<Item>, internal: int, next: CountedPtr, linked: bool, wraps: nat)

  datatype Op = Push(v: Item) | TryPop

  datatype Res = Pushed | Popped(r: Option<Item>)

  /** What a thread does after a release (and the deletion it may entail). */
  datatype Then =
    | PushAgain(v: Item, node: Addr, seen: CountedPtr)
    | PopAgain(seen: CountedPtr)
    | ReleaseHead(head: CountedPtr)
    | ReleaseNext(next: Addr, r: Item)
    | Finish(op: Op, res: Res)

  /** Program counters of `Push` (queue.hpp:145-177), `TryPop` (180-212) and the release helpers (225-237). */
  datatype Local =
    | Idle
    | PushLoadTail(v: Item, node: Addr)
    | PushAcquire(v: Item, node: Addr, seen: CountedPtr)
    | PushLink(v: Item, node: Addr, seen: CountedPtr)
    | PushSwing(v: Item, node: Addr, seen: CountedPtr)
    | PushLoadNext(v: Item, node: Addr, seen: CountedPtr)
    | PushHelp(v: Item, node: Addr, seen: CountedPtr, next: CountedPtr)
    | PopLoadHead
    | PopAcquire(seen: CountedPtr)
    | PopLoadTail(head: CountedPtr)
    | PopLoadNext(head: CountedPtr, tail: CountedPtr)
    | PopHelp(head: CountedPtr, tail: CountedPtr, next: CountedPtr)
    | PopSwing(head: CountedPtr, next: CountedPtr)
    | PopTake(head: CountedPtr, next: CountedPtr, expected: Item)
    | Detach(counter: CountedPtr, inc: int, k: Then)
    | Release(node: Addr, k: Then)
    | Delete(node: Addr, k: Then)
    | Exit(op: Op, res: Res)

  datatype State = State(
    head: CountedPtr,
    tail: CountedPtr,
    heap: map<Addr, Node>,
    threads: seq<Local>,
    chain: seq<Addr>,
    items: seq<Item>,
    hist: seq<Event<Op, Res>>,
    clock: nat,
    fault: bool)

  /** The scheduler's choices: which operation an idle thread starts, and the address an allocation returns. */
  datatype Choice = Choice(t: nat, op: Op, addr: Addr)

  /** The sequential queue. */
  function Fifo(q: seq<Item>, op: Op, res: Res): Option<seq<Item>> {
    match (op, res)
    case (Push(v), Pushed) => Some(q + [v])
    case (TryPop, Popped(None)) => if q == [] then Some(q) else None
    case (TryPop, Popped(Some(v))) => if q != [] && q[0] == v then Some(q[1..]) else None
    case _ => None
  }

  // ---------------------------------------------------------------- steps

  function Go(s: State, t: nat, l: Local): State
    requires t < |s.threads|
  {
    s.(threads := s.threads[t := l], clock := s.clock + 1)
  }

  function Fault(s: State): State {
    s.(fault := true, clock := s.clock + 1)
  }

  function Resume(k: Then): Local {
    match k
    case PushAgain(v, n, seen) => PushAcquire(v, n, seen)
    case PopAgain(seen) => PopAcquire(seen)
    case ReleaseHead(h) => Release(h.ptr, PopAgain(h))
    case ReleaseNext(n, r) => Release(n, Finish(TryPop, Popped(Some(r))))
    case Finish(op, res) => Exit(op, res)
  }

  /** Records that incrementing a full 16-bit counter on `a` lost 2^16 acquisitions. */
  function Counted(heap: map<Addr, Node>, c: CountedPtr): map<Addr, Node> {
    if c.ptr in heap && c.count + 1 == COUNT_SPAN
    then heap[c.ptr := heap[c.ptr].(wraps := heap[c.ptr].wraps + 1)]
    else heap
  }

  /** An idle thread enters `Push` (allocating its node) or `TryPop`. */
  function StepIdle(s: State, t: nat, c: Choice): State
    requires t < |s.threads|
  {
    match c.op
    case TryPop => Go(s.(hist := s.hist + [Call(t, TryPop)]), t, PopLoadHead)
    case Push(v) =>
      if c.addr == 0 || c.addr >= POINTER_SPAN || c.addr in s.heap then Go(s, t, Idle)
      else
        Go(s.(heap := s.heap[c.addr := Node(Some(v), 2 * ONE_COUNTER, NULL, false, 0)],
              hist := s.hist + [Call(t, Push(v))]),
           t, PushLoadTail(v, c.addr))
  }

  function StepPushLoadTail(s: State, t: nat): State
    requires t < |s.threads| && s.threads[t].PushLoadTail?
  {
    var l := s.threads[t];
    Go(s, t, PushAcquire(l.v, l.node, s.tail))
  }

  function StepPushAcquire(s: State, t: nat): State
    requires t < |s.threads| && s.threads[t].PushAcquire?
  {
    var l := s.threads[t];
    if s.tail == l.seen then
      Go(s.(tail := s.tail.Increased(), heap := Counted(s.heap, s.tail)), t, PushLink(l.v, l.node, l.seen.Increased()))
    else
      Go(s, t, PushAcquire(l.v, l.node, s.tail))
  }

  function StepPushLink(s: State, t: nat): State
    requires t < |s.threads| && s.threads[t].PushLink?
  {
    var l := s.threads[t];
    var p := l.seen.ptr;
    if p !in s.heap || l.node !in s.heap then Fault(s)
    else if s.heap[p].next == NULL then
      var linked := s.heap[p := s.heap[p].(next := CountedPtr(l.node, 1))];
      Go(s.(heap := linked[l.node := linked[l.node].(linked := true)],
            chain := s.chain + [l.node],
            items := s.items + [l.v],
            hist := s.hist + [Effect(t, Push(l.v), Pushed)]),
         t, PushSwing(l.v, l.node, l.seen))
    else
      Go(s, t, PushLoadNext(l.v, l.node, l.seen))
  }

  function StepPushSwing(s: State, t: nat): State
    requires t < |s.threads| && s.threads[t].PushSwing?
  {
    var l := s.threads[t];
    if s.tail == l.seen then
      Go(s.(tail := CountedPtr(l.node, 1)), t, Detach(l.seen, 0, Finish(Push(l.v), Pushed)))
    else
      Go(s, t, Release(l.seen.ptr, Finish(Push(l.v), Pushed)))
  }

  function StepPushLoadNext(s: State, t: nat): State
    requires t < |s.threads| && s.threads[t].PushLoadNext?
  {
    var l := s.threads[t];
    if l.seen.ptr !in s.heap then Fault(s)
    else Go(s, t, PushHelp(l.v, l.node, l.seen, s.heap[l.seen.ptr].next))
  }

  function StepPushHelp(s: State, t: nat): State
    requires t < |s.threads| && s.threads[t].PushHelp?
  {
    var l := s.threads[t];
    var k := PushAgain(l.v, l.node, l.seen);
    if l.next.ptr != 0 && s.tail == l.seen then
      Go(s.(tail := l.next), t, Detach(l.seen, 0, k))
    else
      Go(s, t, Release(l.seen.ptr, k))
  }

  function StepPopLoadHead(s: State, t: nat): State
    requires t < |s.threads| && s.threads[t].PopLoadHead?
  {
    Go(s, t, PopAcquire(s.head))
  }

  function StepPopAcquire(s: State, t: nat): State
    requires t < |s.threads| && s.threads[t].PopAcquire?
  {
    var l := s.threads[t];
    if s.head == l.seen then
      Go(s.(head := s.head.Increased(), heap := Counted(s.heap, s.head)), t, PopLoadTail(l.seen.Increased()))
    else
      Go(s, t, PopAcquire(s.head))
  }

  function StepPopLoadTail(s: State, t: nat): State
    requires t < |s.threads| && s.threads[t].PopLoadTail?
  {
    Go(s, t, PopLoadNext(s.threads[t].head, s.tail))
  }

  /** The load of `head->next`, then the branch on the values already in registers. */
  function StepPopLoadNext(s: State, t: nat): State
    requires t < |s.threads| && s.threads[t].PopLoadNext?
  {
    var l := s.threads[t];
    if l.head.ptr !in s.heap then Fault(s)
    else
      var next := s.heap[l.head.ptr].next;
      if l.head.ptr != l.tail.ptr then Go(s, t, PopSwing(l.head, next))
      else if next.ptr != 0 then Go(s, t, PopHelp(l.head, l.tail, next))
      else
        Go(s.(hist := s.hist + [Effect(t, TryPop, Popped(None))]),
           t, Release(l.head.ptr, Finish(TryPop, Popped(None))))
  }

  function StepPopHelp(s: State, t: nat): State
    requires t < |s.threads| && s.threads[t].PopHelp?
  {
    var l := s.threads[t];
    if s.tail == l.tail then
      Go(s.(tail := l.next), t, Detach(l.tail, 1, ReleaseHead(l.head)))
    else
      Go(s, t, Release(l.head.ptr, PopAgain(l.head)))
  }

  function StepPopSwing(s: State, t: nat): State
    requires t < |s.threads| && s.threads[t].PopSwing?
  {
    var l := s.threads[t];
    if s.head == l.head then
      if |s.items| == 0 || |s.chain| == 0 then Fault(s)
      else
        Go(s.(head := l.next.Increased(),
              chain := s.chain[1..],
              items := s.items[1..],
              hist := s.hist + [Effect(t, TryPop, Popped(Some(s.items[0])))]),
           t, PopTake(l.head, l.next, s.items[0]))
    else
      Go(s, t, Release(l.head.ptr, PopAgain(l.head)))
  }

  /** Moves the element out of the new head and deletes it; a second visit would be a fault. */
  function StepPopTake(s: State, t: nat): State
    requires t < |s.threads| && s.threads[t].PopTake?
  {
    var l := s.threads[t];
    var n := l.next.ptr;
    if n !in s.heap || s.heap[n].value.None? then Fault(s)
    else
      Go(s.(heap := s.heap[n := s.heap[n].(value := None)]),
         t, Detach(l.head, 0, ReleaseNext(n, s.heap[n].value.value)))
  }

  /** The fetch_add of `ReleaseOneCounter`. */
  function StepDetach(s: State, t: nat): State
    requires t < |s.threads| && s.threads[t].Detach?
  {
    var l := s.threads[t];
    var p := l.counter.ptr;
    if p !in s.heap then Fault(s)
    else
      var increase := l.counter.count - 2 - ONE_COUNTER + l.inc;
      var before := s.heap[p].internal;
      Go(s.(heap := s.heap[p := s.heap[p].(internal := before + increase)]),
         t, if before == -increase then Delete(p, l.k) else Resume(l.k))
  }

  /** The fetch_sub of `ReleaseRef`. */
  function StepRelease(s: State, t: nat): State
    requires t < |s.threads| && s.threads[t].Release?
  {
    var l := s.threads[t];
    var p := l.node;
    if p !in s.heap then Fault(s)
    else
      var before := s.heap[p].internal;
      Go(s.(heap := s.heap[p := s.heap[p].(internal := before - 1)]),
         t, if before == 1 then Delete(p, l.k) else Resume(l.k))
  }

  function StepDelete(s: State, t: nat): State
    requires t < |s.threads| && s.threads[t].Delete?
  {
    var l := s.threads[t];
    if l.node !in s.heap then Fault(s)
    else Go(s.(heap := s.heap - {l.node}), t, Resume(l.k))
  }

  function StepExit(s: State, t: nat): State
    requires t < |s.threads| && s.threads[t].Exit?
  {
    Go(s.(hist := s.hist + [Return(t, s.threads[t].res)]), t, Idle)
  }

  function Step(s: State, c: Choice): (s': State)
    ensures |s'.threads| == |s.threads| && s'.clock == s.clock + 1
  {
    if c.t >= |s.threads| then s.(clock := s.clock + 1)
    else
      match s.threads[c.t]
      case Idle => StepIdle(s, c.t, c)
      case PushLoadTail(_, _) => StepPushLoadTail(s, c.t)
      case PushAcquire(_, _, _) => StepPushAcquire(s, c.t)
      case PushLink(_, _, _) => StepPushLink(s, c.t)
      case PushSwing(_, _, _) => StepPushSwing(s, c.t)
      case PushLoadNext(_, _, _) => StepPushLoadNext(s, c.t)
      case PushHelp(_, _, _, _) => StepPushHelp(s, c.t)
      case PopLoadHead => StepPopLoadHead(s, c.t)
      case PopAcquire(_) => StepPopAcquire(s, c.t)
      case PopLoadTail(_) => StepPopLoadTail(s, c.t)
      case PopLoadNext(_, _) => StepPopLoadNext(s, c.t)
      case PopHelp(_, _, _) => StepPopHelp(s, c.t)
      case PopSwing(_, _) => StepPopSwing(s, c.t)
      case PopTake(_, _, _) => StepPopTake(s, c.t)
      case Detach(_, _, _) => StepDetach(s, c.t)
      case Release(_, _) => StepRelease(s, c.t)
      case Delete(_, _) => StepDelete(s, c.t)
      case Exit(_, _) => StepExit(s, c.t)
  }

  /** The constructor: one dummy node with both external counters attached. */
  function Init(threads: nat, dummy: Addr): State {
    State(CountedPtr(dummy, 1), CountedPtr(dummy, 1),
          map[dummy := Node(None, 2 * ONE_COUNTER, NULL, true, 0)],
          seq(threads, i => Idle), [dummy], [], [], 0, false)
  }

  /** Any interleaving of any number of threads. */
  function Run(s: State, schedule: seq<Choice>): State
    decreases |schedule|
  {
    if schedule == [] then s
    else Step(Run(s, schedule[..|schedule| - 1]), schedule[|schedule| - 1])
  }
}
