/**
 The Treiber stack of lockfree/stack.hpp as a machine of atomic steps.

 Conventions are those of the queue: one step per atomic operation, any free address may be
 allocated, touching an unallocated node sets `fault`.  `chain` (top first), `items`, `attached`,
 `hist`, `clock` and the node fields `linked` and `wraps` are bookkeeping: no step tests them, except that a
 `TryPop` sets `fault` when it acquires a node that is not in `attached`, or takes a node with nothing left in
 `items`.  `attached` is the count currently stored in the word that points to each node of the chain.
 */
module TreiberStack {
  import opened Basics
  import opened Histories
  import opened CountedPointers

  type Addr = nat

  type Item(==, !new)

  datatype Node = Node(value: Option<Item>, internal: int, next: CountedPtr, linked: bool, wraps: nat)

  datatype Op = Push(v: Item) | TryPop

  datatype Res = Pushed | Popped(r: Option<Item>)

  /** What a thread does after releasing its reference, and deleting the node if it was the last. */
  datatype Then = PopAgain(seen: CountedPtr) | Finish(res: Res)

  /** Program counters of `Push` (stack.hpp:96-105) and `TryPop` (107-136). */
  datatype Local =
    | Idle
    | PushLoad(v: Item, node: Addr)
    | PushSwing(v: Item, node: Addr)
    | PopLoad
    | PopAcquire(seen: CountedPtr)
    | PopReadNext(head: CountedPtr)
    | PopSwing(head: CountedPtr, next: CountedPtr)
    | PopTake(head: CountedPtr, expected: Item)
    | Detach(counter: CountedPtr, r: Item)
    | Release(node: Addr, seen: CountedPtr)
    | Delete(node: Addr, k: Then)
    | Exit(op: Op, res: Res)

  datatype State = State(
    head: CountedPtr,
    heap: map<Addr, Node>,
    threads: seq<Local>,
    chain: seq<Addr>,
    items: seq<Item>,
    attached: map<Addr, nat>,
    hist: seq<Event<Op, Res>>,
    clock: nat,
    fault: bool)

  /** `spurious` lets a weak compare-exchange fail for no reason. */
  datatype Choice = Choice(t: nat, op: Op, addr: Addr, spurious: bool)

  /** The sequential stack, top first. */
  function Lifo(q: seq<Item>, op: Op, res: Res): Option<seq<Item>> {
    match (op, res)
    case (Push(v), Pushed) => Some([v] + q)
    case (TryPop, Popped(None)) => if q == [] then Some(q) else None
    case (TryPop, Popped(Some(v))) => if q != [] && q[0] == v then Some(q[1..]) else None
    case _ => None
  }

  // ---------------------------------------------------------------- steps

  function Go(s: State, t: nat, l: Local): State
    requires t < |s.threads|
  {
    s.(threads := s.threads[t := l], clock := s.clock + 1)
  }

  function Fault(s: State): State {
    s.(fault := true, clock := s.clock + 1)
  }

  function Resume(k: Then): Local {
    match k
    case PopAgain(seen) => PopAcquire(seen)
    case Finish(res) => Exit(TryPop, res)
  }

  function StepIdle(s: State, t: nat, c: Choice): State
    requires t < |s.threads|
  {
    match c.op
    case TryPop => Go(s.(hist := s.hist + [Call(t, TryPop)]), t, PopLoad)
    case Push(v) =>
      if c.addr == 0 || c.addr >= POINTER_SPAN || c.addr in s.heap then Go(s, t, Idle)
      else
        Go(s.(heap := s.heap[c.addr := Node(Some(v), 0, NULL, false, 0)], hist := s.hist + [Call(t, Push(v))]),
           t, PushLoad(v, c.addr))
  }

  /** `new_head->next = head_.load()` */
  function StepPushLoad(s: State, t: nat): State
    requires t < |s.threads| && s.threads[t].PushLoad?
  {
    var l := s.threads[t];
    if l.node !in s.heap then Fault(s)
    else Go(s.(heap := s.heap[l.node := s.heap[l.node].(next := s.head)]), t, PushSwing(l.v, l.node))
  }

  /** The weak compare-exchange whose expected value lives in `new_head->next`. */
  function StepPushSwing(s: State, t: nat, spurious: bool): State
    requires t < |s.threads| && s.threads[t].PushSwing?
  {
    var l := s.threads[t];
    if l.node !in s.heap then Fault(s)
    else if s.head == s.heap[l.node].next && !spurious then
      Go(s.(head := CountedPtr(l.node, 1),
            heap := s.heap[l.node := s.heap[l.node].(linked := true)],
            chain := [l.node] + s.chain,
            items := [l.v] + s.items,
            attached := s.attached[l.node := 1],
            hist := s.hist + [Effect(t, Push(l.v), Pushed)]),
         t, Exit(Push(l.v), Pushed))
    else
      Go(s.(heap := s.heap[l.node := s.heap[l.node].(next := s.head)]), t, PushSwing(l.v, l.node))
  }

  function StepPopLoad(s: State, t: nat): State
    requires t < |s.threads| && s.threads[t].PopLoad?
  {
    Go(s, t, PopAcquire(s.head))
  }

  /** One round of `IncreaseExternalCount`; acquiring the null head answers that the stack is empty. */
  function StepPopAcquire(s: State, t: nat): State
    requires t < |s.threads| && s.threads[t].PopAcquire?
  {
    var l := s.threads[t];
    var p := s.head.ptr;
    if s.head != l.seen then Go(s, t, PopAcquire(s.head))
    else if p == 0 then
      Go(s.(head := s.head.Increased(), hist := s.hist + [Effect(t, TryPop, Popped(None))]),
         t, Exit(TryPop, Popped(None)))
    else if p !in s.heap || p !in s.attached then Fault(s)
    else
      Go(s.(head := s.head.Increased(),
            heap := if s.head.count + 1 == COUNT_SPAN then s.heap[p := s.heap[p].(wraps := s.heap[p].wraps + 1)] else s.heap,
            attached := s.attached[p := s.head.Increased().count]),
         t, PopReadNext(l.seen.Increased()))
  }

  function StepPopReadNext(s: State, t: nat): State
    requires t < |s.threads| && s.threads[t].PopReadNext?
  {
    var h := s.threads[t].head;
    if h.ptr !in s.heap then Fault(s)
    else Go(s, t, PopSwing(h, s.heap[h.ptr].next))
  }

  function StepPopSwing(s: State, t: nat): State
    requires t < |s.threads| && s.threads[t].PopSwing?
  {
    var l := s.threads[t];
    if s.head == l.head then
      if s.items == [] || s.chain == [] then Fault(s)
      else
        Go(s.(head := l.next,
              chain := s.chain[1..],
              items := s.items[1..],
              attached := s.attached - {s.chain[0]},
              hist := s.hist + [Effect(t, TryPop, Popped(Some(s.items[0])))]),
           t, PopTake(l.head, s.items[0]))
    else
      Go(s, t, Release(l.head.ptr, s.head))
  }

  function StepPopTake(s: State, t: nat): State
    requires t < |s.threads| && s.threads[t].PopTake?
  {
    var p := s.threads[t].head.ptr;
    if p !in s.heap || s.heap[p].value.None? then Fault(s)
    else
      Go(s.(heap := s.heap[p := s.heap[p].(value := None)]), t, Detach(s.threads[t].head, s.heap[p].value.value))
  }

  /** The fetch_add that turns the external count into references still held. */
  function StepDetach(s: State, t: nat): State
    requires t < |s.threads| && s.threads[t].Detach?
  {
    var l := s.threads[t];
    var p := l.counter.ptr;
    if p !in s.heap then Fault(s)
    else
      var add := l.counter.count - 2;
      var before := s.heap[p].internal;
      var k := Finish(Popped(Some(l.r)));
      Go(s.(heap := s.heap[p := s.heap[p].(internal := before + add)]),
         t, if before == -add then Delete(p, k) else Resume(k))
  }

  function StepRelease(s: State, t: nat): State
    requires t < |s.threads| && s.threads[t].Release?
  {
    var l := s.threads[t];
    if l.node !in s.heap then Fault(s)
    else
      var before := s.heap[l.node].internal;
      var k := PopAgain(l.seen);
      Go(s.(heap := s.heap[l.node := s.heap[l.node].(internal := before - 1)]),
         t, if before == 1 then Delete(l.node, k) else Resume(k))
  }

  function StepDelete(s: State, t: nat): State
    requires t < |s.threads| && s.threads[t].Delete?
  {
    var l := s.threads[t];
    if l.node !in s.heap then Fault(s)
    else Go(s.(heap := s.heap - {l.node}), t, Resume(l.k))
  }

  function StepExit(s: State, t: nat): State
    requires t < |s.threads| && s.threads[t].Exit?
  {
    Go(s.(hist := s.hist + [Return(t, s.threads[t].res)]), t, Idle)
  }

  function Step(s: State, c: Choice): (s': State)
    ensures |s'.threads| == |s.threads| && s'.clock == s.clock + 1
  {
    if c.t >= |s.threads| then s.(clock := s.clock + 1)
    else
      match s.threads[c.t]
      case Idle => StepIdle(s, c.t, c)
      case PushLoad(_, _) => StepPushLoad(s, c.t)
      case PushSwing(_, _) => StepPushSwing(s, c.t, c.spurious)
      case PopLoad => StepPopLoad(s, c.t)
      case PopAcquire(_) => StepPopAcquire(s, c.t)
      case PopReadNext(_) => StepPopReadNext(s, c.t)
      case PopSwing(_, _) => StepPopSwing(s, c.t)
      case PopTake(_, _) => StepPopTake(s, c.t)
      case Detach(_, _) => StepDetach(s, c.t)
      case Release(_, _) => StepRelease(s, c.t)
      case Delete(_, _) => StepDelete(s, c.t)
      case Exit(_, _) => StepExit(s, c.t)
  }

  function Init(threads: nat): State {
    State(NULL, map[], seq(threads, i => Idle), [], [], map[], [], 0, false)
  }

  function Run(s: State, schedule: seq<Choice>): State
    decreases |schedule|
  {
    if schedule == [] then s
    else Step(Run(s, schedule[..|schedule| - 1]), schedule[|schedule| - 1])
  }
}
