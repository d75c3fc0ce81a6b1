/**
 The thread pool of executors/thread_pool/with_waitidle/thread_pool.cpp together with the steps of its
 rings and with the `next` link inside every task.

 `ThreadPool` takes a ring operation as one step and a list of tasks as a sequence.  Here each thread works
 through the steps of `RingQueue`, the pool moves when the ring's operation takes effect, and `next` is
 shared memory: `Grab` (lockfree/ring_queue.hpp:69-74) pushes what it copies onto a list, and so writes the
 links of tasks, before its exchange has won them.  What owns a list writes its links in the same step in
 which it changes the list.
 */
module PoolLinks {
  import opened Basics
  import P = ThreadPool
  import R = RingQueue

  type Task = P.Task

  type Links = map<Task, Option<Task>>

  /** What a `Grab` has yet to write for the item `x` it has just read: clear its link, then hang it behind `prev`. */
  datatype Pending = Nothing | Clearing(x: Task, prev: Option<Task>) | Joining(behind: Task, x: Task)

  /**
   Of each thread: the ring it works on, how many tasks of its batch it has popped from the list, and the
   link it writes next.
   */
  datatype Hand = Hand(at: Option<nat>, popped: nat, pending: Pending)

  datatype State = State(pool: P.State, rings: seq<R.State>, next: Links, hands: seq<Hand>)

  function Next(next: Links, x: Task): Option<Task> {
    if x in next then next[x] else None
  }

  // ---------------------------------------------------------------- lists

  function Batched(l: P.Local): seq<Task> {
    match l
    case Refill(x, rest) => [x] + rest
    case RefillFull(x, rest) => [x] + rest
    case RefillSpill(x, rest, _) => [x] + rest
    case _ => []
  }

  /** The list `grabbed` of a thread that moves a batch. */
  function Batch(l: P.Local, popped: nat): seq<Task> {
    if popped <= |Batched(l)| then Batched(l)[popped..] else []
  }

  /** The list `grab` of a thread whose ring overflowed. */
  function Spill(l: P.Local): seq<Task> {
    match l
    case RefillSpill(_, _, spill) => spill
    case PutSpill(_, _, spill) => spill
    case _ => []
  }

  /** What repeated calls of `TryPop` hand out: they follow the links until they reach the tail or a null link. */
  function Drain(next: Links, head: Task, tail: Task, fuel: nat): seq<Task>
    decreases fuel
  {
    [head] +
      if head == tail || fuel == 0 then []
      else
        match Next(next, head)
        case None => []
        case Some(y) => Drain(next, y, tail, fuel - 1)
  }

  /** A list with the head and the tail of `list` hands out `list`. */
  predicate HandsOut(next: Links, list: seq<Task>) {
    list == [] || Drain(next, list[0], list[|list| - 1], |list|) == list
  }

  /** Every list of tasks hands out what it should. */
  ghost predicate Intact(s: State) {
    && |s.hands| == |s.pool.threads|
    && HandsOut(s.next, s.pool.global)
    && (forall t | 0 <= t < |s.hands| :: HandsOut(s.next, Batch(s.pool.threads[t], s.hands[t].popped)))
    && (forall t | 0 <= t < |s.hands| :: HandsOut(s.next, Spill(s.pool.threads[t])))
  }

  // ---------------------------------------------------------------- steps

  /** The ring operation a thread is about. */
  function Operation(l: P.Local): Option<R.Op> {
    match l
    case Take(steps, _) => if steps != [] && steps[0].LocalQueue? then Some(R.TryPop) else None
    case StealGrab(_, _) => Some(R.Grab(P.LOCAL_QUEUE_SIZE / 4))
    case Refill(_, rest) => if rest != [] then Some(R.TryPush(rest[0])) else None
    case PutLocal(_, x) => Some(R.TryPush(x))
    case RefillFull(_, _) => Some(R.Grab(P.LOCAL_QUEUE_SIZE / 2))
    case PutFull(_, _) => Some(R.Grab(P.LOCAL_QUEUE_SIZE / 2))
    case _ => None
  }

  /** The next step of an operation at `l` is the one in which it takes effect. */
  predicate TakesEffect(r: R.State, l: R.Local) {
    match l
    case PushLoadHead(_) => r.tail == r.head + r.capacity
    case PushPublish(_, _) => true
    case PopLoadTail(h) => h == r.tail
    case PopSwing(h, _) => r.head == h
    case GrabSwing(_, h, _, _) => r.head == h
    case _ => false
  }

  /** The tasks among what was copied; `Intrusive::Queue::Push` ignores null. */
  function Values(items: seq<Option<Task>>): seq<Task> {
    if items == [] then []
    else Values(items[..|items| - 1]) + P.Listed(items[|items| - 1])
  }

  function Loaded(x: Option<Task>, before: seq<Option<Task>>): Pending {
    if x.None? then Nothing
    else
      var list := Values(before);
      Clearing(x.value, if list == [] then None else Some(list[|list| - 1]))
  }

  predicate Sized(s: State) {
    && P.RolesOk(s.pool)
    && |s.rings| == s.pool.workers
    && |s.hands| == |s.pool.threads|
    && (forall i | 0 <= i < |s.rings| :: R.InBounds(s.rings[i]) && |s.rings[i].threads| == |s.hands|)
    && (forall t | 0 <= t < |s.hands| && s.hands[t].at.Some? :: s.hands[t].at.value < |s.rings|)
  }

  function Put(s: State, t: nat, h: Hand): State
    requires t < |s.hands|
  {
    s.(hands := s.hands[t := h])
  }

  /** `node->next = nullptr` and `tail_->next = node` in the `Push` of a `Grab` (intrusive/structures/queue.hpp:29-37). */
  function StepWrite(s: State, t: nat): State
    requires t < |s.hands| && s.hands[t].pending != Nothing
  {
    var h := s.hands[t];
    match h.pending
    case Clearing(x, prev) =>
      Put(s.(next := s.next[x := None]), t, h.(pending := if prev.Some? then Joining(prev.value, x) else Nothing))
    case Joining(behind, x) =>
      Put(s.(next := s.next[behind := Some(x)]), t, h.(pending := Nothing))
    case Nothing => s
  }

  /** A thread starts its ring operation. */
  function StepEnter(s: State, t: nat, i: nat, op: R.Op): State
    requires Sized(s) && t < |s.hands| && i < |s.rings|
  {
    var r' := R.Step(s.rings[i], R.Choice(t, op));
    Put(s.(rings := s.rings[i := r']), t, s.hands[t].(at := Some(i)))
  }

  /** How many tasks of the batch are popped once the operation at `l` takes effect. */
  function PoppedAfter(h: Hand, l: R.Local, p: P.Local): nat {
    if l.PushPublish? then 1 else if l.GrabSwing? && p.StealGrab? then 0 else h.popped
  }

  /** One step of the ring operation a thread is in; the pool moves with the ring. */
  function StepRing(s: State, t: nat): State
    requires Sized(s) && t < |s.hands| && s.hands[t].at.Some?
  {
    var h := s.hands[t];
    var i := h.at.value;
    var r := s.rings[i];
    var l := r.threads[t];
    var s' := s.(rings := s.rings[i := R.Step(r, R.Choice(t, R.TryPop))]);
    if TakesEffect(r, l) then
      var amount := if l.GrabSwing? then |l.items| else 0;
      Put(s'.(pool := P.Step(s.pool, P.Choice(t, 0, None, i, amount))), t, h.(popped := PoppedAfter(h, l, s.pool.threads[t])))
    else if l.GrabRead? then
      Put(s', t, h.(pending := Loaded(r.buffer[l.pos], l.items)))
    else
      Put(s', t, h.(at := if l.Exit? then None else h.at))
  }

  /** The links written when `x` is pushed behind `list`. */
  function Pushed(next: Links, list: seq<Task>, x: Task): Links {
    if list == [] then next[x := None] else next[x := None][list[|list| - 1] := Some(x)]
  }

  /** The links written when `tail` is appended to `list`. */
  function Appended(next: Links, list: seq<Task>, tail: seq<Task>): Links {
    if list == [] || tail == [] then next else next[list[|list| - 1] := Some(tail[0])]
  }

  /** A task to be submitted must not be in a list, in a ring, in a slot or on its way to one. */
  ghost predicate Legal(pool: P.State, submit: Option<(Task, P.Hint)>) {
    submit.Some? ==> Transit(pool, submit.value.0) == 0
  }

  /**
   The links written by a step of the pool outside of its rings.  The batch taken from the global queue is
   linked as it was there, and its last link is cleared.
   */
  function Relinked(pool: P.State, next: Links, t: nat): Links
    requires P.Sized(pool) && t < |pool.threads|
  {
    match pool.threads[t]
    case Put(_, x, hint) => if hint.ToGlobalQueue? then Pushed(next, pool.global, x) else next
    case RefillSpill(_, _, spill) => Appended(next, pool.global, spill)
    case PutSpill(_, _, spill) => Appended(next, pool.global, spill)
    case Take(steps, local) =>
      if steps != [] && steps[0].GlobalQueue? && pool.global != [] && local && pool.workers > 0 then
        var n := P.Share(pool, |pool.global| - 1);
        if 0 < n < |pool.global| then next[pool.global[n] := None] else next
      else next
    case _ => next
  }

  /** A step of the pool outside of its rings. */
  ghost function StepPool(s: State, t: nat, c: P.Choice): State
    requires Sized(s) && t < |s.hands| && c.t == t
  {
    var l, h := s.pool.threads[t], s.hands[t];
    if l.Running? && !Legal(s.pool, c.submit) then s
    else
      Put(s.(pool := P.Step(s.pool, c), next := Relinked(s.pool, s.next, t)), t, h.(popped := if l.Take? then 1 else h.popped))
  }

  /** A thread that moves a batch: `TryPop` from its list, or the ring operation for what it popped, or the end of the batch. */
  ghost function StepBatch(s: State, t: nat, c: P.Choice): State
    requires Sized(s) && t < |s.hands| && c.t == t && s.pool.threads[t].Refill?
  {
    var l, h := s.pool.threads[t], s.hands[t];
    if h.popped == 0 then Put(s, t, h.(popped := 1))
    else if l.rest == [] then StepPool(s, t, c)
    else if h.popped == 1 then Put(s, t, h.(popped := 2))
    else StepEnter(s, t, t, R.TryPush(l.rest[0]))
  }

  ghost function Step(s: State, c: P.Choice): State
    requires Sized(s)
  {
    var t := c.t;
    if t >= |s.hands| then s
    else if s.hands[t].pending != Nothing then StepWrite(s, t)
    else if s.hands[t].at.Some? then StepRing(s, t)
    else
      var l := s.pool.threads[t];
      if l.Refill? then StepBatch(s, t, c)
      else if Operation(l).None? then StepPool(s, t, c)
      else if !l.StealGrab? then StepEnter(s, t, t, Operation(l).value)
      else if c.from < s.pool.workers && c.from != t then StepEnter(s, t, c.from, Operation(l).value)
      else s
  }

  ghost function Init(workers: nat, clients: nat): State {
    State(P.Init(workers, clients),
          seq(workers, i requires 0 <= i < workers => R.Init(P.LOCAL_QUEUE_SIZE, i, workers + clients)),
          map[],
          seq(workers + clients, i => Hand(None, 0, Nothing)))
  }

  // ---------------------------------------------------------------- where a task is

  /** The tasks in a thread's hands except the one it runs. */
  function Moving(l: P.Local): seq<Task> {
    match l
    case Refill(x, rest) => [x] + rest
    case RefillFull(x, rest) => [x] + rest
    case RefillSpill(x, rest, spill) => [x] + rest + spill
    case Taken(x) => [x]
    case Put(_, x, _) => [x]
    case PutLocal(_, x) => [x]
    case PutFull(_, x) => [x]
    case PutSpill(_, x, spill) => [x] + spill
    case _ => []
  }

  function InMotion(threads: seq<P.Local>, x: Task): nat {
    if threads == [] then 0
    else InMotion(threads[..|threads| - 1], x) + P.Weigh(Moving(threads[|threads| - 1]), P.Of(x))
  }

  /** How often a task is in a list, in a ring, in a slot or on its way to one. */
  function Transit(pool: P.State, x: Task): nat {
    P.Waiting(pool, P.Of(x)) + InMotion(pool.threads, x)
  }

  // ---------------------------------------------------------------- invariant

  /** The thread's ring operation is the one its place in the pool calls for, until it has taken effect. */
  ghost predicate Engaged(r: R.State, rl: R.Local, l: P.Local, popped: nat, own: bool) {
    match R.PhaseAt(r, rl)
    case Called(op) => Operation(l) == Some(op) && (l.StealGrab? <==> !own) && (l.Refill? ==> popped == 2)
    case Done(_, _) => true
    case _ => false
  }

  ghost predicate BatchOk(l: P.Local, popped: nat) {
    && (l.Refill? ==> popped <= 2 && (popped == 2 ==> l.rest != []))
    && (l.RefillFull? || l.RefillSpill? ==> popped == 2 && l.rest != [])
  }

  /** What is still to be written concerns the last item copied and one copied before it. */
  ghost predicate PendingOk(pending: Pending, rl: R.Local) {
    pending != Nothing ==>
      && (rl.GrabRead? || rl.GrabSwing?)
      && rl.items != [] && rl.items[|rl.items| - 1] == Some(pending.x)
      && var before := Values(rl.items[..|rl.items| - 1]);
        && (pending.Clearing? ==> pending.prev == if before == [] then None else Some(before[|before| - 1]))
        && (pending.Joining? ==> before != [] && pending.behind == before[|before| - 1])
  }

  ghost predicate HandOk(s: State, t: nat)
    requires Sized(s) && t < |s.hands|
  {
    var h, l := s.hands[t], s.pool.threads[t];
    && (h.at.Some? ==>
          && t < s.pool.workers
          && Engaged(s.rings[h.at.value], s.rings[h.at.value].threads[t], l, h.popped, h.at.value == t)
          && PendingOk(h.pending, s.rings[h.at.value].threads[t]))
    && (h.at.None? ==> h.pending == Nothing)
    && (forall j | 0 <= j < |s.rings| && h.at != Some(j) :: s.rings[j].threads[t].Idle?)
    && BatchOk(l, h.popped)
  }

  ghost predicate RingOk(s: State, i: nat)
    requires i < |s.rings|
  {
    var r := s.rings[i];
    && R.Inv(r) && r.capacity == P.LOCAL_QUEUE_SIZE && r.producer == i
    && i < |s.pool.rings| && s.pool.rings[i] == R.Contents(r)
  }

  ghost predicate Unique(pool: P.State) {
    forall x: Task :: Transit(pool, x) <= 1
  }

  ghost predicate Inv(s: State) {
    && Sized(s)
    && P.Inv(s.pool)
    && Unique(s.pool)
    && (forall i | 0 <= i < |s.rings| :: RingOk(s, i))
    && (forall t | 0 <= t < |s.hands| :: HandOk(s, t))
  }
}
