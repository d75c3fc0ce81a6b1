/**
 The thread pool of executors/thread_pool/with_waitidle/thread_pool.cpp, before `Stop`, as a machine of
 atomic steps.

 Threads below `workers` are the pool's workers; the others are clients that only submit.  Each worker
 owns a ring and a LIFO slot.  The rings are the bounded queues that `RingQueueTheorems` shows
 lockfree/ring_queue.hpp to be, with a `Grab` that may take fewer items than it could; a critical
 section of the global queue's mutex is one step.  Tasks may submit any tasks while they run.
 Bookkeeping: `submitted` and `ran`, how many items have left each ring (`out`), and how many tasks
 each worker has taken (`taken`).
 */
module ThreadPool {
  import opened Basics
  import RingQueue

  type Task = RingQueue.Item

  const LOCAL_QUEUE_SIZE: nat := 1024
  const MAX_LIFO_ROUTINES: nat := 20
  const GLOBAL_QUEUE_PERIOD: nat := 61

  datatype Hint = ToLifoSlot | ToLocalQueue | ToGlobalQueue

  datatype Source = LifoSlot | LocalQueue | GlobalQueue | Steal

  /** The order in which a worker looks for work (thread_pool.hpp:73-83). */
  const DEFAULT_STRATEGY := [LifoSlot, LocalQueue, GlobalQueue, Steal]
  const GLOBAL_STRATEGY := [GlobalQueue, LifoSlot, LocalQueue, Steal]
  const WITHOUT_LIFO_STRATEGY := [LocalQueue, GlobalQueue, Steal, LifoSlot]

  /**
   A thread: looking for work (`Loop`, `Take`, `StealGrab`), moving a batch into its own ring before it runs
   the first one (`Refill`, ...), running a task or idling as a client (`Running`), submitting (`Put`,
   ..., `Counting`), and through with a task (`Returned`).
   */
  datatype Local =
    | Loop
    | Take(steps: seq<Source>, local: bool)
    | StealGrab(steps: seq<Source>, local: bool)
    | Refill(result: Task, rest: seq<Task>)
    | RefillFull(result: Task, rest: seq<Task>)
    | RefillSpill(result: Task, rest: seq<Task>, spill: seq<Task>)
    | Taken(task: Task)
    | Running(owner: Option<Task>)
    | Put(owner: Option<Task>, child: Task, hint: Hint)
    | PutLocal(owner: Option<Task>, item: Task)
    | PutFull(owner: Option<Task>, item: Task)
    | PutSpill(owner: Option<Task>, item: Task, spill: seq<Task>)
    | Counting(owner: Option<Task>)
    | Returned(task: Task)

  datatype State = State(
    workers: nat,
    global: seq<Task>,
    rings: seq<seq<Task>>,
    slots: seq<Option<Task>>,
    bypasses: seq<nat>,
    robbers: nat,
    unfinished: int,
    queued: int,
    threads: seq<Local>,
    submitted: seq<Task>,
    ran: seq<Task>,
    out: seq<nat>,
    taken: seq<nat>)

  /**
   The thread that moves, its random draw, what it submits if it is running and does so, the victim of a
   steal, and how much a `Grab` takes.
   */
  datatype Choice = Choice(t: nat, draw: nat, submit: Option<(Task, Hint)>, from: nat, amount: nat)

  /** A worker's part of the state exists. */
  predicate Sized(s: State) {
    |s.rings| == |s.slots| == |s.bypasses| == |s.out| == |s.taken| == s.workers <= |s.threads|
  }

  function Go(s: State, t: nat, l: Local): State
    requires t < |s.threads|
  {
    s.(threads := s.threads[t := l])
  }

  // ---------------------------------------------------------------- taking

  /** `TryTake` is about to answer `task`: the run of LIFO takes grows or ends (196-204). */
  function Took(s: State, t: nat, task: Task, source: Source): State
    requires Sized(s) && t < s.workers
  {
    Go(s.(bypasses := s.bypasses[t := if source.LifoSlot? then s.bypasses[t] + 1 else 0],
          taken := s.taken[t := s.taken[t] + 1]),
       t, Taken(task))
  }

  /** The choice of a strategy (145-153) */
  function StepLoop(s: State, t: nat, draw: nat): State
    requires Sized(s) && t < s.workers
  {
    Go(s, t,
       Take(if draw % GLOBAL_QUEUE_PERIOD == 0 then GLOBAL_STRATEGY
            else if s.bypasses[t] >= MAX_LIFO_ROUTINES then WITHOUT_LIFO_STRATEGY
            else DEFAULT_STRATEGY,
            false))
  }

  /** How many items follow the first one out of the global queue (223). */
  function Share(s: State, waiting: nat): nat
    requires s.workers > 0
  {
    Min(LOCAL_QUEUE_SIZE / 2, waiting / s.workers)
  }

  /** One place of the strategy (177-208). */
  function StepTake(s: State, t: nat): State
    requires Sized(s) && t < s.workers && s.threads[t].Take?
  {
    var l := s.threads[t];
    if l.steps == [] then Go(s, t, Loop)
    else
      match l.steps[0]
      case LifoSlot =>
        (match s.slots[t]
         case None => Go(s, t, Take(l.steps[1..], l.local))
         case Some(x) => Took(s.(slots := s.slots[t := None]), t, x, LifoSlot))
      case LocalQueue =>
        var ring := s.rings[t];
        if ring == [] then Go(s, t, Take(l.steps[1..], true))
        else Took(s.(rings := s.rings[t := ring[1..]], out := s.out[t := s.out[t] + 1]), t, ring[0], LocalQueue)
      case GlobalQueue =>
        if s.global == [] then Go(s, t, Take(l.steps[1..], l.local))
        else
          var n := if l.local then Share(s, |s.global| - 1) else 0;
          if n == 0 then Took(s.(global := s.global[1..]), t, s.global[0], GlobalQueue)
          else
            ShareFits(s, |s.global| - 1);
            Go(s.(global := s.global[n + 1..]), t, Refill(s.global[0], s.global[1..n + 1]))
      case Steal =>
        if s.robbers >= s.workers then Go(s, t, Take(l.steps[1..], l.local))
        else Go(s.(robbers := s.robbers + 1), t, StealGrab(l.steps[1..], l.local))
  }

  /** `n` of the tasks that wait are one worker's fair share of them: rounded down, and no more than fit into half a ring. */
  predicate FairShare(n: nat, waiting: nat, workers: nat) {
    n <= 512 && n * workers <= waiting && (n == 512 || (n + 1) * workers > waiting)
  }

  lemma {:induction false} Multiple(q: nat, n: nat)
    requires n >= 1
    ensures n * q >= q
  {
    if n > 1 {
      Multiple(q, n - 1);
      assert n * q == (n - 1) * q + q;
    }
  }

  lemma ShareFits(s: State, waiting: nat)
    requires s.workers > 0
    ensures Share(s, waiting) <= waiting
  {
    Multiple(waiting / s.workers, s.workers);
  }

  /** Dividing by the number of workers is taking the fair share. */
  lemma ShareIsFair(waiting: nat, workers: nat)
    requires workers > 0
    ensures FairShare(Min(LOCAL_QUEUE_SIZE / 2, waiting / workers), waiting, workers)
    ensures Min(LOCAL_QUEUE_SIZE / 2, waiting / workers) <= waiting
  {
    var q, n := waiting / workers, Min(LOCAL_QUEUE_SIZE / 2, waiting / workers);
    Multiple(q, workers);
    Times(q - n, workers);
    assert q * workers == n * workers + (q - n) * workers;
    assert (n + 1) * workers == n * workers + workers;
  }

  lemma Times(a: int, b: int)
    requires a >= 0 && b >= 0
    ensures a * b >= 0
  {
  }

  /** What a `Grab` that takes at most `size` items may take from a ring. */
  function Grabbed(ring: seq<Task>, size: nat, amount: nat): (n: nat)
    ensures n <= |ring| && n <= size
  {
    Min(amount, Min(size, |ring|))
  }

  /** Taking the first `n` items out of a ring. */
  function Without(s: State, i: nat, n: nat): State
    requires Sized(s) && i < s.workers && n <= |s.rings[i]|
  {
    s.(rings := s.rings[i := s.rings[i][n..]], out := s.out[i := s.out[i] + n])
  }

  /** The theft (243-268); the draw is repeated until it names somebody else. */
  function StepStealGrab(s: State, t: nat, from: nat, amount: nat): State
    requires Sized(s) && t < s.workers && s.threads[t].StealGrab?
  {
    var l := s.threads[t];
    if from >= s.workers || from == t then s
    else
      var ring := s.rings[from];
      var n := Grabbed(ring, LOCAL_QUEUE_SIZE / 4, amount);
      if n == 0 then Go(s, t, Take(l.steps, l.local))
      else Go(Without(s, from, n), t, Refill(ring[0], ring[1..n]))
  }

  /** Moving a batch into the worker's own ring, one item a step (236-238, 264-266, 117-121) */
  function StepRefill(s: State, t: nat): State
    requires Sized(s) && t < s.workers && s.threads[t].Refill?
  {
    var l := s.threads[t];
    if l.rest == [] then Took(s, t, l.result, GlobalQueue)
    else if |s.rings[t]| < LOCAL_QUEUE_SIZE then
      Go(s.(rings := s.rings[t := s.rings[t] + [l.rest[0]]]), t, Refill(l.result, l.rest[1..]))
    else
      Go(s, t, RefillFull(l.result, l.rest))
  }

  // ---------------------------------------------------------------- running and submitting

  /** A task runs on, submits, or returns; a client submits to the global queue, or does nothing. */
  function StepRunning(s: State, t: nat, submit: Option<(Task, Hint)>): State
    requires Sized(s) && t < |s.threads| && s.threads[t].Running?
  {
    var owner := s.threads[t].owner;
    match submit
    case Some((child, hint)) =>
      if t >= s.workers && !hint.ToGlobalQueue? then s
      else Go(s.(unfinished := s.unfinished + 1, submitted := s.submitted + [child]), t, Put(owner, child, hint))
    case None =>
      if owner.None? then s else Go(s.(ran := s.ran + [owner.value]), t, Returned(owner.value))
  }

  /** Where the hint sends a task (67-78, 112-129). */
  function StepPut(s: State, t: nat): State
    requires Sized(s) && t < |s.threads| && s.threads[t].Put? && (t < s.workers || s.threads[t].hint.ToGlobalQueue?)
  {
    var l := s.threads[t];
    match l.hint
    case ToGlobalQueue => Go(s.(global := s.global + [l.child]), t, Counting(l.owner))
    case ToLocalQueue => Go(s, t, PutLocal(l.owner, l.child))
    case ToLifoSlot =>
      Go(s.(slots := s.slots[t := Some(l.child)]), t,
         if s.slots[t].None? then Counting(l.owner) else PutLocal(l.owner, s.slots[t].value))
  }

  function StepPutLocal(s: State, t: nat): State
    requires Sized(s) && t < s.workers && s.threads[t].PutLocal?
  {
    var l := s.threads[t];
    if |s.rings[t]| < LOCAL_QUEUE_SIZE then
      Go(s.(rings := s.rings[t := s.rings[t] + [l.item]]), t, Counting(l.owner))
    else
      Go(s, t, PutFull(l.owner, l.item))
  }

  /** The owner grabs half of its full ring (131-134). */
  function StepOverflow(s: State, t: nat, amount: nat): State
    requires Sized(s) && t < s.workers && (s.threads[t].PutFull? || s.threads[t].RefillFull?)
  {
    var l := s.threads[t];
    var n := Grabbed(s.rings[t], LOCAL_QUEUE_SIZE / 2, amount);
    var spill := s.rings[t][..n];
    Go(Without(s, t, n), t,
       if l.PutFull? then PutSpill(l.owner, l.item, spill) else RefillSpill(l.result, l.rest, spill))
  }

  /** ... and gives it to the global queue (135-138). */
  function StepSpill(s: State, t: nat): State
    requires Sized(s) && t < s.workers && (s.threads[t].PutSpill? || s.threads[t].RefillSpill?)
  {
    var l := s.threads[t];
    Go(s.(global := s.global + l.spill), t, if l.PutSpill? then PutLocal(l.owner, l.item) else Refill(l.result, l.rest))
  }

  /** Threads that are not workers are never anywhere but in a submission to the global queue. */
  predicate ClientOk(l: Local) {
    match l
    case Running(owner) => owner.None?
    case Put(owner, _, hint) => owner.None? && hint.ToGlobalQueue?
    case Counting(owner) => owner.None?
    case _ => false
  }

  predicate WorkerOk(l: Local) {
    match l
    case Running(owner) => owner.Some?
    case Put(owner, _, _) => owner.Some?
    case PutLocal(owner, _) => owner.Some?
    case PutFull(owner, _) => owner.Some?
    case PutSpill(owner, _, _) => owner.Some?
    case Counting(owner) => owner.Some?
    case _ => true
  }

  predicate RolesOk(s: State) {
    Sized(s) && forall t | 0 <= t < |s.threads| :: if t < s.workers then WorkerOk(s.threads[t]) else ClientOk(s.threads[t])
  }

  function Step(s: State, c: Choice): State
    requires RolesOk(s)
  {
    var t := c.t;
    if t >= |s.threads| then s
    else
      match s.threads[t]
      case Loop => StepLoop(s, t, c.draw)
      case Take(_, _) => StepTake(s, t)
      case StealGrab(_, _) => StepStealGrab(s, t, c.from, c.amount)
      case Refill(_, _) => StepRefill(s, t)
      case RefillFull(_, _) => StepOverflow(s, t, c.amount)
      case RefillSpill(_, _, _) => StepSpill(s, t)
      case Taken(x) => Go(s.(queued := s.queued - 1), t, Running(Some(x)))
      case Running(_) => StepRunning(s, t, c.submit)
      case Put(_, _, _) => StepPut(s, t)
      case PutLocal(_, _) => StepPutLocal(s, t)
      case PutFull(_, _) => StepOverflow(s, t, c.amount)
      case PutSpill(_, _, _) => StepSpill(s, t)
      case Counting(owner) => Go(s.(queued := s.queued + 1), t, Running(owner))
      case Returned(_) => Go(s.(unfinished := s.unfinished - 1), t, Loop)
  }

  function Init(workers: nat, clients: nat): State {
    State(workers, [], seq(workers, i => []), seq(workers, i => None), seq(workers, i => 0), 0, 0, 0,
          seq(workers + clients, i => if i < workers then Loop else Running(None)),
          [], [], seq(workers, i => 0), seq(workers, i => 0))
  }

  // ---------------------------------------------------------------- invariant

  /** Counting the occurrences of one task, or counting all of them. */
  datatype Count = Of(task: Task) | All

  function Weigh(items: seq<Task>, k: Count): nat {
    match k
    case Of(x) => multiset(items)[x]
    case All => |items|
  }

  function Listed(x: Option<Task>): seq<Task> {
    if x.Some? then [x.value] else []
  }

  /** The unfinished tasks a thread has in its hands. */
  function Held(l: Local): seq<Task> {
    match l
    case Refill(x, rest) => [x] + rest
    case RefillFull(x, rest) => [x] + rest
    case RefillSpill(x, rest, spill) => [x] + rest + spill
    case Taken(x) => [x]
    case Running(owner) => Listed(owner)
    case Put(owner, x, _) => Listed(owner) + [x]
    case PutLocal(owner, x) => Listed(owner) + [x]
    case PutFull(owner, x) => Listed(owner) + [x]
    case PutSpill(owner, x, spill) => Listed(owner) + [x] + spill
    case Counting(owner) => Listed(owner)
    case _ => []
  }

  /** What `routines_in_queue_` counts beyond the containers: tasks in transfer, less those not counted yet. */
  function Debt(l: Local): int {
    match l
    case Refill(_, rest) => 1 + |rest|
    case RefillFull(_, rest) => 1 + |rest|
    case RefillSpill(_, rest, spill) => 1 + |rest| + |spill|
    case Taken(_) => 1
    case PutSpill(_, _, spill) => |spill|
    case Counting(_) => -1
    case _ => 0
  }

  function InRings(rings: seq<seq<Task>>, k: Count): nat {
    if rings == [] then 0 else InRings(rings[..|rings| - 1], k) + Weigh(rings[|rings| - 1], k)
  }

  function InSlots(slots: seq<Option<Task>>, k: Count): nat {
    if slots == [] then 0 else InSlots(slots[..|slots| - 1], k) + Weigh(Listed(slots[|slots| - 1]), k)
  }

  function InHands(threads: seq<Local>, k: Count): nat {
    if threads == [] then 0 else InHands(threads[..|threads| - 1], k) + Weigh(Held(threads[|threads| - 1]), k)
  }

  function Debts(threads: seq<Local>): int {
    if threads == [] then 0 else Debts(threads[..|threads| - 1]) + Debt(threads[|threads| - 1])
  }

  /** Threads that have run a task and not told the wait group. */
  function Unannounced(threads: seq<Local>): nat {
    if threads == [] then 0
    else Unannounced(threads[..|threads| - 1]) + if threads[|threads| - 1].Returned? then 1 else 0
  }

  /** Waiting in the global queue, in a ring or in a slot. */
  function Waiting(s: State, k: Count): nat {
    Weigh(s.global, k) + InRings(s.rings, k) + InSlots(s.slots, k)
  }

  /** Every submitted task has run, or is in one of these places, as often as it was submitted. */
  ghost predicate Conserved(s: State) {
    forall k: Count :: Weigh(s.submitted, k) == Weigh(s.ran, k) + Waiting(s, k) + InHands(s.threads, k)
  }

  ghost predicate Inv(s: State) {
    && RolesOk(s)
    && (forall i | 0 <= i < s.workers :: |s.rings[i]| <= LOCAL_QUEUE_SIZE)
    && Conserved(s)
    && s.unfinished == |s.submitted| - |s.ran| + Unannounced(s.threads)
    && s.queued == Waiting(s, All) + Debts(s.threads)
  }
}
