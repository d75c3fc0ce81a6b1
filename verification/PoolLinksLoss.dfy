/**
 A run of the pool that loses a task.

 Two thieves copy the same two tasks from a ring.  The first wins and has them in its list; the second, which
 has only read the first of them, clears its link; the first thief pops it and finds nothing behind.
 */
module PoolLinksLoss {
  import opened Basics
  import opened PoolLinks
  import opened PoolLinksSteps
  import opened PoolLinksLists
  import opened PoolLinksTheorems
  import P = ThreadPool
  import PT = ThreadPoolTheorems
  import R = RingQueue
  import RT = RingQueueTheorems

  const CAP: nat := 1024

  const IDLE: seq<R.Local> := [R.Idle, R.Idle, R.Idle, R.Idle]

  const FREE := Hand(None, 1, Nothing)

  /**
   What matters of a state with three workers and a client: the pool, the hands, the first worker's ring with
   the tasks in its first cells, and where the threads are in each of the three rings.
   */
  datatype View = View(
    threads: seq<P.Local>,
    global: seq<Task>,
    ring: seq<Task>,
    submitted: seq<Task>,
    robbers: nat,
    hands: seq<Hand>,
    q0: seq<R.Local>,
    head: nat,
    tail: nat,
    cells: seq<Task>,
    q1: seq<R.Local>,
    q2: seq<R.Local>)

  ghost predicate PoolIs(p: P.State, v: View) {
    && p.workers == 3 && |v.threads| == 4 && p.threads == v.threads && p.global == v.global
    && p.rings == [v.ring, [], []] && p.slots == [None, None, None] && p.bypasses == [0, 0, 0]
    && |p.out| == |p.taken| == 3
    && p.submitted == v.submitted && p.ran == [] && p.robbers == v.robbers
  }

  ghost predicate Ring(r: R.State, producer: nat, locals: seq<R.Local>, head: nat, tail: nat, cells: seq<Task>) {
    && r.capacity == CAP && r.producer == producer && |r.buffer| == CAP + 1 && |cells| <= 2
    && r.threads == locals && r.head == head && r.tail == tail
    && forall i | 0 <= i < |cells| :: r.buffer[i] == Some(cells[i])
  }

  ghost predicate Shows(s: State, v: View) {
    && PoolIs(s.pool, v) && s.hands == v.hands && |v.hands| == 4 && |s.rings| == 3
    && Ring(s.rings[0], 0, v.q0, v.head, v.tail, v.cells)
    && Ring(s.rings[1], 1, v.q1, 0, 0, [])
    && Ring(s.rings[2], 2, v.q2, 0, 0, [])
  }

  // ---------------------------------------------------------------- the forms of a step

  /** A step of the pool alone. */
  lemma PoolShows(s: State, v: View, c: P.Choice, v': View)
    requires Sized(s) && Shows(s, v) && c.t < 4 && v.hands[c.t].at.None? && v.hands[c.t].pending == Nothing
    requires var l := v.threads[c.t]; Operation(l).None? && !l.Refill? && (l.Running? ==> Legal(s.pool, c.submit))
    requires PoolIs(P.Step(s.pool, c), v')
    requires var h := v.hands[c.t];
      v' == v.(threads := v'.threads, global := v'.global, submitted := v'.submitted, robbers := v'.robbers,
               hands := v.hands[c.t := h.(popped := if v.threads[c.t].Take? then 1 else h.popped)])
    ensures Shows(Step(s, c), v')
  {
    hide P.Step, Relinked, Legal, Ring, P.RolesOk, R.InBounds;
  }

  /** A thread starts an operation on ring `i`. */
  lemma EnterShows(s: State, v: View, c: P.Choice, i: nat, op: R.Op)
    requires Sized(s) && Shows(s, v) && c.t < 4 && v.hands[c.t].at.None? && v.hands[c.t].pending == Nothing && i < 3
    requires var l := v.threads[c.t]; Operation(l) == Some(op) && !l.Refill? && if l.StealGrab? then i == c.from != c.t else i == c.t
    ensures var s' := Step(s, c);
      && s'.pool == s.pool && s'.next == s.next && s'.hands == v.hands[c.t := v.hands[c.t].(at := Some(i))]
      && s'.rings == s.rings[i := R.Step(s.rings[i], R.Choice(c.t, op))]
  {
    hide P.Step, R.Step, Ring, P.RolesOk, R.InBounds;
  }

  /** A step of a ring operation. */
  lemma RingShows(s: State, c: P.Choice)
    requires Sized(s) && c.t < |s.hands| && s.hands[c.t].at.Some? && s.hands[c.t].pending == Nothing
    ensures var t, h, s' := c.t, s.hands[c.t], Step(s, c); var i := h.at.value; var r := s.rings[i]; var l := r.threads[t];
      && s'.pool == (if TakesEffect(r, l) then P.Step(s.pool, Follow(r, t, i)) else s.pool)
      && s'.next == s.next
      && s'.rings == s.rings[i := R.Step(r, R.Choice(t, R.TryPop))]
      && s'.hands == s.hands[t := if TakesEffect(r, l) then h.(popped := PoppedAfter(h, l, s.pool.threads[t]))
                                  else if l.GrabRead? then h.(pending := Loaded(r.buffer[l.pos], l.items))
                                  else h.(at := if l.Exit? then None else h.at)]
  {
    hide P.Step, R.Step, TakesEffect, Loaded, P.RolesOk;
  }

  lemma Extend(schedule: seq<P.Choice>, c: P.Choice)
    ensures var s := Run(3, 1, schedule); Sized(s) && P.Inv(s.pool) && Run(3, 1, schedule + [c]) == Step(s, c)
    ensures Sized(Run(3, 1, schedule + [c]))
  {
    hide Step;
    assert (schedule + [c])[..|schedule|] == schedule;
  }

  // ---------------------------------------------------------------- the first worker runs a task

  function Draw(t: nat, draw: nat): P.Choice {
    P.Choice(t, draw, None, 0, 0)
  }

  function Submit(t: nat, x: Task, hint: P.Hint): P.Choice {
    P.Choice(t, 1, Some((x, hint)), 0, 0)
  }

  lemma SubmitLegal(s: State, x: Task, hint: P.Hint)
    requires P.Inv(s.pool) && x !in s.pool.submitted
    ensures Legal(s.pool, Some((x, hint)))
  {
    hide P.InRings, P.InSlots, InMotion, Owners;
    TransitIs(s.pool, x);
    WeighIn(s.pool.submitted, x);
  }

  const NEW := Hand(None, 0, Nothing)

  const START := View([P.Loop, P.Loop, P.Loop, P.Running(None)], [], [], [], 0, [NEW, NEW, NEW, NEW], IDLE, 0, 0, [], IDLE, IDLE)

  lemma InitShows()
    ensures Shows(Init(3, 1), START)
  {
  }

  lemma StartShows()
    ensures Shows(Run(3, 1, []), START)
  {
    hide Inv, Init, Shows;
    InitShows();
  }

  /** A client or a running task submits. */
  lemma Submits(s: State, v: View, t: nat, owner: Option<Task>, x: Task, hint: P.Hint)
    requires Sized(s) && P.Inv(s.pool) && Shows(s, v)
    requires t < 4 && v.threads[t] == P.Running(owner) && v.hands[t].at.None? && v.hands[t].pending == Nothing && x !in v.submitted && (t < 3 || hint.ToGlobalQueue?)
    ensures Shows(Step(s, Submit(t, x, hint)), v.(threads := v.threads[t := P.Put(owner, x, hint)], submitted := v.submitted + [x]))
  {
    SubmitLegal(s, x, hint);
    hide Legal;
    var v' := v.(threads := v.threads[t := P.Put(owner, x, hint)], submitted := v.submitted + [x]);
    assert PoolIs(P.Step(s.pool, Submit(t, x, hint)), v');
    PoolShows(s, v, Submit(t, x, hint), v');
  }

  lemma PutsGlobally(s: State, v: View, owner: Option<Task>, x: Task)
    requires Sized(s) && P.Inv(s.pool) && Shows(s, v)
    requires v.threads[3] == P.Put(owner, x, P.ToGlobalQueue) && v.hands[3].at.None? && v.hands[3].pending == Nothing
    ensures Shows(Step(s, Draw(3, 1)), v.(threads := v.threads[3 := P.Counting(owner)], global := v.global + [x]))
  {
    var v' := v.(threads := v.threads[3 := P.Counting(owner)], global := v.global + [x]);
    assert PoolIs(P.Step(s.pool, Draw(3, 1)), v');
    PoolShows(s, v, Draw(3, 1), v');
  }

  lemma PutsLocally(s: State, v: View, owner: Option<Task>, x: Task)
    requires Sized(s) && P.Inv(s.pool) && Shows(s, v)
    requires v.threads[0] == P.Put(owner, x, P.ToLocalQueue) && v.hands[0].at.None? && v.hands[0].pending == Nothing
    ensures Shows(Step(s, Draw(0, 1)), v.(threads := v.threads[0 := P.PutLocal(owner, x)]))
  {
    var v' := v.(threads := v.threads[0 := P.PutLocal(owner, x)]);
    assert PoolIs(P.Step(s.pool, Draw(0, 1)), v');
    PoolShows(s, v, Draw(0, 1), v');
  }

  lemma Counts(s: State, v: View, t: nat, owner: Option<Task>)
    requires Sized(s) && P.Inv(s.pool) && Shows(s, v)
    requires t < 4 && v.threads[t] == P.Counting(owner) && v.hands[t].at.None? && v.hands[t].pending == Nothing
    ensures Shows(Step(s, Draw(t, 1)), v.(threads := v.threads[t := P.Running(owner)]))
  {
    var v' := v.(threads := v.threads[t := P.Running(owner)]);
    assert PoolIs(P.Step(s.pool, Draw(t, 1)), v');
    PoolShows(s, v, Draw(t, 1), v');
  }

  /** A worker looks for work, and its draw is a multiple of 61 or not. */
  lemma Chooses(s: State, v: View, t: nat, draw: nat)
    requires Sized(s) && P.Inv(s.pool) && Shows(s, v)
    requires t < 3 && v.threads[t] == P.Loop && v.hands[t].at.None? && v.hands[t].pending == Nothing
    ensures Shows(Step(s, Draw(t, draw)), v.(threads := v.threads[t := P.Take(if draw % 61 == 0 then P.GLOBAL_STRATEGY else P.DEFAULT_STRATEGY, false)]))
  {
    var v' := v.(threads := v.threads[t := P.Take(if draw % 61 == 0 then P.GLOBAL_STRATEGY else P.DEFAULT_STRATEGY, false)]);
    assert PoolIs(P.Step(s.pool, Draw(t, draw)), v');
    PoolShows(s, v, Draw(t, draw), v');
  }

  lemma TakesFirst(s: State, v: View, r: Task)
    requires Sized(s) && P.Inv(s.pool) && Shows(s, v)
    requires v.threads[0] == P.Take(P.GLOBAL_STRATEGY, false) && v.global == [r] && v.hands[0].at.None? && v.hands[0].pending == Nothing
    ensures Shows(Step(s, Draw(0, 1)), v.(threads := v.threads[0 := P.Taken(r)], global := [], hands := v.hands[0 := v.hands[0].(popped := 1)]))
  {
    var v' := v.(threads := v.threads[0 := P.Taken(r)], global := [], hands := v.hands[0 := v.hands[0].(popped := 1)]);
    assert PoolIs(P.Step(s.pool, Draw(0, 1)), v');
    PoolShows(s, v, Draw(0, 1), v');
  }

  lemma Starts(s: State, v: View, r: Task)
    requires Sized(s) && P.Inv(s.pool) && Shows(s, v)
    requires v.threads[0] == P.Taken(r) && v.hands[0].at.None? && v.hands[0].pending == Nothing
    ensures Shows(Step(s, Draw(0, 1)), v.(threads := v.threads[0 := P.Running(Some(r))]))
  {
    var v' := v.(threads := v.threads[0 := P.Running(Some(r))]);
    assert PoolIs(P.Step(s.pool, Draw(0, 1)), v');
    PoolShows(s, v, Draw(0, 1), v');
  }

  lemma SkipsSlot(s: State, v: View, t: nat)
    requires Sized(s) && P.Inv(s.pool) && Shows(s, v)
    requires t < 3 && v.threads[t] == P.Take(P.DEFAULT_STRATEGY, false) && v.hands[t].at.None? && v.hands[t].pending == Nothing
    ensures Shows(Step(s, Draw(t, 1)), v.(threads := v.threads[t := P.Take([P.LocalQueue, P.GlobalQueue, P.Steal], false)], hands := v.hands[t := v.hands[t].(popped := 1)]))
  {
    assert P.DEFAULT_STRATEGY[1..] == [P.LocalQueue, P.GlobalQueue, P.Steal];
    var v' := v.(threads := v.threads[t := P.Take([P.LocalQueue, P.GlobalQueue, P.Steal], false)], hands := v.hands[t := v.hands[t].(popped := 1)]);
    assert PoolIs(P.Step(s.pool, Draw(t, 1)), v');
    PoolShows(s, v, Draw(t, 1), v');
  }

  lemma SkipsGlobal(s: State, v: View, t: nat)
    requires Sized(s) && P.Inv(s.pool) && Shows(s, v)
    requires t < 3 && v.threads[t] == P.Take([P.GlobalQueue, P.Steal], true) && v.global == [] && v.hands[t].at.None? && v.hands[t].pending == Nothing
    ensures Shows(Step(s, Draw(t, 1)), v.(threads := v.threads[t := P.Take([P.Steal], true)], hands := v.hands[t := v.hands[t].(popped := 1)]))
  {
    var v' := v.(threads := v.threads[t := P.Take([P.Steal], true)], hands := v.hands[t := v.hands[t].(popped := 1)]);
    assert PoolIs(P.Step(s.pool, Draw(t, 1)), v');
    PoolShows(s, v, Draw(t, 1), v');
  }

  lemma SetsOut(s: State, v: View, t: nat)
    requires Sized(s) && P.Inv(s.pool) && Shows(s, v)
    requires t < 3 && v.threads[t] == P.Take([P.Steal], true) && v.robbers < 3 && v.hands[t].at.None? && v.hands[t].pending == Nothing
    ensures Shows(Step(s, Draw(t, 1)), v.(threads := v.threads[t := P.StealGrab([], true)], robbers := v.robbers + 1, hands := v.hands[t := v.hands[t].(popped := 1)]))
  {
    assert [P.Steal][1..] == [];
    var v' := v.(threads := v.threads[t := P.StealGrab([], true)], robbers := v.robbers + 1, hands := v.hands[t := v.hands[t].(popped := 1)]);
    assert PoolIs(P.Step(s.pool, Draw(t, 1)), v');
    PoolShows(s, v, Draw(t, 1), v');
  }

  // ---------------------------------------------------------------- ring operations

  function Locals(v: View, i: nat): seq<R.Local> {
    if i == 0 then v.q0 else if i == 1 then v.q1 else v.q2
  }

  function Moved(v: View, i: nat, t: nat, l: R.Local): View
    requires |v.q0| == |v.q1| == |v.q2| == 4 && t < 4
  {
    if i == 0 then v.(q0 := v.q0[t := l]) else if i == 1 then v.(q1 := v.q1[t := l]) else v.(q2 := v.q2[t := l])
  }

  ghost predicate Busy(v: View, t: nat, i: nat) {
    |v.q0| == |v.q1| == |v.q2| == |v.hands| == 4 && t < 3 && i < 3 && v.hands[t].at == Some(i) && v.hands[t].pending == Nothing
  }

  /** A thread starts its operation. */
  lemma Enters(s: State, v: View, t: nat, i: nat, op: R.Op, l: R.Local)
    requires Sized(s) && Shows(s, v) && t < 3 && i < 3 && |v.q0| == |v.q1| == |v.q2| == 4 && Locals(v, i)[t] == R.Idle
    requires v.hands[t].at.None? && v.hands[t].pending == Nothing && Operation(v.threads[t]) == Some(op) && !v.threads[t].Refill?
    requires if v.threads[t].StealGrab? then i != t else i == t
    requires l == (match op case TryPush(x) => R.PushLoadHead(x) case TryPop => R.PopLoadHead case Grab(n) => R.GrabLoadHead(n))
    ensures Shows(Step(s, P.Choice(t, 1, None, i, 0)), Moved(v, i, t, l).(hands := v.hands[t := v.hands[t].(at := Some(i))]))
  {
    EnterShows(s, v, P.Choice(t, 1, None, i, 0), i, op);
    hide Step, P.RolesOk, P.Step;
  }

  /** A step of an operation that neither takes effect, nor reads a slot to copy, nor returns. */
  lemma Advances(s: State, v: View, t: nat, i: nat, l: R.Local)
    requires Sized(s) && Shows(s, v) && Busy(v, t, i)
    requires var q := Locals(v, i)[t]; !q.Idle? && !q.Exit? && !q.GrabRead? && !TakesEffect(s.rings[i], q)
    requires var r' := R.Step(s.rings[i], R.Choice(t, R.TryPop)); var r := s.rings[i];
      r'.threads == r.threads[t := l] && r'.head == r.head && r'.tail == r.tail && r'.producer == r.producer && r'.capacity == r.capacity
      && |r'.buffer| == |r.buffer| && (r'.buffer == r.buffer || (i == 0 && r'.buffer[..|v.cells|] == r.buffer[..|v.cells|]))
    ensures Shows(Step(s, Draw(t, 1)), Moved(v, i, t, l))
  {
    RingShows(s, Draw(t, 1));
    hide Step, P.RolesOk, P.Step, R.Step, TakesEffect;
    var r, r' := s.rings[i], R.Step(s.rings[i], R.Choice(t, R.TryPop));
    assert forall k | 0 <= k < |v.cells| && i == 0 :: r'.buffer[k] == Some(v.cells[k]) by {
      assert forall k | 0 <= k < |v.cells| && i == 0 :: r'.buffer[..|v.cells|][k] == r.buffer[..|v.cells|][k];
    }
  }

  lemma PushLoadsHead(s: State, v: View, x: Task)
    requires Sized(s) && Shows(s, v) && Busy(v, 0, 0) && v.q0[0] == R.PushLoadHead(x) && v.head == 0 && v.tail < 2
    ensures Shows(Step(s, Draw(0, 1)), Moved(v, 0, 0, R.PushLoadTail(x, 0)))
  {
    hide Step;
    assert s.rings[0].hist + [] == s.rings[0].hist;
    Advances(s, v, 0, 0, R.PushLoadTail(x, 0));
  }

  lemma PushLoadsTail(s: State, v: View, x: Task)
    requires Sized(s) && Shows(s, v) && Busy(v, 0, 0) && v.q0[0] == R.PushLoadTail(x, 0) && v.tail < 2
    ensures Shows(Step(s, Draw(0, 1)), Moved(v, 0, 0, R.PushStore(x, v.tail)))
  {
    hide Step;
    Advances(s, v, 0, 0, R.PushStore(x, v.tail));
  }

  lemma PopLoadsHead(s: State, v: View, t: nat)
    requires Sized(s) && Shows(s, v) && Busy(v, t, t) && 0 < t && Locals(v, t)[t] == R.PopLoadHead
    ensures Shows(Step(s, Draw(t, 1)), Moved(v, t, t, R.PopLoadTail(0)))
  {
    hide Step;
    Advances(s, v, t, t, R.PopLoadTail(0));
  }

  /** An operation returns. */
  lemma Returns(s: State, v: View, t: nat, i: nat)
    requires Sized(s) && Shows(s, v) && Busy(v, t, i) && Locals(v, i)[t].Exit?
    ensures Shows(Step(s, Draw(t, 1)), Moved(v, i, t, R.Idle).(hands := v.hands[t := v.hands[t].(at := None)]))
  {
    RingShows(s, Draw(t, 1));
    hide Step, P.RolesOk, P.Step;
  }

  /** A push that finds room is published: the pool's ring grows with it. */
  lemma Publishes(s: State, v: View, owner: Option<Task>, x: Task)
    requires Sized(s) && Shows(s, v) && Busy(v, 0, 0) && v.threads[0] == P.PutLocal(owner, x)
    requires v.q0[0] == R.PushPublish(x, v.tail) && |v.cells| == v.tail + 1 && v.cells[v.tail] == x && |v.ring| < 2
    ensures Shows(Step(s, Draw(0, 1)),
                  Moved(v, 0, 0, R.Exit(R.TryPush(x), R.Pushed)).(tail := v.tail + 1, ring := v.ring + [x],
                    threads := v.threads[0 := P.Counting(owner)], hands := v.hands[0 := v.hands[0].(popped := 1)]))
  {
    RingShows(s, Draw(0, 1));
    hide Step, P.RolesOk;
  }

  /** The slot at the tail is written. */
  lemma Stores(s: State, v: View, x: Task)
    requires Sized(s) && Shows(s, v) && Busy(v, 0, 0) && v.q0[0] == R.PushStore(x, v.tail) && |v.cells| == v.tail < 2
    ensures Shows(Step(s, Draw(0, 1)), Moved(v, 0, 0, R.PushPublish(x, v.tail)).(cells := v.cells + [x]))
  {
    RingShows(s, Draw(0, 1));
    assert R.Slot(v.tail, CAP + 1) == v.tail;
    hide Step, P.RolesOk, P.Step, R.Slot;
  }

  /** A pop from an empty ring finds nothing. */
  lemma FindsNothing(s: State, v: View, t: nat)
    requires Sized(s) && Shows(s, v) && Busy(v, t, t) && 0 < t && v.threads[t] == P.Take([P.LocalQueue, P.GlobalQueue, P.Steal], false)
    requires Locals(v, t)[t] == R.PopLoadTail(0)
    ensures Shows(Step(s, Draw(t, 1)),
                  Moved(v, t, t, R.Exit(R.TryPop, R.Popped(None))).(threads := v.threads[t := P.Take([P.GlobalQueue, P.Steal], true)]))
  {
    RingShows(s, Draw(t, 1));
    assert [P.LocalQueue, P.GlobalQueue, P.Steal][1..] == [P.GlobalQueue, P.Steal];
    hide Step, P.RolesOk;
  }

  // ---------------------------------------------------------------- stretches of the run

  /** The client submits `r`, and the first worker takes and runs it. */
  lemma WorkerStarts(r: Task) returns (schedule: seq<P.Choice>, v: View)
    ensures v == START.(threads := START.threads[0 := P.Running(Some(r))], submitted := [r], hands := [FREE, NEW, NEW, NEW])
    ensures Shows(Run(3, 1, schedule), v)
  {
    hide Run, Inv, P.Inv, Step, Shows, Sized;
    schedule, v := [], START;
    StartShows();
    assert [] + [r] == [r];
    Extend(schedule, Submit(3, r, P.ToGlobalQueue));
    Submits(Run(3, 1, schedule), v, 3, None, r, P.ToGlobalQueue);
    schedule, v := schedule + [Submit(3, r, P.ToGlobalQueue)], v.(threads := v.threads[3 := P.Put(None, r, P.ToGlobalQueue)], submitted := [r]);
    Extend(schedule, Draw(3, 1));
    PutsGlobally(Run(3, 1, schedule), v, None, r);
    schedule, v := schedule + [Draw(3, 1)], v.(threads := v.threads[3 := P.Counting(None)], global := [r]);
    Extend(schedule, Draw(3, 1));
    Counts(Run(3, 1, schedule), v, 3, None);
    schedule, v := schedule + [Draw(3, 1)], v.(threads := v.threads[3 := P.Running(None)]);
    Extend(schedule, Draw(0, 0));
    Chooses(Run(3, 1, schedule), v, 0, 0);
    schedule, v := schedule + [Draw(0, 0)], v.(threads := v.threads[0 := P.Take(P.GLOBAL_STRATEGY, false)]);
    Extend(schedule, Draw(0, 1));
    TakesFirst(Run(3, 1, schedule), v, r);
    schedule, v := schedule + [Draw(0, 1)], v.(threads := v.threads[0 := P.Taken(r)], global := [], hands := v.hands[0 := FREE]);
    Extend(schedule, Draw(0, 1));
    Starts(Run(3, 1, schedule), v, r);
    schedule, v := schedule + [Draw(0, 1)], v.(threads := v.threads[0 := P.Running(Some(r))]);
  }

  /** The first worker's task submits `x` to its own ring. */
  lemma Pushes(before: seq<P.Choice>, w: View, r: Task, x: Task) returns (schedule: seq<P.Choice>, v: View)
    requires Shows(Run(3, 1, before), w) && |w.threads| == 4 && w.threads[0] == P.Running(Some(r)) && x !in w.submitted
    requires w.q0 == w.q1 == w.q2 == IDLE && w.hands == [FREE, NEW, NEW, NEW] && w.head == 0 && |w.cells| == w.tail == |w.ring| < 2
    ensures v == w.(submitted := w.submitted + [x], ring := w.ring + [x], cells := w.cells + [x], tail := w.tail + 1)
    ensures Shows(Run(3, 1, schedule), v)
  {
    hide Run, Inv, P.Inv, Step, Shows, Sized;
    schedule, v := before, w;
    Extend(schedule, Submit(0, x, P.ToLocalQueue));
    Submits(Run(3, 1, schedule), v, 0, Some(r), x, P.ToLocalQueue);
    schedule, v := schedule + [Submit(0, x, P.ToLocalQueue)],
      v.(threads := v.threads[0 := P.Put(Some(r), x, P.ToLocalQueue)], submitted := v.submitted + [x]);
    Extend(schedule, Draw(0, 1));
    PutsLocally(Run(3, 1, schedule), v, Some(r), x);
    schedule, v := schedule + [Draw(0, 1)], v.(threads := v.threads[0 := P.PutLocal(Some(r), x)]);
    Extend(schedule, Draw(0, 1));
    Enters(Run(3, 1, schedule), v, 0, 0, R.TryPush(x), R.PushLoadHead(x));
    schedule, v := schedule + [Draw(0, 1)], Moved(v, 0, 0, R.PushLoadHead(x)).(hands := v.hands[0 := Hand(Some(0), 1, Nothing)]);
    schedule, v := PushesOn(schedule, v, w, r, x);
  }

  /** ... from its first load on. */
  lemma PushesOn(before: seq<P.Choice>, u: View, w: View, r: Task, x: Task) returns (schedule: seq<P.Choice>, v: View)
    requires Shows(Run(3, 1, before), u) && |w.threads| == 4 && w.q0 == w.q1 == w.q2 == IDLE && w.hands == [FREE, NEW, NEW, NEW]
    requires w.threads[0] == P.Running(Some(r)) && w.head == 0 && |w.cells| == w.tail == |w.ring| < 2
    requires u == w.(threads := w.threads[0 := P.PutLocal(Some(r), x)], submitted := w.submitted + [x],
                     q0 := IDLE[0 := R.PushLoadHead(x)], hands := w.hands[0 := Hand(Some(0), 1, Nothing)])
    ensures v == w.(submitted := w.submitted + [x], ring := w.ring + [x], cells := w.cells + [x], tail := w.tail + 1)
    ensures Shows(Run(3, 1, schedule), v)
  {
    hide Run, Inv, P.Inv, Step, Shows, Sized;
    schedule, v := before, u;
    Extend(schedule, Draw(0, 1));
    PushLoadsHead(Run(3, 1, schedule), v, x);
    schedule, v := schedule + [Draw(0, 1)], Moved(v, 0, 0, R.PushLoadTail(x, 0));
    Extend(schedule, Draw(0, 1));
    PushLoadsTail(Run(3, 1, schedule), v, x);
    schedule, v := schedule + [Draw(0, 1)], Moved(v, 0, 0, R.PushStore(x, v.tail));
    Extend(schedule, Draw(0, 1));
    Stores(Run(3, 1, schedule), v, x);
    schedule, v := schedule + [Draw(0, 1)], Moved(v, 0, 0, R.PushPublish(x, v.tail)).(cells := v.cells + [x]);
    Extend(schedule, Draw(0, 1));
    Publishes(Run(3, 1, schedule), v, Some(r), x);
    schedule, v := schedule + [Draw(0, 1)],
      Moved(v, 0, 0, R.Exit(R.TryPush(x), R.Pushed)).(tail := v.tail + 1, ring := v.ring + [x], threads := v.threads[0 := P.Counting(Some(r))], hands := v.hands[0 := v.hands[0].(popped := 1)]);
    Extend(schedule, Draw(0, 1));
    Returns(Run(3, 1, schedule), v, 0, 0);
    schedule, v := schedule + [Draw(0, 1)], Moved(v, 0, 0, R.Idle).(hands := v.hands[0 := FREE]);
    Extend(schedule, Draw(0, 1));
    Counts(Run(3, 1, schedule), v, 0, Some(r));
    schedule, v := schedule + [Draw(0, 1)], v.(threads := v.threads[0 := P.Running(Some(r))]);
    assert v.hands == w.hands && v.q0 == w.q0 && v.threads == w.threads;
  }

  lemma StealsNext(before: seq<P.Choice>, w: View, t: nat) returns (schedule: seq<P.Choice>, v: View)
    requires Shows(Run(3, 1, before), w) && 0 < t < 3 && |w.threads| == 4 && w.threads[t] == P.Take([P.GlobalQueue, P.Steal], true)
    requires w.robbers < 3 && w.global == [] && |w.hands| == 4 && w.hands[t] == FREE
    ensures v == w.(threads := w.threads[t := P.StealGrab([], true)], robbers := w.robbers + 1)
    ensures Shows(Run(3, 1, schedule), v)
  {
    hide Run, Inv, P.Inv, Step, Shows, Sized;
    schedule, v := before, w;
    assert w.hands[t := w.hands[t].(popped := 1)] == w.hands;
    Extend(schedule, Draw(t, 1));
    SkipsGlobal(Run(3, 1, schedule), v, t);
    schedule, v := schedule + [Draw(t, 1)], v.(threads := v.threads[t := P.Take([P.Steal], true)]);
    Extend(schedule, Draw(t, 1));
    SetsOut(Run(3, 1, schedule), v, t);
    schedule, v := schedule + [Draw(t, 1)], v.(threads := v.threads[t := P.StealGrab([], true)], robbers := v.robbers + 1);
    assert v.threads == w.threads[t := P.StealGrab([], true)];
  }

  /** A worker finds its slot empty and turns to its ring. */
  lemma LooksAtHome(before: seq<P.Choice>, w: View, t: nat) returns (schedule: seq<P.Choice>, v: View)
    requires Shows(Run(3, 1, before), w) && 0 < t < 3 && |w.threads| == 4 && w.threads[t] == P.Loop
    requires w.q0 == w.q1 == w.q2 == IDLE && |w.hands| == 4 && w.hands[t] == NEW
    ensures v == Moved(w, t, t, R.PopLoadHead).(hands := w.hands[t := Hand(Some(t), 1, Nothing)],
                    threads := w.threads[t := P.Take([P.LocalQueue, P.GlobalQueue, P.Steal], false)])
    ensures Shows(Run(3, 1, schedule), v)
  {
    hide Run, Inv, P.Inv, Step, Shows, Sized;
    schedule, v := before, w;
    Extend(schedule, Draw(t, 1));
    Chooses(Run(3, 1, schedule), v, t, 1);
    schedule, v := schedule + [Draw(t, 1)], v.(threads := v.threads[t := P.Take(P.DEFAULT_STRATEGY, false)]);
    Extend(schedule, Draw(t, 1));
    SkipsSlot(Run(3, 1, schedule), v, t);
    schedule, v := schedule + [Draw(t, 1)], v.(threads := v.threads[t := P.Take([P.LocalQueue, P.GlobalQueue, P.Steal], false)], hands := v.hands[t := FREE]);
    var c := P.Choice(t, 1, None, t, 0);
    Extend(schedule, c);
    Enters(Run(3, 1, schedule), v, t, t, R.TryPop, R.PopLoadHead);
    schedule, v := schedule + [c], Moved(v, t, t, R.PopLoadHead).(hands := v.hands[t := Hand(Some(t), 1, Nothing)]);
    assert v.threads == w.threads[t := P.Take([P.LocalQueue, P.GlobalQueue, P.Steal], false)] && v.hands == w.hands[t := Hand(Some(t), 1, Nothing)];
  }

  /** The ring is empty. */
  lemma HomeIsEmpty(before: seq<P.Choice>, w: View, t: nat) returns (schedule: seq<P.Choice>, v: View)
    requires Shows(Run(3, 1, before), w) && 0 < t < 3 && |w.threads| == 4 && |w.q0| == |w.q1| == |w.q2| == |w.hands| == 4
    requires w.threads[t] == P.Take([P.LocalQueue, P.GlobalQueue, P.Steal], false)
    requires Locals(w, t)[t] == R.PopLoadHead && w.hands[t] == Hand(Some(t), 1, Nothing)
    ensures v == Moved(w, t, t, R.Idle).(hands := w.hands[t := FREE], threads := w.threads[t := P.Take([P.GlobalQueue, P.Steal], true)])
    ensures Shows(Run(3, 1, schedule), v)
  {
    hide Run, Inv, P.Inv, Step, Shows, Sized;
    schedule, v := before, w;
    Extend(schedule, Draw(t, 1));
    PopLoadsHead(Run(3, 1, schedule), v, t);
    schedule, v := schedule + [Draw(t, 1)], Moved(v, t, t, R.PopLoadTail(0));
    Extend(schedule, Draw(t, 1));
    FindsNothing(Run(3, 1, schedule), v, t);
    schedule, v := schedule + [Draw(t, 1)], Moved(v, t, t, R.Exit(R.TryPop, R.Popped(None))).(threads := v.threads[t := P.Take([P.GlobalQueue, P.Steal], true)]);
    Extend(schedule, Draw(t, 1));
    Returns(Run(3, 1, schedule), v, t, t);
    schedule, v := schedule + [Draw(t, 1)], Moved(v, t, t, R.Idle).(hands := v.hands[t := FREE]);
    assert v.q1 == Moved(w, t, t, R.Idle).q1 && v.q2 == Moved(w, t, t, R.Idle).q2;
  }

  /** A worker finds its own places empty and sets out to steal. */
  lemma SearchesInVain(before: seq<P.Choice>, w: View, t: nat) returns (schedule: seq<P.Choice>, v: View)
    requires Shows(Run(3, 1, before), w) && 0 < t < 3 && |w.threads| == 4 && w.threads[t] == P.Loop && w.robbers < 3 && w.global == []
    requires w.q0 == w.q1 == w.q2 == IDLE && |w.hands| == 4 && w.hands[t] == NEW
    ensures v == w.(threads := w.threads[t := P.StealGrab([], true)], robbers := w.robbers + 1, hands := w.hands[t := FREE])
    ensures Shows(Run(3, 1, schedule), v)
  {
    hide Run, Inv, Shows;
    schedule, v := LooksAtHome(before, w, t);
    schedule, v := HomeIsEmpty(schedule, v, t);
    schedule, v := StealsNext(schedule, v, t);
    assert v.threads == w.threads[t := P.StealGrab([], true)] && v.hands == w.hands[t := FREE];
    assert v.q1 == w.q1 && v.q2 == w.q2;
  }

  // ---------------------------------------------------------------- two thieves

  /** A thief has read the head and the tail of the first worker's ring. */
  lemma Approaches(before: seq<P.Choice>, w: View, t: nat) returns (schedule: seq<P.Choice>, v: View)
    requires Shows(Run(3, 1, before), w) && 0 < t < 3 && |w.threads| == 4 && w.threads[t] == P.StealGrab([], true)
    requires |w.q0| == |w.q1| == |w.q2| == 4 && w.q0[t] == R.Idle && |w.hands| == 4 && w.hands[t] == FREE && w.head == 0 && w.tail == 2
    ensures v == Moved(w, 0, t, R.GrabRead(256, 0, 2, 0, [])).(hands := w.hands[t := Hand(Some(0), 1, Nothing)])
    ensures Shows(Run(3, 1, schedule), v)
  {
    hide Run, Inv, P.Inv, Step, Shows, Sized;
    schedule, v := before, w;
    var c := P.Choice(t, 1, None, 0, 0);
    Extend(schedule, c);
    Enters(Run(3, 1, schedule), v, t, 0, R.Grab(256), R.GrabLoadHead(256));
    schedule, v := schedule + [c], Moved(v, 0, t, R.GrabLoadHead(256)).(hands := v.hands[t := Hand(Some(0), 1, Nothing)]);
    Extend(schedule, Draw(t, 1));
    GrabLoadsHead(Run(3, 1, schedule), v, t);
    schedule, v := schedule + [Draw(t, 1)], Moved(v, 0, t, R.GrabLoadTail(256, 0));
    Extend(schedule, Draw(t, 1));
    GrabLoadsTail(Run(3, 1, schedule), v, t);
    schedule, v := schedule + [Draw(t, 1)], Moved(v, 0, t, R.GrabRead(256, 0, 2, 0, []));
    assert v.q0 == w.q0[t := R.GrabRead(256, 0, 2, 0, [])];
  }

  lemma GrabLoadsHead(s: State, v: View, t: nat)
    requires Sized(s) && Shows(s, v) && Busy(v, t, 0) && v.q0[t] == R.GrabLoadHead(256) && v.head == 0
    ensures Shows(Step(s, Draw(t, 1)), Moved(v, 0, t, R.GrabLoadTail(256, 0)))
  {
    hide Step;
    Advances(s, v, t, 0, R.GrabLoadTail(256, 0));
  }

  lemma GrabLoadsTail(s: State, v: View, t: nat)
    requires Sized(s) && Shows(s, v) && Busy(v, t, 0) && v.q0[t] == R.GrabLoadTail(256, 0) && v.tail == 2
    ensures Shows(Step(s, Draw(t, 1)), Moved(v, 0, t, R.GrabRead(256, 0, 2, 0, [])))
  {
    hide Step;
    Advances(s, v, t, 0, R.GrabRead(256, 0, 2, 0, []));
  }

  /** The place of a thief that has copied `n` of the two tasks. */
  function Read(v: View, n: nat): R.Local
    requires n <= |v.cells| == 2
  {
    var items := seq(n, i requires 0 <= i < n => Some(v.cells[i]));
    if n < 2 then R.GrabRead(256, 0, 2, n, items) else R.GrabSwing(256, 0, 2, items)
  }

  /** A thief reads the task in slot `n` and has its link to clear. */
  lemma ReadsSlot(s: State, v: View, t: nat, n: nat)
    requires Sized(s) && Shows(s, v) && Busy(v, t, 0) && n < |v.cells| == 2 && v.q0[t] == Read(v, n)
    ensures Shows(Step(s, Draw(t, 1)),
                  Moved(v, 0, t, Read(v, n + 1)).(hands := v.hands[t := v.hands[t].(pending := Clearing(v.cells[n], if n == 0 then None else Some(v.cells[0])))]))
  {
    RingShows(s, Draw(t, 1));
    var items := Read(v, n).items;
    assert items + [Some(v.cells[n])] == Read(v, n + 1).items;
    assert Values(items) == if n == 0 then [] else [v.cells[0]] by {
      if n > 0 {
        assert items[..0] == [];
        assert Values(items) == Values(items[..0]) + P.Listed(items[0]);
      }
    }
    hide Step, P.RolesOk, P.Step, Values, Read;
  }

  /** It writes the link. */
  lemma Clears(s: State, v: View, t: nat, x: Task, prev: Option<Task>)
    requires Sized(s) && Shows(s, v) && t < 4 && v.hands[t].pending == Clearing(x, prev)
    ensures Step(s, Draw(t, 1)).next == s.next[x := None]
    ensures Shows(Step(s, Draw(t, 1)), v.(hands := v.hands[t := v.hands[t].(pending := if prev.Some? then Joining(prev.value, x) else Nothing)]))
  {
    hide Ring, P.RolesOk;
  }

  lemma Joins(s: State, v: View, t: nat, behind: Task, x: Task)
    requires Sized(s) && Shows(s, v) && t < 4 && v.hands[t].pending == Joining(behind, x)
    ensures Shows(Step(s, Draw(t, 1)), v.(hands := v.hands[t := v.hands[t].(pending := Nothing)]))
  {
    hide Ring, P.RolesOk;
  }

  /** The first thief's exchange wins: it has a list of two. */
  lemma Wins(s: State, v: View, t: nat)
    requires Sized(s) && Shows(s, v) && Busy(v, t, 0) && t == 1 && |v.cells| == 2 && v.q0[t] == Read(v, 2) && v.head == 0
    requires v.threads[t] == P.StealGrab([], true) && v.ring == v.cells
    ensures Shows(Step(s, Draw(t, 1)),
                  Moved(v, 0, t, R.Exit(R.Grab(256), R.Grabbed(Read(v, 2).items))).(head := 2, ring := [],
                    threads := v.threads[t := P.Refill(v.cells[0], [v.cells[1]])], hands := v.hands[t := v.hands[t].(popped := 0)]))
  {
    RingShows(s, Draw(t, 1));
    assert v.ring[2..] == [] && v.ring[1..2] == [v.cells[1]];
    hide Step, P.RolesOk;
  }

  // ---------------------------------------------------------------- the loss

  /** Both thieves have read the head and the tail; `r` is running and `a` and `b` are in its worker's ring. */
  lemma Scene(r: Task, a: Task, b: Task) returns (schedule: seq<P.Choice>, v: View)
    requires r != a && r != b && a != b
    ensures v == View([P.Running(Some(r)), P.StealGrab([], true), P.StealGrab([], true), P.Running(None)], [], [a, b], [r, a, b], 2,
                      [FREE, Hand(Some(0), 1, Nothing), Hand(Some(0), 1, Nothing), NEW],
                      [R.Idle, R.GrabRead(256, 0, 2, 0, []), R.GrabRead(256, 0, 2, 0, []), R.Idle], 0, 2, [a, b], IDLE, IDLE)
    ensures Shows(Run(3, 1, schedule), v)
  {
    hide Run, Inv, P.Inv, Step, Shows, Sized;
    schedule, v := WorkerStarts(r);
    schedule, v := Pushes(schedule, v, r, a);
    schedule, v := Pushes(schedule, v, r, b);
    assert [r] + [a] + [b] == [r, a, b] && [] + [a] + [b] == [a, b];
    schedule, v := SearchesInVain(schedule, v, 1);
    schedule, v := SearchesInVain(schedule, v, 2);
    schedule, v := Approaches(schedule, v, 1);
    schedule, v := Approaches(schedule, v, 2);
    assert v.threads == [P.Running(Some(r)), P.StealGrab([], true), P.StealGrab([], true), P.Running(None)];
    assert v.hands == [FREE, Hand(Some(0), 1, Nothing), Hand(Some(0), 1, Nothing), NEW];
    assert v.q0 == [R.Idle, R.GrabRead(256, 0, 2, 0, []), R.GrabRead(256, 0, 2, 0, []), R.Idle];
  }

  /** The first thief copies `a` ... */
  lemma CopiesFirst(before: seq<P.Choice>, w: View, a: Task, b: Task) returns (schedule: seq<P.Choice>, v: View)
    requires Shows(Run(3, 1, before), w) && w.cells == [a, b] && |w.q0| == |w.q1| == |w.q2| == |w.hands| == 4
    requires w.q0[1] == Read(w, 0) && w.hands[1] == Hand(Some(0), 1, Nothing)
    ensures v == w.(q0 := w.q0[1 := Read(w, 1)]) && Shows(Run(3, 1, schedule), v)
  {
    hide Run, Inv, P.Inv, Step, Shows, Sized, Read;
    schedule, v := before, w;
    Extend(schedule, Draw(1, 1));
    ReadsSlot(Run(3, 1, schedule), v, 1, 0);
    schedule, v := schedule + [Draw(1, 1)], Moved(v, 0, 1, Read(v, 1)).(hands := v.hands[1 := Hand(Some(0), 1, Clearing(a, None))]);
    Extend(schedule, Draw(1, 1));
    Clears(Run(3, 1, schedule), v, 1, a, None);
    schedule, v := schedule + [Draw(1, 1)], v.(hands := v.hands[1 := Hand(Some(0), 1, Nothing)]);
    assert v.hands == w.hands;
  }

  /** ... and `b`, and links them. */
  lemma CopiesSecond(before: seq<P.Choice>, w: View, a: Task, b: Task) returns (schedule: seq<P.Choice>, v: View)
    requires Shows(Run(3, 1, before), w) && w.cells == [a, b] && |w.q0| == |w.q1| == |w.q2| == |w.hands| == 4
    requires w.q0[1] == Read(w, 1) && w.hands[1] == Hand(Some(0), 1, Nothing)
    ensures v == w.(q0 := w.q0[1 := Read(w, 2)]) && Shows(Run(3, 1, schedule), v)
  {
    hide Run, Inv, P.Inv, Step, Shows, Sized, Read;
    schedule, v := before, w;
    Extend(schedule, Draw(1, 1));
    ReadsSlot(Run(3, 1, schedule), v, 1, 1);
    schedule, v := schedule + [Draw(1, 1)], Moved(v, 0, 1, Read(v, 2)).(hands := v.hands[1 := Hand(Some(0), 1, Clearing(b, Some(a)))]);
    Extend(schedule, Draw(1, 1));
    Clears(Run(3, 1, schedule), v, 1, b, Some(a));
    schedule, v := schedule + [Draw(1, 1)], v.(hands := v.hands[1 := Hand(Some(0), 1, Joining(a, b))]);
    Extend(schedule, Draw(1, 1));
    Joins(Run(3, 1, schedule), v, 1, a, b);
    schedule, v := schedule + [Draw(1, 1)], v.(hands := v.hands[1 := Hand(Some(0), 1, Nothing)]);
    assert v.hands == w.hands;
  }

  /** The first thief copies both tasks and links them, and the second one reads the first task. */
  lemma BothCopy(before: seq<P.Choice>, w: View, a: Task, b: Task) returns (schedule: seq<P.Choice>, v: View)
    requires Shows(Run(3, 1, before), w) && w.cells == [a, b] && |w.q0| == |w.q1| == |w.q2| == |w.hands| == 4
    requires w.q0[1] == Read(w, 0) && w.q0[2] == Read(w, 0)
    requires w.hands[1] == Hand(Some(0), 1, Nothing) && w.hands[2] == Hand(Some(0), 1, Nothing)
    ensures v == w.(q0 := w.q0[1 := Read(w, 2)][2 := Read(w, 1)], hands := w.hands[2 := Hand(Some(0), 1, Clearing(a, None))])
    ensures Shows(Run(3, 1, schedule), v)
  {
    hide Run, Inv, P.Inv, Step, Shows, Sized, Read;
    schedule, v := CopiesFirst(before, w, a, b);
    ReadSame(w, v);
    schedule, v := CopiesSecond(schedule, v, a, b);
    ReadSame(w, v);
    Extend(schedule, Draw(2, 1));
    ReadsSlot(Run(3, 1, schedule), v, 2, 0);
    schedule, v := schedule + [Draw(2, 1)], Moved(v, 0, 2, Read(v, 1)).(hands := v.hands[2 := Hand(Some(0), 1, Clearing(a, None))]);
    assert v.q0 == w.q0[1 := Read(w, 2)][2 := Read(w, 1)];
  }

  lemma ReadSame(w: View, v: View)
    requires w.cells == v.cells && |w.cells| == 2
    ensures Read(v, 0) == Read(w, 0) && Read(v, 1) == Read(w, 1) && Read(v, 2) == Read(w, 2)
  {
  }

  /** The first thief wins and has its list. */
  lemma FirstWins(before: seq<P.Choice>, w: View, a: Task, b: Task) returns (schedule: seq<P.Choice>, v: View)
    requires Shows(Run(3, 1, before), w) && w.cells == [a, b] && w.ring == [a, b] && w.head == 0
    requires |w.threads| == |w.hands| == 4 && |w.q0| == |w.q1| == |w.q2| == 4
    requires w.q0[1] == Read(w, 2) && w.threads[1] == P.StealGrab([], true) && w.hands[1] == Hand(Some(0), 1, Nothing)
    ensures v == w.(q0 := w.q0[1 := R.Idle], head := 2, ring := [], threads := w.threads[1 := P.Refill(a, [b])], hands := w.hands[1 := NEW])
    ensures Shows(Run(3, 1, schedule), v)
  {
    hide Run, Inv, P.Inv, Step, Shows, Sized;
    schedule, v := before, w;
    Extend(schedule, Draw(1, 1));
    Wins(Run(3, 1, schedule), v, 1);
    schedule, v := schedule + [Draw(1, 1)],
      Moved(v, 0, 1, R.Exit(R.Grab(256), R.Grabbed(Read(v, 2).items))).(head := 2, ring := [],
        threads := v.threads[1 := P.Refill(a, [b])], hands := v.hands[1 := Hand(Some(0), 0, Nothing)]);
    Extend(schedule, Draw(1, 1));
    Returns(Run(3, 1, schedule), v, 1, 0);
    schedule, v := schedule + [Draw(1, 1)], Moved(v, 0, 1, R.Idle).(hands := v.hands[1 := NEW]);
    assert v.q0 == w.q0[1 := R.Idle] && v.hands == w.hands[1 := NEW];
  }

  /** Then the second one clears the link of `a`. */
  lemma SecondClears(before: seq<P.Choice>, w: View, a: Task) returns (schedule: seq<P.Choice>, v: View)
    requires Shows(Run(3, 1, before), w) && |w.hands| == 4 && w.hands[2] == Hand(Some(0), 1, Clearing(a, None))
    ensures Shows(Run(3, 1, schedule), v) && Next(Run(3, 1, schedule).next, a) == None
    ensures v == w.(hands := w.hands[2 := Hand(Some(0), 1, Nothing)])
  {
    hide Run, Inv, P.Inv, Step, Shows, Sized;
    Extend(before, Draw(2, 1));
    Clears(Run(3, 1, before), w, 2, a, None);
    schedule, v := before + [Draw(2, 1)], w.(hands := w.hands[2 := Hand(Some(0), 1, Nothing)]);
  }

  /** What the threads can still reach, which is not `b`. */
  lemma ThreadsMiss(next: Links, r: Task, a: Task, b: Task)
    requires r != b && a != b && Next(next, a) == None
    ensures Batch(P.Refill(a, [b]), 0) == [a, b] && Handed(next, [a, b]) == [a]
    ensures InReaches(next, [P.Running(Some(r)), P.Refill(a, [b]), P.StealGrab([], true), P.Running(None)],
                      [FREE, NEW, Hand(Some(0), 1, Nothing), NEW], b) == 0
  {
    hide InReach, InReaches, Batch, Handed, P.Weigh, Next;
    var t := [P.Running(Some(r)), P.Refill(a, [b]), P.StealGrab([], true), P.Running(None)];
    var h := [FREE, NEW, Hand(Some(0), 1, Nothing), NEW];
    BatchMisses(next, a, b);
    OtherMisses(next, t[0], 1, b);
    OtherMisses(next, t[2], 1, b);
    OtherMisses(next, t[3], 0, b);
    NoneReach(next, t, h, b);
  }

  lemma {:induction false} NoneReach(next: Links, threads: seq<P.Local>, hands: seq<Hand>, x: Task)
    requires |threads| == |hands| && forall t | 0 <= t < |threads| :: InReach(next, threads[t], hands[t].popped, x) == 0
    ensures InReaches(next, threads, hands, x) == 0
    decreases |threads|
  {
    hide InReach;
    if threads != [] {
      NoneReach(next, threads[..|threads| - 1], hands[..|threads| - 1], x);
    }
  }

  lemma BatchMisses(next: Links, a: Task, b: Task)
    requires a != b && Next(next, a) == None
    ensures InReach(next, P.Refill(a, [b]), 0, b) == 0
    ensures Batch(P.Refill(a, [b]), 0) == [a, b] && Handed(next, [a, b]) == [a]
  {
    var l := P.Refill(a, [b]);
    assert Batch(l, 0) == [a, b] && Handed(next, [a, b]) == [a] && Aside(l, 0) == [];
  }

  lemma OtherMisses(next: Links, l: P.Local, popped: nat, b: Task)
    requires l.StealGrab? || (l.Running? && l.owner != Some(b))
    ensures InReach(next, l, popped, b) == 0
  {
    assert Batched(l) == [] && Lone(l) == [] && Aside(l, popped) == Owned(l);
  }

  lemma NowhereElse(b: Task)
    ensures P.InRings([[], [], []], P.Of(b)) == 0 && P.InSlots([None, None, None], P.Of(b)) == 0
  {
    var rings: seq<seq<Task>>, slots: seq<Option<Task>> := [[], [], []], [None, None, None];
    PT.NothingInRings(rings, P.Of(b));
    PT.NothingInSlots(slots, P.Of(b));
  }

  /** Nothing but the cut list holds `b`. */
  lemma OutOfReach(s: State, v: View, r: Task, a: Task, b: Task)
    requires r != b && a != b && Next(s.next, a) == None && Shows(s, v)
    requires v.threads == [P.Running(Some(r)), P.Refill(a, [b]), P.StealGrab([], true), P.Running(None)]
    requires v.hands == [FREE, NEW, Hand(Some(0), 1, Nothing), NEW] && v.global == [] && v.ring == []
    ensures |s.pool.threads| == |s.hands| == 4 && Reachable(s, b) == 0
    ensures Batch(s.pool.threads[1], s.hands[1].popped) == [a, b] && Handed(s.next, [a, b]) == [a]
  {
    hide Ring, InReaches, P.InRings, P.InSlots, Batch;
    ThreadsMiss(s.next, r, a, b);
    NowhereElse(b);
  }

  lemma PopMisreads(s: State, a: Task, b: Task)
    requires Sized(s) && |s.hands| == 4 && s.pool.threads[1] == P.Refill(a, [b]) && s.hands[1] == NEW && Next(s.next, a) == None
    requires a != b
    ensures Misreads(s, Draw(1, 1)) && !Intact(s)
  {
    hide P.RolesOk, R.InBounds, P.Share;
    var list := Batch(s.pool.threads[1], 0);
    assert list == [a, b] && list[0] == a && list[1] == b;
    assert Drain(s.next, a, b, 2) == [a];
    assert !Linked(s.next, list, 1);
    assert !HandsOut(s.next, Batch(s.pool.threads[1], s.hands[1].popped));
  }

  /**
   A run after which a task is gone.  The list of the first thief should hold `a` and `b` and hands out `a` alone;
   the next step pops `a` and follows its null link; `b` was submitted, has not run, and cannot be reached.
   */
  lemma TaskLost(r: Task, a: Task, b: Task) returns (schedule: seq<P.Choice>)
    requires r != a && r != b && a != b
    ensures var s := Run(3, 1, schedule);
      && |s.hands| == |s.pool.threads| == 4 && Sized(s)
      && s.pool.submitted == [r, a, b] && s.pool.ran == [] && Reachable(s, b) == 0
      && Batch(s.pool.threads[1], s.hands[1].popped) == [a, b] && Handed(s.next, [a, b]) == [a]
      && Misreads(s, Draw(1, 1)) && !NeverTorn(3, 1, schedule)
  {
    hide Run, Inv, P.Inv, Step, Sized, Read, Reachable, NeverTorn, Drain, Shows, Misreads, Batch, Intact;
    var v;
    schedule, v := Scene(r, a, b);
    FreshReads(v);
    var w := v;
    schedule, v := BothCopy(schedule, w, a, b);
    ReadSame(w, v);
    schedule, v := FirstWins(schedule, v, a, b);
    schedule, v := SecondClears(schedule, v, a);
    var s := Run(3, 1, schedule);
    assert v.hands == [FREE, NEW, Hand(Some(0), 1, Nothing), NEW];
    assert v.threads == [P.Running(Some(r)), P.Refill(a, [b]), P.StealGrab([], true), P.Running(None)];
    OutOfReach(s, v, r, a, b);
    Extend(schedule, Draw(1, 1));
    ShowsParts(s, v);
    PopMisreads(s, a, b);
    ListsHold(3, 1, schedule);
    assert schedule[..|schedule|] == schedule;
  }

  lemma ShowsParts(s: State, v: View)
    requires Shows(s, v)
    ensures s.hands == v.hands && s.pool.threads == v.threads && s.pool.submitted == v.submitted && s.pool.ran == []
  {
  }

  lemma FreshReads(v: View)
    requires |v.cells| == 2
    ensures Read(v, 0) == R.GrabRead(256, 0, 2, 0, [])
  {
  }
}
