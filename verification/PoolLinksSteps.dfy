/** Every step of the pool with its links keeps the invariant of `PoolLinks`. */
module PoolLinksSteps {
  import opened Basics
  import opened Histories
  import opened PoolLinks
  import P = ThreadPool
  import PT = ThreadPoolTheorems
  import R = RingQueue
  import RT = RingQueueTheorems

  // ---------------------------------------------------------------- a task is in one place only

  /** The task a thread runs. */
  function Owned(l: P.Local): seq<Task> {
    match l
    case Running(owner) => P.Listed(owner)
    case Put(owner, _, _) => P.Listed(owner)
    case PutLocal(owner, _) => P.Listed(owner)
    case PutFull(owner, _) => P.Listed(owner)
    case PutSpill(owner, _, _) => P.Listed(owner)
    case Counting(owner) => P.Listed(owner)
    case _ => []
  }

  function Owners(threads: seq<P.Local>, x: Task): nat {
    if threads == [] then 0
    else Owners(threads[..|threads| - 1], x) + P.Weigh(Owned(threads[|threads| - 1]), P.Of(x))
  }

  lemma HeldIs(l: P.Local)
    ensures P.Held(l) == Owned(l) + Moving(l)
  {
    hide P.Listed;
  }

  lemma HeldParts(l: P.Local, x: Task)
    ensures P.Weigh(P.Held(l), P.Of(x)) == P.Weigh(Owned(l), P.Of(x)) + P.Weigh(Moving(l), P.Of(x))
  {
    hide P.Held, Owned, Moving, P.Weigh;
    HeldIs(l);
    PT.WeighSum(Owned(l), Moving(l), P.Of(x));
  }

  lemma {:induction false} HandsParts(threads: seq<P.Local>, x: Task)
    ensures P.InHands(threads, P.Of(x)) == Owners(threads, x) + InMotion(threads, x)
  {
    hide P.Held, Owned, Moving, P.Weigh;
    if threads != [] {
      HandsParts(threads[..|threads| - 1], x);
      HeldParts(threads[|threads| - 1], x);
    }
  }

  lemma {:induction false} OwnersUpdate(threads: seq<P.Local>, t: nat, l: P.Local, x: Task)
    requires t < |threads|
    ensures Owners(threads[t := l], x) == Owners(threads, x) - P.Weigh(Owned(threads[t]), P.Of(x)) + P.Weigh(Owned(l), P.Of(x))
  {
    hide P.Weigh, Owned;
    var n := |threads| - 1;
    if t == n {
      assert threads[t := l][..n] == threads[..n];
    } else {
      assert threads[t := l][..n] == threads[..n][t := l];
      OwnersUpdate(threads[..n], t, l, x);
    }
  }

  /** A task in transit was submitted, has not run, and is not running. */
  lemma TransitIs(pool: P.State, x: Task)
    requires P.Inv(pool)
    ensures Transit(pool, x) == P.Weigh(pool.submitted, P.Of(x)) - P.Weigh(pool.ran, P.Of(x)) - Owners(pool.threads, x)
  {
    hide P.InRings, P.InSlots, P.InHands, InMotion, Owners, P.Weigh;
    HandsParts(pool.threads, x);
    assert P.Weigh(pool.submitted, P.Of(x)) == P.Weigh(pool.ran, P.Of(x)) + P.Waiting(pool, P.Of(x)) + P.InHands(pool.threads, P.Of(x));
  }

  /** A step brings a task into transit only by submitting it. */
  ghost predicate Spends(pool: P.State, pool': P.State, t: nat, submit: Option<(Task, P.Hint)>, x: Task)
    requires t < |pool.threads|
  {
    && |pool'.threads| == |pool.threads| && pool'.threads == pool.threads[t := pool'.threads[t]]
    && P.Weigh(pool'.submitted, P.Of(x)) - P.Weigh(pool'.ran, P.Of(x)) - P.Weigh(Owned(pool'.threads[t]), P.Of(x)) <=
         P.Weigh(pool.submitted, P.Of(x)) - P.Weigh(pool.ran, P.Of(x)) - P.Weigh(Owned(pool.threads[t]), P.Of(x)) +
         if pool.threads[t].Running? && submit.Some? && submit.value.0 == x then 1 else 0
  }

  lemma TakeSpends(pool: P.State, c: P.Choice, x: Task)
    requires P.RolesOk(pool) && c.t < |pool.threads|
    requires var l := pool.threads[c.t]; l.Loop? || l.Take? || l.StealGrab? || l.Refill? || l.RefillFull? || l.RefillSpill? || l.Taken? || l.Returned?
    ensures Spends(pool, P.Step(pool, c), c.t, c.submit, x)
  {
    hide P.Share, P.Grabbed, P.LOCAL_QUEUE_SIZE, P.Weigh, P.Listed;
    PT.WeighEmpty(P.Of(x));
  }

  lemma RunningSpends(pool: P.State, c: P.Choice, x: Task)
    requires P.RolesOk(pool) && c.t < |pool.threads| && pool.threads[c.t].Running?
    ensures Spends(pool, P.Step(pool, c), c.t, c.submit, x)
  {
    hide P.Share, P.Grabbed, P.Weigh;
    PT.WeighEmpty(P.Of(x));
    var owner := pool.threads[c.t].owner;
    if c.submit.Some? {
      var y := c.submit.value.0;
      PT.WeighSum(pool.submitted, [y], P.Of(x));
      assert P.Weigh([y], P.Of(x)) == if y == x then 1 else 0 by {
        WeighOne(y, x);
      }
    } else if owner.Some? {
      PT.WeighSum(pool.ran, [owner.value], P.Of(x));
    }
  }

  lemma WeighOne(y: Task, x: Task)
    ensures P.Weigh([y], P.Of(x)) == if y == x then 1 else 0
  {
  }

  lemma PutSpends(pool: P.State, c: P.Choice, x: Task)
    requires P.RolesOk(pool) && c.t < |pool.threads|
    requires var l := pool.threads[c.t]; l.Put? || l.PutLocal? || l.PutFull? || l.PutSpill? || l.Counting?
    ensures Spends(pool, P.Step(pool, c), c.t, c.submit, x)
  {
    hide P.Share, P.Grabbed, P.LOCAL_QUEUE_SIZE, P.Weigh, P.Listed;
    PT.WeighEmpty(P.Of(x));
  }

  lemma TransitStep(pool: P.State, c: P.Choice, x: Task)
    requires P.Inv(pool) && c.t < |pool.threads|
    ensures P.Inv(P.Step(pool, c)) && |P.Step(pool, c).threads| == |pool.threads|
    ensures Transit(P.Step(pool, c), x) <=
            Transit(pool, x) + if pool.threads[c.t].Running? && c.submit.Some? && c.submit.value.0 == x then 1 else 0
  {
    PT.StepKeeps(pool, c);
    TransitIs(pool, x);
    TransitIs(P.Step(pool, c), x);
    hide P.Step, Transit, Owners, P.Weigh, P.Conserved;
    assert Spends(pool, P.Step(pool, c), c.t, c.submit, x) by {
      var l := pool.threads[c.t];
      if l.Running? {
        RunningSpends(pool, c, x);
      } else if l.Put? || l.PutLocal? || l.PutFull? || l.PutSpill? || l.Counting? {
        PutSpends(pool, c, x);
      } else {
        TakeSpends(pool, c, x);
      }
    }
    OwnersUpdate(pool.threads, c.t, P.Step(pool, c).threads[c.t], x);
  }

  /** Legal submissions keep every task in one place. */
  lemma UniqueKeeps(pool: P.State, c: P.Choice)
    requires P.Inv(pool) && Unique(pool) && c.t < |pool.threads|
    requires pool.threads[c.t].Running? ==> Legal(pool, c.submit)
    ensures P.Inv(P.Step(pool, c)) && Unique(P.Step(pool, c))
  {
    hide P.Step, Transit;
    PT.StepKeeps(pool, c);
    forall x: Task ensures Transit(P.Step(pool, c), x) <= 1 {
      TransitStep(pool, c, x);
      assert Transit(pool, x) <= 1;
    }
  }

  // ---------------------------------------------------------------- what the pool's steps change

  /** Thread `t` moves, and the rings become `rings`. */
  ghost predicate Reaches(pool: P.State, pool': P.State, t: nat, rings: seq<seq<Task>>) {
    && pool'.workers == pool.workers && pool'.rings == rings
    && t < |pool.threads| == |pool'.threads| && pool'.threads == pool.threads[t := pool'.threads[t]]
  }

  /** Outside of ring operations the rings do not change. */
  lemma TakeFrame(pool: P.State, c: P.Choice, popped: nat)
    requires P.RolesOk(pool) && c.t < |pool.threads| && BatchOk(pool.threads[c.t], popped)
    requires var l := pool.threads[c.t]; Operation(l).None? && (l.Loop? || l.Take? || l.Refill? || l.RefillSpill? || l.Taken? || l.Returned?)
    ensures var pool' := P.Step(pool, c);
      Reaches(pool, pool', c.t, pool.rings) && BatchOk(pool'.threads[c.t], if pool.threads[c.t].Take? then 1 else popped)
  {
    hide P.Share, P.LOCAL_QUEUE_SIZE;
  }

  lemma PutFrame(pool: P.State, c: P.Choice, popped: nat)
    requires P.RolesOk(pool) && c.t < |pool.threads|
    requires var l := pool.threads[c.t]; Operation(l).None? && (l.Running? || l.Put? || l.PutSpill? || l.Counting?)
    ensures var pool' := P.Step(pool, c);
      Reaches(pool, pool', c.t, pool.rings) && BatchOk(pool'.threads[c.t], popped)
  {
  }

  lemma PoolFrame(pool: P.State, c: P.Choice, popped: nat)
    requires P.RolesOk(pool) && c.t < |pool.threads| && Operation(pool.threads[c.t]).None? && BatchOk(pool.threads[c.t], popped)
    ensures var pool' := P.Step(pool, c);
      Reaches(pool, pool', c.t, pool.rings) && BatchOk(pool'.threads[c.t], if pool.threads[c.t].Take? then 1 else popped)
  {
    hide P.Step, BatchOk;
    var l := pool.threads[c.t];
    if l.Running? || l.Put? || l.PutSpill? || l.Counting? {
      PutFrame(pool, c, popped);
    } else {
      TakeFrame(pool, c, popped);
    }
  }

  /** The pool gives the answer that the ring gives: ring `i` becomes `q'`. */
  lemma TakeAnswers(pool: P.State, c: P.Choice, res: R.Res, q': seq<Task>)
    requires P.RolesOk(pool) && c.t < pool.workers && pool.threads[c.t].Take?
    requires Operation(pool.threads[c.t]) == Some(R.TryPop)
    requires R.Answer(P.LOCAL_QUEUE_SIZE, pool.rings[c.t], R.TryPop, res) == Some(q')
    ensures var pool' := P.Step(pool, c);
      Reaches(pool, pool', c.t, pool.rings[c.t := q']) && pool'.global == pool.global && (pool'.threads[c.t].Take? || pool'.threads[c.t].Taken?)
  {
  }

  lemma PushAnswers(pool: P.State, c: P.Choice, x: Task, res: R.Res, q': seq<Task>)
    requires P.RolesOk(pool) && c.t < pool.workers && (pool.threads[c.t].Refill? || pool.threads[c.t].PutLocal?)
    requires Operation(pool.threads[c.t]) == Some(R.TryPush(x))
    requires R.Answer(P.LOCAL_QUEUE_SIZE, pool.rings[c.t], R.TryPush(x), res) == Some(q')
    ensures var pool' := P.Step(pool, c); var l, l' := pool.threads[c.t], pool'.threads[c.t];
      && Reaches(pool, pool', c.t, pool.rings[c.t := q']) && pool'.global == pool.global
      && (l.Refill? && res.Pushed? ==> l' == P.Refill(l.result, l.rest[1..]))
      && (l.Refill? && res.Full? ==> l' == P.RefillFull(l.result, l.rest))
      && (l.PutLocal? ==> l'.Counting? || l'.PutFull?)
  {
  }

  lemma GrabAnswers(pool: P.State, c: P.Choice, size: nat, res: R.Res, q': seq<Task>)
    requires P.RolesOk(pool) && c.t < pool.workers && c.from < pool.workers
    requires Operation(pool.threads[c.t]) == Some(R.Grab(size)) && (pool.threads[c.t].StealGrab? <==> c.from != c.t)
    requires R.Answer(P.LOCAL_QUEUE_SIZE, pool.rings[c.from], R.Grab(size), res) == Some(q') && c.amount == |res.items|
    ensures var pool' := P.Step(pool, c); var ring, l, l' := pool.rings[c.from], pool.threads[c.t], pool'.threads[c.t];
      && Reaches(pool, pool', c.t, pool.rings[c.from := q']) && pool'.global == pool.global
      && (l.StealGrab? && c.amount > 0 ==> l' == P.Refill(ring[0], ring[1..c.amount]))
      && (l.StealGrab? && c.amount == 0 ==> l'.Take?)
      && (l.PutFull? ==> l' == P.PutSpill(l.owner, l.item, ring[..c.amount]))
      && (l.RefillFull? ==> l' == P.RefillSpill(l.result, l.rest, ring[..c.amount]))
  {
  }

  // ---------------------------------------------------------------- what a ring's steps change

  /** The other threads of a ring do not notice in which phase of an operation they are that somebody moved. */
  lemma RingFrame(r: R.State, c: R.Choice)
    requires R.Inv(r) && R.InBounds(r) && c.t < |r.threads|
    ensures var r' := R.Step(r, c);
      && r'.threads == r.threads[c.t := r'.threads[c.t]]
      && forall u | 0 <= u < |r.threads| && u != c.t :: R.PhaseAt(r', r.threads[u]) == R.PhaseAt(r, r.threads[u])
  {
    hide R.HistoryOk;
    var r' := R.Step(r, c);
    assert r'.tail == r.tail || r.threads[c.t].PushPublish?;
    assert r'.capacity == r.capacity;
    forall u | 0 <= u < |r.threads| && u != c.t ensures R.PhaseAt(r', r.threads[u]) == R.PhaseAt(r, r.threads[u]) {
      assert R.Pushing(r.threads[u]) ==> u == r.producer;
      assert R.Pushing(r.threads[c.t]) ==> c.t == r.producer;
    }
  }

  /** An operation takes effect with an answer of the bounded queue, and is quiet otherwise. */
  lemma RingMoves(r: R.State, t: nat)
    requires R.Inv(r) && R.InBounds(r) && t < |r.threads| && !r.threads[t].Idle?
    ensures var l := r.threads[t]; var r' := R.Step(r, R.Choice(t, R.TryPop)); var was, now := R.PhaseAt(r, l), R.PhaseAt(r', r'.threads[t]);
      && (!TakesEffect(r, l) ==> R.BufferOk(r') && R.Contents(r') == R.Contents(r))
      && (!TakesEffect(r, l) && !l.Exit? ==> now == was && !r'.threads[t].Idle?)
      && (l.Exit? ==> r'.threads[t].Idle? && !TakesEffect(r, l))
  {
    hide R.HistoryOk;
    RT.StepKeeps(r, R.Choice(t, R.TryPop));
    assert R.LocalOk(r, t, r.threads[t]);
  }

  function AnswerAt(r: R.State, l: R.Local): R.Res {
    match l
    case PushLoadHead(_) => R.Full
    case PushPublish(_, _) => R.Pushed
    case PopLoadTail(_) => R.Popped(None)
    case PopSwing(_, got) => R.Popped(got)
    case GrabSwing(_, _, _, items) => R.Grabbed(items)
    case _ => R.Full
  }

  ghost predicate Answers(r: R.State, t: nat, r': R.State)
    requires t < |r.threads| && |r'.threads| == |r.threads| && R.BufferOk(r) && R.BufferOk(r')
  {
    var l := r.threads[t];
    && R.PhaseAt(r, l).Called?
    && R.PhaseAt(r', r'.threads[t]) == Done(R.PhaseAt(r, l).op, AnswerAt(r, l)) && !r'.threads[t].Idle?
    && R.Answer(r.capacity, R.Contents(r), R.PhaseAt(r, l).op, AnswerAt(r, l)) == Some(R.Contents(r'))
  }

  lemma PushTells(r: R.State, t: nat)
    requires R.Inv(r) && R.InBounds(r) && t < |r.threads| && TakesEffect(r, r.threads[t])
    requires r.threads[t].PushLoadHead? || r.threads[t].PushPublish?
    ensures var r' := R.Step(r, R.Choice(t, R.TryPop)); R.Inv(r') && |r'.threads| == |r.threads| && Answers(r, t, r')
  {
    hide R.HistoryOk, R.Slot;
    RT.StepKeeps(r, R.Choice(t, R.TryPop));
    assert R.LocalOk(r, t, r.threads[t]);
    if r.threads[t].PushPublish? {
      assert R.Contents(R.Step(r, R.Choice(t, R.TryPop))) == R.Contents(r) + [r.threads[t].item];
    }
  }

  lemma PopTells(r: R.State, t: nat)
    requires R.Inv(r) && R.InBounds(r) && t < |r.threads| && TakesEffect(r, r.threads[t])
    requires r.threads[t].PopLoadTail? || r.threads[t].PopSwing?
    ensures var r' := R.Step(r, R.Choice(t, R.TryPop)); R.Inv(r') && |r'.threads| == |r.threads| && Answers(r, t, r')
  {
    hide R.HistoryOk, R.Slot;
    RT.StepKeeps(r, R.Choice(t, R.TryPop));
    assert R.LocalOk(r, t, r.threads[t]);
  }

  lemma GrabTells(r: R.State, t: nat)
    requires R.Inv(r) && R.InBounds(r) && t < |r.threads| && TakesEffect(r, r.threads[t]) && r.threads[t].GrabSwing?
    ensures var r' := R.Step(r, R.Choice(t, R.TryPop)); R.Inv(r') && |r'.threads| == |r.threads| && Answers(r, t, r')
  {
    hide R.HistoryOk, R.Slot;
    RT.StepKeeps(r, R.Choice(t, R.TryPop));
    assert R.LocalOk(r, t, r.threads[t]);
  }

  lemma RingAnswers(r: R.State, t: nat)
    requires R.Inv(r) && R.InBounds(r) && t < |r.threads| && TakesEffect(r, r.threads[t])
    ensures var r' := R.Step(r, R.Choice(t, R.TryPop)); R.Inv(r') && |r'.threads| == |r.threads| && Answers(r, t, r')
  {
    hide R.Step, R.Inv, Answers;
    var l := r.threads[t];
    if l.PushLoadHead? || l.PushPublish? {
      PushTells(r, t);
    } else if l.GrabSwing? {
      GrabTells(r, t);
    } else {
      PopTells(r, t);
    }
  }

  // ---------------------------------------------------------------- every step keeps the invariant

  /** What thread `t` is to show after a step. */
  ghost predicate MovedOk(s: State, rings: seq<R.State>, l: P.Local, h: Hand, t: nat)
    requires |rings| == |s.rings| && forall j | 0 <= j < |rings| :: t < |rings[j].threads|
  {
    && (h.at.Some? ==>
          && h.at.value < |rings| && t < s.pool.workers
          && Engaged(rings[h.at.value], rings[h.at.value].threads[t], l, h.popped, h.at.value == t)
          && PendingOk(h.pending, rings[h.at.value].threads[t]))
    && (h.at.None? ==> h.pending == Nothing)
    && (forall j | 0 <= j < |rings| && h.at != Some(j) :: rings[j].threads[t].Idle?)
    && BatchOk(l, h.popped)
  }

  lemma BoundsOf(s: State, i: nat)
    requires i < |s.rings| && RingOk(s, i)
    ensures R.InBounds(s.rings[i])
  {
    hide R.HistoryOk;
    R.Boundaries(s.rings[i]);
  }

  /** A step that leaves the rings alone. */
  lemma AloofKeeps(s: State, s': State, t: nat)
    requires Inv(s) && t < |s.hands| == |s'.hands| && s'.rings == s.rings && s'.hands == s.hands[t := s'.hands[t]]
    requires P.Inv(s'.pool) && Unique(s'.pool) && Reaches(s.pool, s'.pool, t, s.pool.rings)
    requires MovedOk(s, s.rings, s'.pool.threads[t], s'.hands[t], t)
    ensures Inv(s')
  {
    hide P.Inv, Unique, Engaged, BatchOk, PendingOk, R.Inv, R.Contents, P.RolesOk, R.InBounds;
    assert P.RolesOk(s'.pool) by {
      RolesOf(s'.pool);
    }
    forall i | 0 <= i < |s'.rings| ensures RingOk(s', i) {
      assert RingOk(s, i);
    }
    assert Sized(s');
    forall u | 0 <= u < |s'.hands| ensures HandOk(s', u) {
      assert HandOk(s, u);
    }
  }

  lemma RolesOf(pool: P.State)
    requires P.Inv(pool)
    ensures P.RolesOk(pool)
  {
    hide P.Conserved, P.Debts, P.Unannounced, P.Waiting;
  }

  /** A step in ring `i`: only thread `t` moves, there and in the pool. */
  ghost predicate InRing(s: State, s': State, t: nat, i: nat)
    requires t < |s.hands| && i < |s.rings| == |s'.rings| && i < |s.pool.rings| && R.Inv(s'.rings[i])
  {
    var r, r' := s.rings[i], s'.rings[i];
    && |s'.hands| == |s.hands| && s'.rings == s.rings[i := r'] && s'.hands == s.hands[t := s'.hands[t]]
    && r'.capacity == r.capacity && r'.producer == r.producer && t < |r.threads| == |r'.threads|
    && r'.threads == r.threads[t := r'.threads[t]]
    && (forall u | 0 <= u < |r.threads| && u != t :: R.PhaseAt(r', r.threads[u]) == R.PhaseAt(r, r.threads[u]))
    && Reaches(s.pool, s'.pool, t, s.pool.rings[i := R.Contents(r')])
  }

  lemma RingsKeep(s: State, s': State, t: nat, i: nat)
    requires Inv(s) && t < |s.hands| && i < |s.rings| == |s'.rings| && i < |s.pool.rings| && R.Inv(s'.rings[i]) && InRing(s, s', t, i)
    requires P.Inv(s'.pool)
    ensures Sized(s'.(hands := s.hands)) && forall j | 0 <= j < |s'.rings| :: RingOk(s', j)
  {
    assert |s.pool.rings| == |s.rings|;
    hide P.Inv, Unique, HandOk, R.LocalsOk, R.HistoryOk, R.Slot, R.Contents, P.RolesOk, R.InBounds, R.PhaseAt;
    assert P.RolesOk(s'.pool) by {
      RolesOf(s'.pool);
    }
    forall j | 0 <= j < |s'.rings| ensures RingOk(s', j) && R.InBounds(s'.rings[j]) && |s'.rings[j].threads| == |s'.hands| {
      assert RingOk(s, j);
      assert j != i ==> s'.rings[j] == s.rings[j] && s'.pool.rings[j] == s.pool.rings[j];
      assert j == i ==> s'.pool.rings[j] == R.Contents(s'.rings[i]);
      assert RingOk(s', j);
      BoundsOf(s', j);
    }
  }

  lemma OtherHand(s: State, s': State, t: nat, i: nat, u: nat)
    requires Sized(s) && Sized(s') && t < |s.hands| && i < |s.rings| == |s'.rings| && i < |s.pool.rings| && R.Inv(s'.rings[i])
    requires InRing(s, s', t, i)
    requires u < |s.hands| && u != t && HandOk(s, u)
    ensures HandOk(s', u)
  {
    hide BatchOk, R.Inv, R.Contents, P.RolesOk, R.InBounds, R.PhaseAt, Operation, PendingOk;
  }

  lemma RingwiseKeeps(s: State, s': State, t: nat, i: nat)
    requires Inv(s) && t < |s.hands| && i < |s.rings| == |s'.rings| && i < |s.pool.rings| && R.Inv(s'.rings[i]) && InRing(s, s', t, i)
    requires P.Inv(s'.pool) && Unique(s'.pool) && t < |s'.pool.threads|
    requires MovedOk(s, s'.rings, s'.pool.threads[t], s'.hands[t], t)
    ensures Inv(s')
  {
    RingsKeep(s, s', t, i);
    hide P.Inv, Unique, BatchOk, R.Inv, R.Contents, P.RolesOk, R.InBounds, Engaged, RingOk, PendingOk;
    assert Sized(s');
    forall u | 0 <= u < |s'.hands| ensures HandOk(s', u) {
      if u != t {
        OtherHand(s, s', t, i, u);
      }
    }
  }

  lemma WriteKeeps(s: State, t: nat)
    requires Inv(s) && t < |s.hands| && s.hands[t].pending != Nothing
    ensures Inv(StepWrite(s, t))
  {
    var s' := StepWrite(s, t);
    assert HandOk(s, t);
    hide P.Inv, Unique, Engaged, BatchOk, R.Inv, R.Contents, P.RolesOk, R.InBounds;
    AloofKeeps(s, s', t);
  }

  lemma PopKeeps(s: State, t: nat, popped: nat)
    requires Inv(s) && t < |s.hands| && s.hands[t].at.None? && BatchOk(s.pool.threads[t], popped)
    ensures Inv(Put(s, t, s.hands[t].(popped := popped)))
  {
    assert HandOk(s, t);
    hide P.Inv, Unique, Engaged, BatchOk, R.Inv, R.Contents, P.RolesOk, R.InBounds, PendingOk;
    AloofKeeps(s, Put(s, t, s.hands[t].(popped := popped)), t);
  }

  lemma PoolKeeps(s: State, t: nat, c: P.Choice)
    requires Inv(s) && t < |s.hands| && c.t == t && s.hands[t].at.None? && Operation(s.pool.threads[t]).None?
    ensures Inv(StepPool(s, t, c))
  {
    assert HandOk(s, t);
    var s' := StepPool(s, t, c);
    if !(s.pool.threads[t].Running? && !Legal(s.pool, c.submit)) {
      UniqueKeeps(s.pool, c);
      PoolFrame(s.pool, c, s.hands[t].popped);
      hide P.Inv, P.Step, Unique, Engaged, BatchOk, R.Inv, R.Contents, P.RolesOk, R.InBounds, PendingOk, Relinked;
      AloofKeeps(s, s', t);
    }
  }

  /** What a thread that starts a ring operation leaves as it was. */
  ghost predicate Entered(r: R.State, r': R.State, t: nat, op: R.Op)
    requires R.Inv(r) && R.Inv(r') && t < |r.threads|
  {
    && r'.capacity == r.capacity && r'.producer == r.producer && |r'.threads| == |r.threads|
    && r'.threads == r.threads[t := r'.threads[t]]
    && (forall u | 0 <= u < |r.threads| && u != t :: R.PhaseAt(r', r.threads[u]) == R.PhaseAt(r, r.threads[u]))
    && R.Contents(r') == R.Contents(r)
    && !r'.threads[t].Idle? && R.PhaseAt(r', r'.threads[t]) == Called(op)
  }

  lemma RingEntered(r: R.State, t: nat, op: R.Op)
    requires R.Inv(r) && R.InBounds(r) && t < |r.threads| && r.threads[t].Idle? && (op.TryPush? ==> t == r.producer)
    ensures var r' := R.Step(r, R.Choice(t, op)); R.Inv(r') && Entered(r, r', t, op)
  {
    hide R.HistoryOk, R.Slot;
    RT.StepKeeps(r, R.Choice(t, op));
    RingFrame(r, R.Choice(t, op));
  }

  lemma EnterKeeps(s: State, t: nat, i: nat, op: R.Op)
    requires Inv(s) && t < s.pool.workers && t < |s.hands| && i < |s.rings| && s.hands[t].at.None?
    requires Operation(s.pool.threads[t]) == Some(op) && (s.pool.threads[t].StealGrab? <==> i != t)
    requires s.pool.threads[t].Refill? ==> s.hands[t].popped == 2
    ensures Inv(StepEnter(s, t, i, op))
  {
    hide P.Inv, Unique, BatchOk, R.Contents, P.RolesOk, R.InBounds, R.Step, R.PhaseAt, R.HistoryOk, R.LocalsOk, R.Slot;
    assert HandOk(s, t) && RingOk(s, i);
    if op.TryPush? {
      PushesOwn(s.pool.threads[t], op);
    }
    RingEntered(s.rings[i], t, op);
    var s' := StepEnter(s, t, i, op);
    assert R.Contents(s'.rings[i]) == s.pool.rings[i];
    assert s.pool.rings[i := R.Contents(s'.rings[i])] == s.pool.rings;
    hide R.Inv, Operation;
    RingwiseKeeps(s, s', t, i);
  }

  lemma PushesOwn(l: P.Local, op: R.Op)
    requires Operation(l) == Some(op) && op.TryPush?
    ensures !l.StealGrab?
  {
  }

  /** What a step of a ring operation that takes no effect leaves as it was. */
  ghost predicate Unmoved(r: R.State, r': R.State, t: nat)
    requires R.Inv(r) && R.Inv(r') && t < |r.threads|
  {
    var l := r.threads[t];
    && r'.capacity == r.capacity && r'.producer == r.producer && |r'.threads| == |r.threads|
    && r'.threads == r.threads[t := r'.threads[t]]
    && (forall u | 0 <= u < |r.threads| && u != t :: R.PhaseAt(r', r.threads[u]) == R.PhaseAt(r, r.threads[u]))
    && R.Contents(r') == R.Contents(r)
    && (l.Exit? <==> r'.threads[t].Idle?)
    && (!l.Exit? ==> R.PhaseAt(r', r'.threads[t]) == R.PhaseAt(r, l))
    && (l.GrabRead? ==> l.pos < |r.buffer| && PendingOk(Loaded(r.buffer[l.pos], l.items), r'.threads[t]))
  }

  lemma RingQuiet(r: R.State, t: nat)
    requires R.Inv(r) && R.InBounds(r) && t < |r.threads| && !r.threads[t].Idle? && !TakesEffect(r, r.threads[t])
    ensures var r' := R.Step(r, R.Choice(t, R.TryPop)); R.Inv(r') && Unmoved(r, r', t)
  {
    RT.StepKeeps(r, R.Choice(t, R.TryPop));
    RingFrame(r, R.Choice(t, R.TryPop));
    RingMoves(r, t);
    if r.threads[t].GrabRead? {
      LoadedOk(r, t);
    }
    hide R.Step, R.PhaseAt, PendingOk, Loaded, R.HistoryOk, R.LocalsOk, R.BufferOk, R.Contents;
  }

  lemma LoadedOk(r: R.State, t: nat)
    requires R.InBounds(r) && t < |r.threads| && r.threads[t].GrabRead?
    ensures var l := r.threads[t]; PendingOk(Loaded(r.buffer[l.pos], l.items), R.Step(r, R.Choice(t, R.TryPop)).threads[t])
  {
    var l := r.threads[t];
    assert (l.items + [r.buffer[l.pos]])[..|l.items|] == l.items;
  }

  /** A step of a ring operation that takes no effect. */
  lemma QuietKeeps(s: State, t: nat)
    requires Inv(s) && t < |s.hands| && s.hands[t].pending == Nothing && s.hands[t].at.Some?
    requires var r := s.rings[s.hands[t].at.value]; !TakesEffect(r, r.threads[t])
    ensures Inv(StepRing(s, t))
  {
    hide P.Inv, Unique, BatchOk, R.Contents, P.RolesOk, R.InBounds, R.Step, R.PhaseAt, Loaded, TakesEffect,
         R.HistoryOk, R.LocalsOk, R.Slot, Operation;
    var h := s.hands[t];
    var i := h.at.value;
    assert HandOk(s, t) && RingOk(s, i);
    assert i < |s.pool.rings| && !s.rings[i].threads[t].Idle? by {
      EngagedBusy(s, t);
    }
    RingQuiet(s.rings[i], t);
    var s' := StepRing(s, t);
    assert R.Contents(s'.rings[i]) == s.pool.rings[i];
    assert s.pool.rings[i := R.Contents(s'.rings[i])] == s.pool.rings;
    hide R.Inv;
    RingwiseKeeps(s, s', t, i);
  }

  lemma EngagedBusy(s: State, t: nat)
    requires Sized(s) && t < |s.hands| && HandOk(s, t) && s.hands[t].at.Some?
    ensures !s.rings[s.hands[t].at.value].threads[t].Idle?
  {
  }

  /** The choice with which the pool follows its ring. */
  function Follow(r: R.State, t: nat, i: nat): P.Choice
    requires t < |r.threads|
  {
    P.Choice(t, 0, None, i, if r.threads[t].GrabSwing? then |r.threads[t].items| else 0)
  }

  /** The pool's answer is the ring's, whichever operation takes effect. */
  lemma PoolAnswers(pool: P.State, popped: nat, t: nat, i: nat, r: R.State)
    requires P.RolesOk(pool) && t < pool.workers && i < pool.workers && t < |r.threads| && BatchOk(pool.threads[t], popped)
    requires R.Inv(r) && R.InBounds(r) && r.capacity == P.LOCAL_QUEUE_SIZE && pool.rings[i] == R.Contents(r)
    requires TakesEffect(r, r.threads[t]) && Engaged(r, r.threads[t], pool.threads[t], popped, i == t)
    ensures var pool' := P.Step(pool, Follow(r, t, i)); var r' := R.Step(r, R.Choice(t, R.TryPop));
      && R.Inv(r') && Reaches(pool, pool', t, pool.rings[i := R.Contents(r')])
      && BatchOk(pool'.threads[t], PoppedAfter(Hand(None, popped, Nothing), r.threads[t], pool.threads[t]))
  {
    var rl, c := r.threads[t], Follow(r, t, i);
    assert P.Sized(pool);
    RingAnswers(r, t);
    hide R.Step, P.Step, R.Answer, R.HistoryOk, R.LocalsOk, R.BufferOk, R.Slot, R.InBounds, P.RolesOk, R.Contents;
    var q' := R.Contents(R.Step(r, R.Choice(t, R.TryPop)));
    match R.PhaseAt(r, rl).op {
      case TryPop => TakeAnswers(pool, c, AnswerAt(r, rl), q');
      case TryPush(x) => PushAnswers(pool, c, x, AnswerAt(r, rl), q');
      case Grab(size) => GrabAnswers(pool, c, size, AnswerAt(r, rl), q');
    }
  }

  /** A step in which a ring operation takes effect. */
  lemma EffectKeeps(s: State, t: nat)
    requires Inv(s) && t < |s.hands| && s.hands[t].pending == Nothing && s.hands[t].at.Some?
    requires var r := s.rings[s.hands[t].at.value]; TakesEffect(r, r.threads[t])
    ensures Inv(StepRing(s, t))
  {
    hide P.Inv, Unique, BatchOk, R.Contents, P.RolesOk, R.InBounds, R.Step, P.Step,
         R.HistoryOk, R.LocalsOk, R.Slot, Operation, Transit, P.Sized;
    var h := s.hands[t];
    var i := h.at.value;
    assert HandOk(s, t) && RingOk(s, i);
    var r := s.rings[i];
    PoolAnswers(s.pool, h.popped, t, i, r);
    RingAnswers(r, t);
    RingFrame(r, R.Choice(t, R.TryPop));
    RT.StepKeeps(r, R.Choice(t, R.TryPop));
    UniqueKeeps(s.pool, Follow(r, t, i));
    var s' := StepRing(s, t);
    RingwiseKeeps(s, s', t, i);
  }

  lemma RingKeeps(s: State, t: nat)
    requires Inv(s) && t < |s.hands| && s.hands[t].pending == Nothing && s.hands[t].at.Some?
    ensures Inv(StepRing(s, t))
  {
    hide Inv, StepRing, TakesEffect;
    assert Sized(s) by {
      SizedOf(s);
    }
    var r := s.rings[s.hands[t].at.value];
    if TakesEffect(r, r.threads[t]) {
      EffectKeeps(s, t);
    } else {
      QuietKeeps(s, t);
    }
  }

  lemma SizedOf(s: State)
    requires Inv(s)
    ensures Sized(s)
  {
  }

  lemma StepKeeps(s: State, c: P.Choice)
    requires Inv(s)
    ensures Inv(Step(s, c))
  {
    if c.t < |s.hands| {
      var t := c.t;
      assert HandOk(s, t);
      if s.hands[t].pending != Nothing {
        WriteKeeps(s, t);
      } else if s.hands[t].at.Some? {
        RingKeeps(s, t);
      } else {
        var l := s.pool.threads[t];
        hide P.Inv, Unique, R.Inv, P.Step, RingOk, StepEnter, StepPool;
        if l.Refill? {
          if s.hands[t].popped == 0 {
            PopKeeps(s, t, 1);
          } else if l.rest == [] {
            PoolKeeps(s, t, c);
          } else if s.hands[t].popped == 1 {
            PopKeeps(s, t, 2);
          } else {
            EnterKeeps(s, t, t, R.TryPush(l.rest[0]));
          }
        } else if Operation(l).None? {
          PoolKeeps(s, t, c);
        } else if !l.StealGrab? {
          EnterKeeps(s, t, t, Operation(l).value);
        } else if c.from < s.pool.workers && c.from != t {
          EnterKeeps(s, t, c.from, Operation(l).value);
        }
      }
    }
  }
}
