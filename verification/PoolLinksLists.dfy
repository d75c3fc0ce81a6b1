/** Which steps of the pool leave a list of tasks that no longer hands out what it should. */
module PoolLinksLists {
  import opened Basics
  import opened PoolLinks
  import opened PoolLinksSteps
  import P = ThreadPool
  import PT = ThreadPoolTheorems
  import R = RingQueue
  import RT = RingQueueTheorems

  // ---------------------------------------------------------------- what a list hands out

  predicate Distinct(list: seq<Task>) {
    forall i, j | 0 <= i < j < |list| :: list[i] != list[j]
  }

  /** Every task of the list but the last links to the one behind it. */
  predicate Threaded(next: Links, list: seq<Task>) {
    forall i | 0 <= i < |list| - 1 :: Next(next, list[i]) == Some(list[i + 1])
  }

  lemma {:induction false} DrainFollows(next: Links, list: seq<Task>)
    requires list != [] && Distinct(list)
    ensures Drain(next, list[0], list[|list| - 1], |list|) == list <==> Threaded(next, list)
    decreases |list|
  {
    if |list| == 1 {
      assert list == [list[0]];
    } else {
      var x, tail := list[0], list[|list| - 1];
      assert x != tail;
      DrainFollows(next, list[1..]);
      assert list == [x] + list[1..];
      assert Threaded(next, list) <==> Next(next, x) == Some(list[1]) && Threaded(next, list[1..]) by {
        ThreadedCons(next, list);
      }
      var rest := Drain(next, x, tail, |list|);
      match Next(next, x)
      case None => assert |rest| == 1;
      case Some(y) =>
        assert rest[1..] == Drain(next, y, tail, |list| - 1);
        assert rest[1] == y;
    }
  }

  lemma ThreadedCons(next: Links, list: seq<Task>)
    requires |list| > 1
    ensures Threaded(next, list) <==> Next(next, list[0]) == Some(list[1]) && Threaded(next, list[1..])
  {
    var rest := list[1..];
    forall i | 0 <= i < |list| - 1 ensures i > 0 ==> list[i] == rest[i - 1] && list[i + 1] == rest[i] {
    }
    if Next(next, list[0]) == Some(list[1]) && Threaded(next, rest) {
      forall i | 0 <= i < |list| - 1 ensures Next(next, list[i]) == Some(list[i + 1]) {
        if i > 0 {
          assert Next(next, rest[i - 1]) == Some(rest[i - 1 + 1]);
        }
      }
    }
  }

  /** The links of every list are in place. */
  ghost predicate Whole(s: State) {
    && |s.hands| == |s.pool.threads|
    && Threaded(s.next, s.pool.global)
    && (forall t | 0 <= t < |s.hands| :: Threaded(s.next, Batch(s.pool.threads[t], s.hands[t].popped)))
    && (forall t | 0 <= t < |s.hands| :: Threaded(s.next, Spill(s.pool.threads[t])))
  }

  // ---------------------------------------------------------------- where a task is not

  lemma {:induction false} MotionUpdate(threads: seq<P.Local>, t: nat, l: P.Local, x: Task)
    requires t < |threads|
    ensures InMotion(threads[t := l], x) == InMotion(threads, x) - P.Weigh(Moving(threads[t]), P.Of(x)) + P.Weigh(Moving(l), P.Of(x))
  {
    hide P.Weigh, Moving;
    var n := |threads| - 1;
    if t == n {
      assert threads[t := l][..n] == threads[..n];
    } else {
      assert threads[t := l][..n] == threads[..n][t := l];
      MotionUpdate(threads[..n], t, l, x);
    }
  }

  lemma MotionParts(threads: seq<P.Local>, t: nat, u: nat, x: Task)
    requires t < |threads| && u < |threads|
    ensures InMotion(threads, x) >= P.Weigh(Moving(threads[t]), P.Of(x))
    ensures t != u ==> InMotion(threads, x) >= P.Weigh(Moving(threads[t]), P.Of(x)) + P.Weigh(Moving(threads[u]), P.Of(x))
  {
    hide P.Weigh;
    var bare := threads[t := P.Loop];
    MotionUpdate(threads, t, P.Loop, x);
    MotionUpdate(bare, u, P.Loop, x);
    PT.WeighEmpty(P.Of(x));
  }

  lemma WeighIn(list: seq<Task>, x: Task)
    ensures P.Weigh(list, P.Of(x)) > 0 <==> x in list
  {
  }

  /** A task in the global queue is in nobody's hands. */
  lemma GlobalApart(pool: P.State, x: Task, u: nat)
    requires Unique(pool) && x in pool.global && u < |pool.threads|
    ensures x !in Moving(pool.threads[u])
  {
    hide P.Weigh, P.InRings, P.InSlots, InMotion;
    assert Transit(pool, x) <= 1;
    WeighIn(pool.global, x);
    WeighIn(Moving(pool.threads[u]), x);
    MotionParts(pool.threads, u, u, x);
  }

  /** A task in one thread's hands is in nobody else's, and not in the global queue. */
  lemma HandApart(pool: P.State, t: nat, x: Task, u: nat)
    requires Unique(pool) && t < |pool.threads| && x in Moving(pool.threads[t]) && u < |pool.threads|
    ensures x !in pool.global && (u != t ==> x !in Moving(pool.threads[u]))
  {
    hide P.Weigh, P.InRings, P.InSlots, InMotion;
    assert Transit(pool, x) <= 1;
    WeighIn(pool.global, x);
    WeighIn(Moving(pool.threads[t]), x);
    WeighIn(Moving(pool.threads[u]), x);
    MotionParts(pool.threads, t, u, x);
  }

  lemma WeighTwice(list: seq<Task>, i: nat, j: nat)
    requires i < j < |list| && list[i] == list[j]
    ensures P.Weigh(list, P.Of(list[i])) >= 2
  {
    var x := list[i];
    PT.WeighSplit(list, j, P.Of(x));
    WeighIn(list[..j], x);
    WeighIn(list[j..], x);
    assert list[..j][i] == x && list[j..][0] == x;
  }

  /** No task is in a list twice. */
  lemma GlobalDistinct(pool: P.State)
    requires Unique(pool)
    ensures Distinct(pool.global)
  {
    hide P.Weigh, P.InRings, P.InSlots, InMotion;
    forall i, j | 0 <= i < j < |pool.global| ensures pool.global[i] != pool.global[j] {
      assert Transit(pool, pool.global[i]) <= 1;
      if pool.global[i] == pool.global[j] {
        WeighTwice(pool.global, i, j);
      }
    }
  }

  lemma HandDistinct(pool: P.State, t: nat)
    requires Unique(pool) && t < |pool.threads|
    ensures Distinct(Moving(pool.threads[t]))
  {
    hide P.Weigh, P.InRings, P.InSlots, InMotion, Moving;
    var list := Moving(pool.threads[t]);
    forall i, j | 0 <= i < j < |list| ensures list[i] != list[j] {
      MotionParts(pool.threads, t, t, list[i]);
      assert Transit(pool, list[i]) <= 1;
      if list[i] == list[j] {
        WeighTwice(list, i, j);
      }
    }
  }

  /** The lists of a thread are stretches of what it has in its hands. */
  lemma ListsMove(l: P.Local, popped: nat)
    ensures forall x | x in Batch(l, popped) :: x in Moving(l)
    ensures forall x | x in Spill(l) :: x in Moving(l)
    ensures Distinct(Moving(l)) ==> Distinct(Batch(l, popped)) && Distinct(Spill(l))
  {
    var b, m := Batched(l), Moving(l);
    assert b <= m;
    assert forall i | 0 <= i < |Batch(l, popped)| :: Batch(l, popped)[i] == m[popped + i];
    var k := |m| - |Spill(l)|;
    assert forall i | 0 <= i < |Spill(l)| :: Spill(l)[i] == m[k + i];
  }

  /** Looking at the links and asking for the tasks one by one is the same. */
  lemma IntactIsWhole(s: State)
    requires Inv(s)
    ensures Intact(s) <==> Whole(s)
  {
    hide Batch, Spill, Distinct, Threaded, Drain, P.Inv, Unique, RingOk, HandOk;
    GlobalDistinct(s.pool);
    ListIntact(s.next, s.pool.global);
    forall t | 0 <= t < |s.hands|
      ensures HandsOut(s.next, Batch(s.pool.threads[t], s.hands[t].popped)) <==> Threaded(s.next, Batch(s.pool.threads[t], s.hands[t].popped))
      ensures HandsOut(s.next, Spill(s.pool.threads[t])) <==> Threaded(s.next, Spill(s.pool.threads[t]))
    {
      HandDistinct(s.pool, t);
      ListsMove(s.pool.threads[t], s.hands[t].popped);
      ListIntact(s.next, Batch(s.pool.threads[t], s.hands[t].popped));
      ListIntact(s.next, Spill(s.pool.threads[t]));
    }
  }

  lemma ListIntact(next: Links, list: seq<Task>)
    requires Distinct(list)
    ensures HandsOut(next, list) <==> Threaded(next, list)
  {
    if list != [] {
      DrainFollows(next, list);
    }
  }

  // ---------------------------------------------------------------- which steps tear a list

  predicate Follows(list: seq<Task>, x: Task, y: Task) {
    exists i :: 0 <= i < |list| - 1 && list[i] == x && list[i + 1] == y
  }

  /** Some list has `y` right behind `x`. */
  ghost predicate Precedes(s: State, x: Task, y: Task)
    requires |s.hands| == |s.pool.threads|
  {
    || Follows(s.pool.global, x, y)
    || (exists t :: 0 <= t < |s.hands| && Follows(Batch(s.pool.threads[t], s.hands[t].popped), x, y))
    || (exists t :: 0 <= t < |s.hands| && Follows(Spill(s.pool.threads[t]), x, y))
  }

  /** Writing `v` into the link of `x` cuts it off from the task behind it in a list. */
  ghost predicate Cuts(s: State, x: Task, v: Option<Task>)
    requires |s.hands| == |s.pool.threads|
  {
    exists y :: Precedes(s, x, y) && v != Some(y)
  }

  /**
   The step writes, for a `Grab` that is still copying, the link of a task that is in a list and has another
   task behind it there; or it is the exchange of a `Grab` that wins although the links it wrote have been
   written by others since.
   */
  ghost predicate Tears(s: State, c: P.Choice)
    requires Sized(s)
  {
    c.t < |s.hands| &&
    match s.hands[c.t].pending
    case Clearing(x, _) => Cuts(s, x, None)
    case Joining(behind, x) => Cuts(s, behind, Some(x))
    case Nothing =>
      s.hands[c.t].at.Some? &&
      var r := s.rings[s.hands[c.t].at.value];
      var l := r.threads[c.t];
      l.GrabSwing? && r.head == l.head && !Threaded(s.next, Values(l.items))
  }

  lemma WriteOne(next: Links, list: seq<Task>, x: Task, v: Option<Task>)
    requires Threaded(next, list)
    ensures Threaded(next[x := v], list) <==> forall y | Follows(list, x, y) :: v == Some(y)
  {
    if Threaded(next[x := v], list) {
      forall y | Follows(list, x, y) ensures v == Some(y) {
        var i :| 0 <= i < |list| - 1 && list[i] == x && list[i + 1] == y;
        assert Next(next[x := v], list[i]) == Some(list[i + 1]);
      }
    }
    if forall y | Follows(list, x, y) :: v == Some(y) {
      forall i | 0 <= i < |list| - 1 ensures Next(next[x := v], list[i]) == Some(list[i + 1]) {
        if list[i] == x {
          assert Follows(list, x, list[i + 1]);
        }
      }
    }
  }

  lemma WriteTears(s: State, s': State, x: Task, v: Option<Task>)
    requires |s.hands| == |s.pool.threads| == |s'.hands| && Whole(s)
    requires s'.pool == s.pool && s'.next == s.next[x := v]
    requires forall t | 0 <= t < |s.hands| :: s'.hands[t].popped == s.hands[t].popped
    ensures Whole(s') <==> !Cuts(s, x, v)
  {
    hide Batch, Spill, Threaded, Follows;
    WriteOne(s.next, s.pool.global, x, v);
    forall t | 0 <= t < |s.hands|
      ensures Threaded(s'.next, Batch(s.pool.threads[t], s.hands[t].popped)) <==>
              forall y | Follows(Batch(s.pool.threads[t], s.hands[t].popped), x, y) :: v == Some(y)
      ensures Threaded(s'.next, Spill(s.pool.threads[t])) <==> forall y | Follows(Spill(s.pool.threads[t]), x, y) :: v == Some(y)
    {
      WriteOne(s.next, Batch(s.pool.threads[t], s.hands[t].popped), x, v);
      WriteOne(s.next, Spill(s.pool.threads[t]), x, v);
    }
    if !Whole(s') {
      if t :| 0 <= t < |s.hands| && !Threaded(s'.next, Batch(s.pool.threads[t], s.hands[t].popped)) {
        var y :| Follows(Batch(s.pool.threads[t], s.hands[t].popped), x, y) && v != Some(y);
        assert Precedes(s, x, y);
      } else if t :| 0 <= t < |s.hands| && !Threaded(s'.next, Spill(s.pool.threads[t])) {
        var y :| Follows(Spill(s.pool.threads[t]), x, y) && v != Some(y);
        assert Precedes(s, x, y);
      } else {
        var y :| Follows(s.pool.global, x, y) && v != Some(y);
        assert Precedes(s, x, y);
      }
    }
  }

  // ---------------------------------------------------------------- ring operations

  lemma {:induction false} FrontValues(items: seq<Option<Task>>, q: seq<Task>)
    requires R.Front(items, q)
    ensures Values(items) == q[..|items|]
  {
    if items != [] {
      var n := |items| - 1;
      FrontValues(items[..n], q);
      assert items[n] == Some(q[n]);
      assert q[..|items|] == q[..n] + [q[n]];
    }
  }

  /** The lists of a thread after its ring operation took effect. */
  ghost predicate ListsAfter(l: P.Local, popped: nat, l': P.Local, popped': nat, rl: R.Local) {
    if rl.GrabSwing? && l.StealGrab? then Batch(l', popped') == Values(rl.items) && Spill(l') == Spill(l)
    else if rl.GrabSwing? then Batch(l', popped') == Batch(l, popped) && Spill(l') == Values(rl.items)
    else Batch(l', popped') == Batch(l, popped) && Spill(l') == Spill(l)
  }

  lemma PushLists(l: P.Local, popped: nat, l': P.Local, rl: R.Local)
    requires l.Refill? || l.PutLocal?
    requires l.Refill? ==> popped == 2 && l.rest != []
    requires l.Refill? && rl.PushPublish? ==> l' == P.Refill(l.result, l.rest[1..])
    requires l.Refill? && rl.PushLoadHead? ==> l' == P.RefillFull(l.result, l.rest)
    requires l.PutLocal? ==> l'.Counting? || l'.PutFull?
    requires rl.PushPublish? || rl.PushLoadHead?
    ensures ListsAfter(l, popped, l', PoppedAfter(Hand(None, popped, Nothing), rl, l), rl)
  {
    if l.Refill? {
      assert ([l.result] + l.rest)[2..] == l.rest[1..];
      assert ([l.result] + l.rest[1..])[1..] == l.rest[1..];
    }
  }

  lemma GrabLists(l: P.Local, popped: nat, l': P.Local, rl: R.Local, ring: seq<Task>)
    requires rl.GrabSwing? && R.Front(rl.items, ring) && (l.StealGrab? || l.PutFull? || l.RefillFull?)
    requires var n := |rl.items|;
      && (l.StealGrab? && n > 0 ==> l' == P.Refill(ring[0], ring[1..n]))
      && (l.StealGrab? && n == 0 ==> l'.Take?)
      && (l.PutFull? ==> l' == P.PutSpill(l.owner, l.item, ring[..n]))
      && (l.RefillFull? ==> l' == P.RefillSpill(l.result, l.rest, ring[..n]))
    ensures ListsAfter(l, popped, l', PoppedAfter(Hand(None, popped, Nothing), rl, l), rl)
  {
    FrontValues(rl.items, ring);
    if l.StealGrab? && rl.items != [] {
      assert [ring[0]] + ring[1..|rl.items|] == ring[..|rl.items|];
    }
  }

  lemma PoolLists(pool: P.State, popped: nat, t: nat, i: nat, r: R.State)
    requires P.RolesOk(pool) && t < pool.workers && i < pool.workers && t < |r.threads| && BatchOk(pool.threads[t], popped)
    requires R.Inv(r) && R.InBounds(r) && r.capacity == P.LOCAL_QUEUE_SIZE && pool.rings[i] == R.Contents(r)
    requires TakesEffect(r, r.threads[t]) && Engaged(r, r.threads[t], pool.threads[t], popped, i == t)
    ensures var pool' := P.Step(pool, Follow(r, t, i)); var l, rl := pool.threads[t], r.threads[t];
      && pool'.global == pool.global && |pool'.threads| == |pool.threads| && pool'.threads == pool.threads[t := pool'.threads[t]]
      && ListsAfter(l, popped, pool'.threads[t], PoppedAfter(Hand(None, popped, Nothing), rl, l), rl)
  {
    var rl, c, l := r.threads[t], Follow(r, t, i), pool.threads[t];
    RingAnswers(r, t);
    hide R.Step, P.Step, R.HistoryOk, R.LocalsOk, R.BufferOk, R.Slot, R.InBounds, P.RolesOk, R.Contents;
    var q' := R.Contents(R.Step(r, R.Choice(t, R.TryPop)));
    match R.PhaseAt(r, rl).op {
      case TryPop =>
        hide R.Answer;
        TakeAnswers(pool, c, AnswerAt(r, rl), q');
      case TryPush(x) =>
        hide R.Answer, Batch, Spill;
        PushAnswers(pool, c, x, AnswerAt(r, rl), q');
        PushLists(l, popped, P.Step(pool, c).threads[t], rl);
      case Grab(size) =>
        hide Batch, Spill;
        GrabAnswers(pool, c, size, AnswerAt(r, rl), q');
        GrabLists(l, popped, P.Step(pool, c).threads[t], rl, pool.rings[i]);
    }
  }

  /** Only the lists of thread `t` change. */
  lemma ThreadMoves(s: State, s': State, t: nat)
    requires |s.hands| == |s.pool.threads| == |s'.hands| == |s'.pool.threads| && t < |s.hands| && Whole(s)
    requires s'.next == s.next && s'.pool.global == s.pool.global
    requires s'.pool.threads == s.pool.threads[t := s'.pool.threads[t]] && s'.hands == s.hands[t := s'.hands[t]]
    ensures Whole(s') <==> Threaded(s.next, Batch(s'.pool.threads[t], s'.hands[t].popped)) && Threaded(s.next, Spill(s'.pool.threads[t]))
  {
    hide Batch, Spill, Threaded;
    forall u | 0 <= u < |s.hands| && u != t
      ensures Threaded(s'.next, Batch(s'.pool.threads[u], s'.hands[u].popped)) && Threaded(s'.next, Spill(s'.pool.threads[u]))
    {
      assert s'.pool.threads[u] == s.pool.threads[u] && s'.hands[u] == s.hands[u];
    }
  }

  lemma EffectWhole(s: State, t: nat)
    requires Inv(s) && Whole(s) && t < |s.hands| && s.hands[t].at.Some?
    requires var r := s.rings[s.hands[t].at.value]; TakesEffect(r, r.threads[t])
    ensures var rl := s.rings[s.hands[t].at.value].threads[t];
      Whole(StepRing(s, t)) <==> (rl.GrabSwing? ==> Threaded(s.next, Values(rl.items)))
  {
    hide Batch, Spill, Threaded, P.Step, R.Step, P.Inv, Unique, R.HistoryOk, R.LocalsOk, R.Slot, R.Contents, P.RolesOk, R.InBounds, BatchOk, Operation,
         PoppedAfter, TakesEffect, Engaged, PendingOk, Values;
    var h := s.hands[t];
    assert HandOk(s, t) && RingOk(s, h.at.value);
    PoolLists(s.pool, h.popped, t, h.at.value, s.rings[h.at.value]);
    PoppedSame(h, s.rings[h.at.value].threads[t], s.pool.threads[t]);
    ThreadMoves(s, StepRing(s, t), t);
  }

  lemma PoppedSame(h: Hand, rl: R.Local, l: P.Local)
    ensures PoppedAfter(Hand(None, h.popped, Nothing), rl, l) == PoppedAfter(h, rl, l)
  {
  }

  lemma QuietWhole(s: State, t: nat)
    requires Inv(s) && Whole(s) && t < |s.hands| && s.hands[t].at.Some?
    requires var r := s.rings[s.hands[t].at.value]; !TakesEffect(r, r.threads[t])
    ensures Whole(StepRing(s, t))
  {
    hide Batch, Spill, Threaded, R.Step, P.Inv, Unique, RingOk, HandOk, P.RolesOk, R.InBounds, TakesEffect, Loaded, PoppedAfter;
    var s' := StepRing(s, t);
    assert s'.pool == s.pool && s'.next == s.next && s'.hands[t].popped == s.hands[t].popped;
    ThreadMoves(s, s', t);
  }

  /** A ring operation tears a list only if it is a `Grab` that wins with links that are not in place. */
  lemma RingWhole(s: State, t: nat, c: P.Choice)
    requires Inv(s) && Whole(s) && c.t == t < |s.hands| && s.hands[t].pending == Nothing && s.hands[t].at.Some?
    ensures Whole(StepRing(s, t)) <==> !Tears(s, c)
  {
    hide Whole, Threaded, StepRing, P.Inv, Unique, RingOk, HandOk, P.RolesOk, R.InBounds, Values, Cuts;
    var r := s.rings[s.hands[t].at.value];
    if TakesEffect(r, r.threads[t]) {
      EffectWhole(s, t);
    } else {
      QuietWhole(s, t);
    }
  }

  // ---------------------------------------------------------------- the pool's own list operations

  /** Links outside of a list do not matter to it. */
  lemma SameLinks(next: Links, next': Links, list: seq<Task>)
    requires Threaded(next, list) && (forall i | 0 <= i < |list| - 1 :: Next(next', list[i]) == Next(next, list[i]))
    ensures Threaded(next', list)
  {
  }

  lemma {:induction false} ThreadedPart(next: Links, list: seq<Task>, i: nat, j: nat)
    requires Threaded(next, list) && i <= j <= |list|
    ensures Threaded(next, list[i..j])
  {
    var part := list[i..j];
    forall k | 0 <= k < |part| - 1 ensures Next(next, part[k]) == Some(part[k + 1]) {
      assert part[k] == list[i + k] && part[k + 1] == list[i + k + 1];
      assert Next(next, list[i + k]) == Some(list[i + k + 1]);
    }
  }

  lemma AppendedThreaded(next: Links, list: seq<Task>, tail: seq<Task>)
    requires Threaded(next, list) && Threaded(next, tail) && Distinct(list)
    requires forall x | x in list :: x !in tail
    ensures Threaded(Appended(next, list, tail), list + tail)
  {
    if list == [] {
      assert list + tail == tail;
    } else if tail == [] {
      assert list + tail == list;
    } else {
      var next' := Appended(next, list, tail);
      var all, n := list + tail, |list|;
      forall i | 0 <= i < |all| - 1 ensures Next(next', all[i]) == Some(all[i + 1]) {
        if i < n - 1 {
          assert Next(next, list[i]) == Some(list[i + 1]);
        } else if i >= n {
          assert all[i] == tail[i - n] && all[i - n + n] in tail;
          assert Next(next, tail[i - n]) == Some(tail[i - n + 1]);
        }
      }
    }
  }

  lemma PushedThreaded(next: Links, list: seq<Task>, x: Task)
    requires Threaded(next, list) && Distinct(list) && x !in list
    ensures Threaded(Pushed(next, list, x), list + [x])
  {
    SameLinks(next, next[x := None], list);
    AppendedThreaded(next[x := None], list, [x]);
    if list == [] {
      assert list + [x] == [x];
    }
  }

  /** Writing the link of a task in the global queue, or of one in the hands of `t`, leaves the lists of others. */
  lemma OthersApart(s: State, t: nat, u: nat, x: Task)
    requires Inv(s) && t < |s.hands| && u < |s.hands| && u != t
    requires x in s.pool.global || x in Moving(s.pool.threads[t])
    ensures x !in Batch(s.pool.threads[u], s.hands[u].popped) && x !in Spill(s.pool.threads[u])
  {
    hide Moving, Batch, Spill, P.Inv, Unique, Transit;
    if x in s.pool.global {
      GlobalApart(s.pool, x, u);
    } else {
      HandApart(s.pool, t, x, u);
    }
    ListsMove(s.pool.threads[u], s.hands[u].popped);
  }

  /** A step that writes links of what is in the global queue or in the hands of `t` leaves the lists of others. */
  ghost predicate Discreet(s: State, s': State, t: nat)
    requires t < |s.pool.threads|
  {
    forall x | Next(s'.next, x) != Next(s.next, x) :: x in s.pool.global || x in Moving(s.pool.threads[t])
  }

  lemma OthersWhole(s: State, s': State, t: nat)
    requires Inv(s) && Whole(s) && t < |s.hands| == |s'.hands| == |s'.pool.threads| && Discreet(s, s', t)
    requires s'.pool.threads == s.pool.threads[t := s'.pool.threads[t]] && s'.hands == s.hands[t := s'.hands[t]]
    requires Threaded(s'.next, s'.pool.global)
    requires Threaded(s'.next, Batch(s'.pool.threads[t], s'.hands[t].popped)) && Threaded(s'.next, Spill(s'.pool.threads[t]))
    ensures Whole(s')
  {
    hide Batch, Spill, Threaded, Moving, P.Inv, Unique, RingOk, HandOk, Next;
    forall u | 0 <= u < |s.hands| && u != t
      ensures Threaded(s'.next, Batch(s'.pool.threads[u], s'.hands[u].popped)) && Threaded(s'.next, Spill(s'.pool.threads[u]))
    {
      OtherWhole(s, s', t, u);
    }
  }

  lemma OtherWhole(s: State, s': State, t: nat, u: nat)
    requires Inv(s) && Whole(s) && t < |s.hands| && u < |s.hands| && u != t && Discreet(s, s', t)
    ensures Threaded(s'.next, Batch(s.pool.threads[u], s.hands[u].popped)) && Threaded(s'.next, Spill(s.pool.threads[u]))
  {
    hide Batch, Spill, Threaded, Moving, P.Inv, Unique, RingOk, HandOk, Next;
    var batch, spill := Batch(s.pool.threads[u], s.hands[u].popped), Spill(s.pool.threads[u]);
    forall x | x in batch || x in spill ensures Next(s'.next, x) == Next(s.next, x) {
      if Next(s'.next, x) != Next(s.next, x) {
        OthersApart(s, t, u, x);
      }
    }
    SameLinks(s.next, s'.next, batch);
    SameLinks(s.next, s'.next, spill);
  }

  /** A step of the pool that writes no link: the global queue loses at most its front, and no list begins. */
  lemma BareWhole(s: State, s': State, t: nat)
    requires Inv(s) && Whole(s) && t < |s.hands| == |s'.hands| == |s'.pool.threads| && s'.next == s.next
    requires s'.pool.threads == s.pool.threads[t := s'.pool.threads[t]] && s'.hands == s.hands[t := s'.hands[t]]
    requires s'.pool.global == s.pool.global || (s.pool.global != [] && s'.pool.global == s.pool.global[1..])
    requires |Batch(s'.pool.threads[t], s'.hands[t].popped)| <= 1 && Spill(s'.pool.threads[t]) == []
    ensures Whole(s')
  {
    hide Batch, Spill, Moving, P.Inv, Unique, RingOk, HandOk, Next;
    if s'.pool.global != s.pool.global {
      ThreadedPart(s.next, s.pool.global, 1, |s.pool.global|);
    }
    assert Threaded(s'.next, Spill(s'.pool.threads[t])) && Threaded(s'.next, Batch(s'.pool.threads[t], s'.hands[t].popped));
    OthersWhole(s, s', t);
  }

  /** The overflow joins the global queue. */
  lemma SpillWhole(s: State, t: nat, c: P.Choice)
    requires Inv(s) && Whole(s) && c.t == t < |s.hands| && (s.pool.threads[t].RefillSpill? || s.pool.threads[t].PutSpill?)
    ensures Whole(StepPool(s, t, c))
  {
    hide P.Inv, Unique, RingOk, HandOk, Next, Threaded, Distinct, Appended;
    var l, s' := s.pool.threads[t], StepPool(s, t, c);
    var spill := Spill(l);
    assert HandOk(s, t);
    assert s'.pool.global == s.pool.global + spill && s'.next == Appended(s.next, s.pool.global, spill);
    assert s'.pool.threads == s.pool.threads[t := s'.pool.threads[t]] && |s'.pool.threads| == |s.hands|;
    GlobalDistinct(s.pool);
    forall x | x in s.pool.global ensures x !in Moving(l) {
      GlobalApart(s.pool, x, t);
    }
    ListsMove(l, s.hands[t].popped);
    AppendedThreaded(s.next, s.pool.global, spill);
    AppendedElsewhere(s.next, s.pool.global, spill, Batch(l, s.hands[t].popped));
    var batch' := Batch(s'.pool.threads[t], s'.hands[t].popped);
    assert batch' == Batch(l, s.hands[t].popped) || batch' == [];
    EmptyThreaded(s'.next);
    AppendedDiscreet(s, s', t);
    OthersWhole(s, s', t);
  }

  lemma EmptyThreaded(next: Links)
    ensures Threaded(next, [])
  {
  }

  lemma AppendedElsewhere(next: Links, list: seq<Task>, tail: seq<Task>, other: seq<Task>)
    requires Threaded(next, other) && forall x | x in list :: x !in other
    ensures Threaded(Appended(next, list, tail), other)
  {
    assert list != [] ==> list[|list| - 1] in list;
    SameLinks(next, Appended(next, list, tail), other);
  }

  lemma AppendedDiscreet(s: State, s': State, t: nat)
    requires t < |s.pool.threads| && s'.next == Appended(s.next, s.pool.global, Spill(s.pool.threads[t]))
    ensures Discreet(s, s', t)
  {
  }

  /** A task is pushed onto the global queue. */
  lemma PutWhole(s: State, t: nat, c: P.Choice)
    requires Inv(s) && Whole(s) && c.t == t < |s.hands| && s.pool.threads[t].Put? && s.pool.threads[t].hint.ToGlobalQueue?
    ensures Whole(StepPool(s, t, c))
  {
    hide P.Inv, Unique, RingOk, HandOk, Next, Threaded, Distinct, Pushed;
    var l, s' := s.pool.threads[t], StepPool(s, t, c);
    var x := l.child;
    assert s'.pool.global == s.pool.global + [x] && s'.next == Pushed(s.next, s.pool.global, x);
    assert s'.pool.threads == s.pool.threads[t := P.Counting(l.owner)];
    assert x in Moving(l);
    GlobalDistinct(s.pool);
    HandApart(s.pool, t, x, t);
    PushedThreaded(s.next, s.pool.global, x);
    EmptyThreaded(s'.next);
    PushedDiscreet(s, s', t);
    OthersWhole(s, s', t);
  }

  lemma PushedDiscreet(s: State, s': State, t: nat)
    requires t < |s.pool.threads| && s.pool.threads[t].Put? && s'.next == Pushed(s.next, s.pool.global, s.pool.threads[t].child)
    ensures Discreet(s, s', t)
  {
  }

  /** A batch is taken from the global queue. */
  lemma GlobalWhole(s: State, t: nat, c: P.Choice)
    requires Inv(s) && Whole(s) && c.t == t < |s.hands| && s.pool.threads[t].Take? && s.hands[t].at.None?
    requires var steps := s.pool.threads[t].steps; steps != [] && steps[0].GlobalQueue?
    ensures Whole(StepPool(s, t, c))
  {
    hide P.Inv, Unique, RingOk, HandOk, Next, Threaded, Distinct, P.Share;
    var l, s', global := s.pool.threads[t], StepPool(s, t, c), s.pool.global;
    assert t < s.pool.workers by {
      TakersWork(s, t);
    }
    var n := if l.local && global != [] then P.Share(s.pool, |global| - 1) else 0;
    if n == 0 {
      assert s'.next == s.next;
      assert global == [] ==> s'.pool.global == global;
      assert global != [] ==> s'.pool.global == global[1..];
      assert s'.pool.threads[t].Take? || s'.pool.threads[t].Taken?;
      BareWhole(s, s', t);
    } else {
      P.ShareFits(s.pool, |global| - 1);
      assert s'.next == s.next[global[n] := None] && s'.pool.global == global[n + 1..];
      assert s'.pool.threads[t] == P.Refill(global[0], global[1..n + 1]) && s'.hands[t].popped == 1;
      assert Batch(s'.pool.threads[t], 1) == global[1..n + 1];
      GlobalDistinct(s.pool);
      BatchSplit(s.next, global, n);
      EmptyThreaded(s'.next);
      CutDiscreet(s, s', t, n);
      OthersWhole(s, s', t);
    }
  }

  lemma TakersWork(s: State, t: nat)
    requires Sized(s) && t < |s.hands| && s.pool.threads[t].Take?
    ensures t < s.pool.workers
  {
  }

  lemma CutDiscreet(s: State, s': State, t: nat, n: nat)
    requires t < |s.pool.threads| && n < |s.pool.global| && s'.next == s.next[s.pool.global[n] := None]
    ensures Discreet(s, s', t)
  {
  }

  lemma BatchSplit(next: Links, list: seq<Task>, n: nat)
    requires Threaded(next, list) && Distinct(list) && 0 < n < |list|
    ensures Threaded(next[list[n] := None], list[1..n + 1]) && Threaded(next[list[n] := None], list[n + 1..])
  {
    ThreadedPart(next, list, 1, n + 1);
    ThreadedPart(next, list, n + 1, |list|);
    var batch, rest := list[1..n + 1], list[n + 1..];
    assert forall i | 0 <= i < |batch| - 1 :: batch[i] == list[i + 1] && list[i + 1] != list[n];
    SameLinks(next, next[list[n] := None], batch);
    assert forall i | 0 <= i < |rest| - 1 :: rest[i] == list[n + 1 + i] && list[n + 1 + i] != list[n];
    SameLinks(next, next[list[n] := None], rest);
  }

  /** Every other step of the pool touches no list, or takes what is alone in it. */
  ghost predicate Plain(pool: P.State, pool': P.State, t: nat) {
    && pool'.global == pool.global && t < |pool.threads| == |pool'.threads|
    && pool'.threads == pool.threads[t := pool'.threads[t]]
    && Batched(pool'.threads[t]) == [] && Spill(pool'.threads[t]) == []
  }

  lemma TakePlain(pool: P.State, c: P.Choice)
    requires P.RolesOk(pool) && c.t < |pool.threads| && Operation(pool.threads[c.t]).None?
    requires var l := pool.threads[c.t];
      l.Loop? || l.Refill? || l.Taken? || l.Returned? || (l.Take? && (l.steps == [] || !l.steps[0].GlobalQueue?))
    ensures Plain(pool, P.Step(pool, c), c.t)
  {
    hide P.Share;
  }

  lemma SubmitPlain(pool: P.State, c: P.Choice)
    requires P.RolesOk(pool) && c.t < |pool.threads| && Operation(pool.threads[c.t]).None?
    requires var l := pool.threads[c.t]; l.Running? || (l.Put? && !l.hint.ToGlobalQueue?) || l.Counting?
    ensures Plain(pool, P.Step(pool, c), c.t)
  {
  }

  lemma PlainWhole(s: State, t: nat, c: P.Choice)
    requires Inv(s) && Whole(s) && c.t == t < |s.hands| && Operation(s.pool.threads[t]).None?
    requires var l := s.pool.threads[t];
      && !l.RefillSpill? && !l.PutSpill? && !(l.Put? && l.hint.ToGlobalQueue?)
      && !(l.Take? && l.steps != [] && l.steps[0].GlobalQueue?)
    ensures Whole(StepPool(s, t, c))
  {
    hide P.Inv, Unique, RingOk, HandOk, Threaded, P.Share, Legal, P.Step, P.RolesOk, R.InBounds, Whole;
    var l, s' := s.pool.threads[t], StepPool(s, t, c);
    assert s'.next == s.next;
    if l.Running? || l.Put? || l.Counting? {
      SubmitPlain(s.pool, c);
    } else {
      TakePlain(s.pool, c);
    }
    if !(l.Running? && !Legal(s.pool, c.submit)) {
      BareWhole(s, s', t);
    }
  }

  lemma PoolWhole(s: State, t: nat, c: P.Choice)
    requires Inv(s) && Whole(s) && c.t == t < |s.hands| && s.hands[t].at.None? && Operation(s.pool.threads[t]).None?
    ensures Whole(StepPool(s, t, c))
  {
    var l := s.pool.threads[t];
    hide Inv, StepPool, Whole;
    if l.RefillSpill? || l.PutSpill? {
      SpillWhole(s, t, c);
    } else if l.Put? && l.hint.ToGlobalQueue? {
      PutWhole(s, t, c);
    } else if l.Take? && l.steps != [] && l.steps[0].GlobalQueue? {
      GlobalWhole(s, t, c);
    } else {
      PlainWhole(s, t, c);
    }
  }

  /** `TryPop` from a list that holds together leaves one that does. */
  lemma PopWhole(s: State, t: nat)
    requires Inv(s) && Whole(s) && t < |s.hands| && s.hands[t].popped < |Batched(s.pool.threads[t])|
    ensures Whole(Put(s, t, s.hands[t].(popped := s.hands[t].popped + 1)))
  {
    hide P.Inv, Unique, RingOk, HandOk, Threaded, Spill;
    var h := s.hands[t];
    var batch := Batch(s.pool.threads[t], h.popped);
    assert Batch(s.pool.threads[t], h.popped + 1) == batch[1..|batch|];
    ThreadedPart(s.next, batch, 1, |batch|);
    ThreadMoves(s, Put(s, t, h.(popped := h.popped + 1)), t);
  }

  lemma EnterWhole(s: State, t: nat, i: nat, op: R.Op)
    requires Inv(s) && Whole(s) && t < |s.hands| && i < |s.rings|
    ensures Whole(StepEnter(s, t, i, op))
  {
    hide P.Inv, Unique, RingOk, HandOk, Threaded, Spill, Batch, R.Step;
    ThreadMoves(s, StepEnter(s, t, i, op), t);
  }

  lemma WriteWhole(s: State, t: nat, c: P.Choice)
    requires Inv(s) && Whole(s) && c.t == t < |s.hands| && s.hands[t].pending != Nothing
    ensures Whole(StepWrite(s, t)) <==> !Tears(s, c)
  {
    assert |s.hands| == |s.pool.threads|;
    hide P.Inv, Unique, RingOk, HandOk, Threaded, Spill, Batch, Cuts, Whole;
    var s' := StepWrite(s, t);
    if s.hands[t].pending.Clearing? {
      WriteTears(s, s', s.hands[t].pending.x, None);
    } else {
      WriteTears(s, s', s.hands[t].pending.behind, Some(s.hands[t].pending.x));
    }
  }

  /** The tearing steps are the ones after which some list no longer holds together; no other step does any harm. */
  lemma StepTears(s: State, c: P.Choice)
    requires Inv(s) && Whole(s)
    ensures Whole(Step(s, c)) <==> !Tears(s, c)
  {
    hide P.Inv, Unique, RingOk, Whole, StepEnter, StepPool, StepRing, StepWrite, Cuts, Threaded, Put;
    if c.t < |s.hands| {
      var t := c.t;
      assert HandOk(s, t);
      hide HandOk;
      var l, h := s.pool.threads[t], s.hands[t];
      if h.pending != Nothing {
        WriteWhole(s, t, c);
      } else if h.at.Some? {
        RingWhole(s, t, c);
      } else if l.Refill? {
        if h.popped == 0 || (l.rest != [] && h.popped == 1) {
          PopWhole(s, t);
        } else if l.rest == [] {
          PoolWhole(s, t, c);
        } else {
          EnterWhole(s, t, t, R.TryPush(l.rest[0]));
        }
      } else if Operation(l).None? {
        PoolWhole(s, t, c);
      } else if !l.StealGrab? {
        EnterWhole(s, t, t, Operation(l).value);
      } else if c.from < s.pool.workers && c.from != t {
        EnterWhole(s, t, c.from, Operation(l).value);
      }
    }
  }
}
