/**
 When the pool keeps its tasks.

 The pool moves tasks in lists whose links a `Grab` of another thread may be writing at the same time.  The
 theorems say exactly in which runs every list hands out what it should; in those runs the pool loses and
 doubles nothing.
 */
module PoolLinksTheorems {
  import opened Basics
  import opened PoolLinks
  import opened PoolLinksSteps
  import opened PoolLinksLists
  import P = ThreadPool
  import PT = ThreadPoolTheorems
  import R = RingQueue
  import RT = RingQueueTheorems

  // ---------------------------------------------------------------- every run

  lemma InitKeeps(workers: nat, clients: nat)
    ensures Inv(Init(workers, clients)) && Whole(Init(workers, clients))
  {
    var s := Init(workers, clients);
    PT.InitKeeps(workers, clients);
    hide P.Conserved, P.Debts, P.Unannounced, Transit, R.HistoryOk;
    forall x: Task ensures Transit(s.pool, x) <= 1 {
      TransitIs(s.pool, x);
    }
    forall i | 0 <= i < |s.rings| ensures RingOk(s, i) && R.InBounds(s.rings[i]) {
      RT.InitKeeps(P.LOCAL_QUEUE_SIZE, i, workers + clients);
    }
    forall t | 0 <= t < |s.hands| ensures HandOk(s, t) {
    }
  }

  ghost function Run(workers: nat, clients: nat, schedule: seq<P.Choice>): (s: State)
    ensures Inv(s) && Sized(s)
    decreases |schedule|
  {
    if schedule == [] then
      InitKeeps(workers, clients);
      Init(workers, clients)
    else
      var before := Run(workers, clients, schedule[..|schedule| - 1]);
      StepKeeps(before, schedule[|schedule| - 1]);
      Step(before, schedule[|schedule| - 1])
  }

  lemma RunLast(workers: nat, clients: nat, schedule: seq<P.Choice>)
    requires schedule != []
    ensures Run(workers, clients, schedule) == Step(Run(workers, clients, schedule[..|schedule| - 1]), schedule[|schedule| - 1])
  {
  }

  /** No step of the run tears a list. */
  ghost predicate NeverTorn(workers: nat, clients: nat, schedule: seq<P.Choice>) {
    forall k | 0 <= k < |schedule| :: !Tears(Run(workers, clients, schedule[..k]), schedule[k])
  }

  ghost predicate AlwaysIntact(workers: nat, clients: nat, schedule: seq<P.Choice>) {
    forall k | 0 <= k <= |schedule| :: Intact(Run(workers, clients, schedule[..k]))
  }

  lemma Prefixes(schedule: seq<P.Choice>)
    requires schedule != []
    ensures var n := |schedule| - 1;
      && (forall k | 0 <= k <= n :: schedule[..n][..k] == schedule[..k])
      && (forall k | 0 <= k < n :: schedule[..n][k] == schedule[k])
      && schedule[..n + 1] == schedule
  {
  }

  lemma TornLast(workers: nat, clients: nat, schedule: seq<P.Choice>)
    requires schedule != []
    ensures var n := |schedule| - 1;
      NeverTorn(workers, clients, schedule) <==>
        NeverTorn(workers, clients, schedule[..n]) && !Tears(Run(workers, clients, schedule[..n]), schedule[n])
  {
    Prefixes(schedule);
    hide Run, Tears, Inv;
    var n := |schedule| - 1;
    if NeverTorn(workers, clients, schedule) {
      forall k | 0 <= k < n ensures !Tears(Run(workers, clients, schedule[..n][..k]), schedule[..n][k]) {
        assert !Tears(Run(workers, clients, schedule[..k]), schedule[k]);
      }
    }
    if NeverTorn(workers, clients, schedule[..n]) && !Tears(Run(workers, clients, schedule[..n]), schedule[n]) {
      forall k | 0 <= k <= n ensures !Tears(Run(workers, clients, schedule[..k]), schedule[k]) {
        assert k < n ==> !Tears(Run(workers, clients, schedule[..n][..k]), schedule[..n][k]);
      }
    }
  }

  lemma IntactLast(workers: nat, clients: nat, schedule: seq<P.Choice>)
    requires schedule != []
    ensures var n := |schedule| - 1;
      AlwaysIntact(workers, clients, schedule) <==> AlwaysIntact(workers, clients, schedule[..n]) && Intact(Run(workers, clients, schedule))
  {
    Prefixes(schedule);
    hide Run, Intact, Inv;
    var n := |schedule| - 1;
    if AlwaysIntact(workers, clients, schedule) {
      forall k | 0 <= k <= n ensures Intact(Run(workers, clients, schedule[..n][..k])) {
        assert Intact(Run(workers, clients, schedule[..k]));
      }
    }
    if AlwaysIntact(workers, clients, schedule[..n]) && Intact(Run(workers, clients, schedule)) {
      forall k | 0 <= k <= n + 1 ensures Intact(Run(workers, clients, schedule[..k])) {
        assert k <= n ==> Intact(Run(workers, clients, schedule[..n][..k]));
      }
    }
  }

  /**
   In every state of a run every list of tasks hands out exactly what it should, in order, if and only if no
   step of the run tears a list.
   */
  lemma {:induction false} ListsHold(workers: nat, clients: nat, schedule: seq<P.Choice>)
    ensures AlwaysIntact(workers, clients, schedule) <==> NeverTorn(workers, clients, schedule)
    decreases |schedule|
  {
    hide Inv, Step, Tears, Whole, Intact, Init;
    var s := Run(workers, clients, schedule);
    IntactIsWhole(s);
    if schedule == [] {
      InitKeeps(workers, clients);
      assert schedule[..0] == schedule;
    } else {
      var n := |schedule| - 1;
      var before := Run(workers, clients, schedule[..n]);
      ListsHold(workers, clients, schedule[..n]);
      TornLast(workers, clients, schedule);
      IntactLast(workers, clients, schedule);
      assert AlwaysIntact(workers, clients, schedule[..n]) ==> Intact(before) by {
        assert schedule[..n][..n] == schedule[..n];
      }
      IntactIsWhole(before);
      hide AlwaysIntact, NeverTorn;
      if Whole(before) {
        StepTears(before, schedule[n]);
      }
    }
  }

  // ---------------------------------------------------------------- and it is the pool that loses nothing

  /** The step of the pool that a step takes, if any. */
  ghost function Taken(s: State, c: P.Choice): Option<P.Choice>
    requires Sized(s)
  {
    var t := c.t;
    if t >= |s.hands| || s.hands[t].pending != Nothing then None
    else if s.hands[t].at.Some? then
      var i := s.hands[t].at.value;
      if TakesEffect(s.rings[i], s.rings[i].threads[t]) then Some(Follow(s.rings[i], t, i)) else None
    else
      var l := s.pool.threads[t];
      if l.Refill? then (if s.hands[t].popped > 0 && l.rest == [] then Some(c) else None)
      else if Operation(l).Some? || (l.Running? && !Legal(s.pool, c.submit)) then None
      else Some(c)
  }

  lemma StepFollows(s: State, c: P.Choice)
    requires Sized(s)
    ensures Step(s, c).pool == match Taken(s, c) case None => s.pool case Some(d) => P.Step(s.pool, d)
  {
    hide P.Step, R.Step, Operation, TakesEffect, Legal, Relinked;
  }

  ghost function Followed(workers: nat, clients: nat, schedule: seq<P.Choice>): seq<P.Choice>
    decreases |schedule|
  {
    if schedule == [] then []
    else
      var front := schedule[..|schedule| - 1];
      Followed(workers, clients, front) +
        match Taken(Run(workers, clients, front), schedule[|schedule| - 1])
        case None => []
        case Some(d) => [d]
  }

  /** Whatever the rings and the links do, the pool's part of a run is a run of `ThreadPool`. */
  lemma {:induction false} IsPoolRun(workers: nat, clients: nat, schedule: seq<P.Choice>)
    ensures Run(workers, clients, schedule).pool == PT.Run(workers, clients, Followed(workers, clients, schedule))
    decreases |schedule|
  {
    hide Inv, Step, P.Step, P.Inv, Taken;
    if schedule != [] {
      var front := schedule[..|schedule| - 1];
      var before := Run(workers, clients, front);
      IsPoolRun(workers, clients, front);
      SizedOf(before);
      StepFollows(before, schedule[|schedule| - 1]);
      var base := Followed(workers, clients, front);
      match Taken(before, schedule[|schedule| - 1])
      case None => assert base + [] == base;
      case Some(d) => assert (base + [d])[..|base|] == base;
    }
  }

  // ---------------------------------------------------------------- what can still be reached

  /** What a list hands out. */
  function Handed(next: Links, list: seq<Task>): seq<Task> {
    if list == [] then [] else Drain(next, list[0], list[|list| - 1], |list|)
  }

  /** A single task a thread has in its hands. */
  function Lone(l: P.Local): seq<Task> {
    match l
    case Taken(x) => [x]
    case Put(_, x, _) => [x]
    case PutLocal(_, x) => [x]
    case PutFull(_, x) => [x]
    case PutSpill(_, x, _) => [x]
    case _ => []
  }

  /** What a thread holds outside of its lists: the task it runs, what it popped of its batch, a single task. */
  function Aside(l: P.Local, popped: nat): seq<Task> {
    Owned(l) + Batched(l)[..Min(popped, |Batched(l)|)] + Lone(l)
  }

  function InReach(next: Links, l: P.Local, popped: nat, x: Task): nat {
    P.Weigh(Aside(l, popped), P.Of(x)) + P.Weigh(Handed(next, Batch(l, popped)), P.Of(x)) + P.Weigh(Handed(next, Spill(l)), P.Of(x))
  }

  function InReaches(next: Links, threads: seq<P.Local>, hands: seq<Hand>, x: Task): nat
    requires |threads| == |hands|
  {
    if threads == [] then 0
    else
      var n := |threads| - 1;
      InReaches(next, threads[..n], hands[..n], x) + InReach(next, threads[n], hands[n].popped, x)
  }

  /** How often a task can be reached: in rings and slots, in what the lists hand out, and in hands. */
  function Reachable(s: State, x: Task): nat
    requires |s.pool.threads| == |s.hands|
  {
    P.Weigh(Handed(s.next, s.pool.global), P.Of(x)) + P.InRings(s.pool.rings, P.Of(x)) + P.InSlots(s.pool.slots, P.Of(x)) +
      InReaches(s.next, s.pool.threads, s.hands, x)
  }

  lemma MovingIs(l: P.Local)
    ensures Moving(l) == Batched(l) + Lone(l) + Spill(l)
  {
  }

  lemma HeldSplit(l: P.Local, popped: nat, x: Task)
    requires popped <= |Batched(l)| || Batched(l) == []
    ensures P.Weigh(Aside(l, popped), P.Of(x)) + P.Weigh(Batch(l, popped), P.Of(x)) + P.Weigh(Spill(l), P.Of(x)) == P.Weigh(P.Held(l), P.Of(x))
  {
    hide P.Weigh, P.Held, Owned, Moving, Batched, Lone, Spill;
    var b, m, k := Batched(l), Min(popped, |Batched(l)|), P.Of(x);
    HeldIs(l);
    MovingIs(l);
    PT.WeighSplit(b, m, k);
    assert Batch(l, popped) == b[m..];
    PT.WeighSum(Owned(l) + b[..m], Lone(l), k);
    PT.WeighSum(Owned(l), b[..m], k);
    PT.WeighSum(Owned(l), Moving(l), k);
    PT.WeighSum(b + Lone(l), Spill(l), k);
    PT.WeighSum(b, Lone(l), k);
  }

  lemma PoppedFits(l: P.Local, popped: nat)
    requires BatchOk(l, popped)
    ensures popped <= |Batched(l)| || Batched(l) == []
  {
  }

  lemma HeldReach(next: Links, l: P.Local, popped: nat, x: Task)
    requires HandsOut(next, Batch(l, popped)) && HandsOut(next, Spill(l)) && BatchOk(l, popped)
    ensures InReach(next, l, popped, x) == P.Weigh(P.Held(l), P.Of(x))
  {
    hide P.Weigh, P.Held, Aside, Batch, Spill, BatchOk, Drain;
    PoppedFits(l, popped);
    HeldSplit(l, popped, x);
  }

  lemma {:induction false} HandsReach(next: Links, threads: seq<P.Local>, hands: seq<Hand>, x: Task)
    requires |threads| == |hands|
    requires forall t | 0 <= t < |hands| ::
      HandsOut(next, Batch(threads[t], hands[t].popped)) && HandsOut(next, Spill(threads[t])) && BatchOk(threads[t], hands[t].popped)
    ensures InReaches(next, threads, hands, x) == P.InHands(threads, P.Of(x))
    decreases |threads|
  {
    hide InReach, P.Weigh, P.Held, HandsOut, BatchOk;
    if threads != [] {
      var n := |threads| - 1;
      HandsReach(next, threads[..n], hands[..n], x);
      HeldReach(next, threads[n], hands[n].popped, x);
    }
  }

  /** The first `k` links of a list are in place. */
  predicate Linked(next: Links, list: seq<Task>, k: nat) {
    forall i | 0 <= i < k && i + 1 < |list| :: Next(next, list[i]) == Some(list[i + 1])
  }

  /** The step takes a task from a list and goes on to a task that is not the next of the list. */
  ghost predicate Misreads(s: State, c: P.Choice)
    requires Sized(s)
  {
    c.t < |s.hands| && s.hands[c.t].pending == Nothing && s.hands[c.t].at.None? &&
    var l, h := s.pool.threads[c.t], s.hands[c.t];
    || (l.Refill? && (h.popped == 0 || (h.popped == 1 && l.rest != [])) && !Linked(s.next, Batch(l, h.popped), 1))
    || (l.Take? && l.steps != [] && l.steps[0].GlobalQueue? && s.pool.global != [] && s.pool.workers > 0 &&
          !Linked(s.next, s.pool.global, if l.local then P.Share(s.pool, |s.pool.global| - 1) + 1 else 1))
  }

  ghost predicate NeverMisread(workers: nat, clients: nat, schedule: seq<P.Choice>) {
    forall k | 0 <= k < |schedule| :: !Misreads(Run(workers, clients, schedule[..k]), schedule[k])
  }

  lemma WholeReadsRight(s: State, c: P.Choice)
    requires Sized(s) && Whole(s)
    ensures !Misreads(s, c)
  {
    hide P.RolesOk, R.InBounds, P.Share;
  }

  /** In a run that tears no list, every list is read right. */
  lemma NeverTornReadsRight(workers: nat, clients: nat, schedule: seq<P.Choice>)
    requires NeverTorn(workers, clients, schedule)
    ensures NeverMisread(workers, clients, schedule)
  {
    hide Inv, Run, Misreads, Whole, Intact, NeverTorn;
    ListsHold(workers, clients, schedule);
    forall k | 0 <= k < |schedule| ensures !Misreads(Run(workers, clients, schedule[..k]), schedule[k]) {
      assert Intact(Run(workers, clients, schedule[..k]));
      IntactIsWhole(Run(workers, clients, schedule[..k]));
      WholeReadsRight(Run(workers, clients, schedule[..k]), schedule[k]);
    }
  }

  /**
   While no list has been read wrong, in a state in which every list holds together, each task submitted has
   run or can be reached, in total exactly as often as it was submitted.
   */
  lemma NothingLost(workers: nat, clients: nat, schedule: seq<P.Choice>, x: Task)
    requires NeverMisread(workers, clients, schedule) && Intact(Run(workers, clients, schedule))
    ensures var s := Run(workers, clients, schedule);
      multiset(s.pool.submitted)[x] == multiset(s.pool.ran)[x] + Reachable(s, x)
  {
    var s := Run(workers, clients, schedule);
    hide Run, NeverMisread, P.InRings, P.InSlots, P.InHands, InReaches, P.Unannounced, P.Debts, Unique, RingOk;
    forall t | 0 <= t < |s.hands| ensures BatchOk(s.pool.threads[t], s.hands[t].popped) {
      assert HandOk(s, t);
    }
    HandsReach(s.next, s.pool.threads, s.hands, x);
    assert P.Weigh(s.pool.submitted, P.Of(x)) == P.Weigh(s.pool.ran, P.Of(x)) + P.Waiting(s.pool, P.Of(x)) + P.InHands(s.pool.threads, P.Of(x));
  }

  /** What a list that has handed out its first task goes on to hand out. */
  function Left(next: Links, list: seq<Task>): seq<Task>
    requires list != []
  {
    if |list| == 1 then []
    else
      match Next(next, list[0])
      case None => []
      case Some(y) => Drain(next, y, list[|list| - 1], |list| - 1)
  }

  /** A pop that misreads leaves the wrong list, and one that follows a null link leaves none: the rest is in no other place. */
  lemma MisreadLoses(s: State, t: nat)
    requires Inv(s) && t < |s.hands|
    requires var list := Batch(s.pool.threads[t], s.hands[t].popped); |list| > 1 && Next(s.next, list[0]) != Some(list[1])
    ensures var list := Batch(s.pool.threads[t], s.hands[t].popped);
      && Left(s.next, list) != list[1..]
      && (Next(s.next, list[0]) == None ==> Left(s.next, list) == [])
      && forall y | y in list[1..] :: Transit(s.pool, y) == 1
  {
    hide P.Inv, RingOk, HandOk, Transit;
    var list := Batch(s.pool.threads[t], s.hands[t].popped);
    assert list[1..][0] == list[1];
    forall y | y in list[1..] ensures Transit(s.pool, y) == 1 {
      ListsMove(s.pool.threads[t], s.hands[t].popped);
      InPlaceOnce(s.pool, t, y);
    }
  }

  lemma InPlaceOnce(pool: P.State, t: nat, y: Task)
    requires Unique(pool) && t < |pool.threads| && y in Moving(pool.threads[t])
    ensures Transit(pool, y) == 1
  {
    hide P.Weigh, P.InRings, P.InSlots, InMotion, Moving;
    WeighIn(Moving(pool.threads[t]), y);
    MotionParts(pool.threads, t, t, y);
    assert Transit(pool, y) <= 1;
  }
}
