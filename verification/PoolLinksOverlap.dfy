/**
 A condition under which no list is torn that says nothing of lists: that no `Grab` writes a link for items
 of which some have been taken from the ring since it read the head, and that no two that may still win copy
 from the same ring at a time.
 */
module PoolLinksOverlap {
  import opened Basics
  import opened PoolLinks
  import opened PoolLinksSteps
  import opened PoolLinksLists
  import opened PoolLinksTheorems
  import P = ThreadPool
  import PT = ThreadPoolTheorems
  import R = RingQueue
  import RT = RingQueueTheorems

  /** Thread `t` is copying from ring `i`, and nothing has been taken from there since it read the head. */
  ghost predicate Copies(s: State, t: nat, i: nat)
    requires Sized(s) && t < |s.hands| && i < |s.rings|
  {
    var rl := s.rings[i].threads[t];
    s.hands[t].at == Some(i) && (rl.GrabRead? || rl.GrabSwing?) && rl.head == s.rings[i].head
  }

  /** The step writes a link for a `Grab` that has been outrun, or while another one copies the same items. */
  ghost predicate Clashes(s: State, c: P.Choice)
    requires Sized(s)
  {
    c.t < |s.hands| && s.hands[c.t].pending != Nothing && s.hands[c.t].at.Some? &&
    var i := s.hands[c.t].at.value;
    !Copies(s, c.t, i) || exists u :: 0 <= u < |s.hands| && u != c.t && Copies(s, u, i)
  }

  // ---------------------------------------------------------------- a task in a ring is nowhere else

  lemma {:induction false} RingsPart(rings: seq<seq<Task>>, i: nat, j: nat, k: P.Count)
    requires i < |rings| && j < |rings|
    ensures P.InRings(rings, k) >= P.Weigh(rings[i], k)
    ensures i != j ==> P.InRings(rings, k) >= P.Weigh(rings[i], k) + P.Weigh(rings[j], k)
  {
    hide P.Weigh;
    PT.WeighEmpty(k);
    PT.RingUpdate(rings, i, [], k);
    PT.RingUpdate(rings[i := []], j, [], k);
  }

  lemma RingApart(pool: P.State, i: nat, x: Task, j: nat, t: nat)
    requires Unique(pool) && i < |pool.rings| && x in pool.rings[i] && j < |pool.rings| && t < |pool.threads|
    ensures x !in pool.global && x !in Moving(pool.threads[t]) && (j != i ==> x !in pool.rings[j])
  {
    hide P.Weigh, P.InRings, P.InSlots, InMotion, Moving;
    assert Transit(pool, x) <= 1;
    WeighIn(pool.global, x);
    WeighIn(pool.rings[i], x);
    WeighIn(pool.rings[j], x);
    WeighIn(Moving(pool.threads[t]), x);
    MotionParts(pool.threads, t, t, x);
    RingsPart(pool.rings, i, j, P.Of(x));
  }

  lemma RingDistinct(pool: P.State, i: nat)
    requires Unique(pool) && i < |pool.rings|
    ensures Distinct(pool.rings[i])
  {
    hide P.Weigh, P.InRings, P.InSlots, InMotion;
    var list := pool.rings[i];
    forall a, b | 0 <= a < b < |list| ensures list[a] != list[b] {
      assert Transit(pool, list[a]) <= 1;
      RingsPart(pool.rings, i, i, P.Of(list[a]));
      if list[a] == list[b] {
        WeighTwice(list, a, b);
      }
    }
  }

  // ---------------------------------------------------------------- the links of a Grab that may still win

  function Copied(rl: R.Local): seq<Task> {
    if rl.GrabRead? || rl.GrabSwing? then Values(rl.items) else []
  }

  ghost predicate InPlace(next: Links, pending: Pending, list: seq<Task>) {
    if pending == Nothing then Threaded(next, list) else list != [] && Threaded(next, list[..|list| - 1])
  }

  /** The links of what a thread has copied and may still win are in place, but for the one about to be written. */
  ghost predicate Knit(s: State, t: nat)
    requires Sized(s) && t < |s.hands|
  {
    s.hands[t].at.Some? && Copies(s, t, s.hands[t].at.value) ==>
      InPlace(s.next, s.hands[t].pending, Copied(s.rings[s.hands[t].at.value].threads[t]))
  }

  /** What a `Grab` that has not been outrun copied is the front of the ring. */
  lemma CopiesFront(s: State, t: nat, i: nat)
    requires Inv(s) && t < |s.hands| && i < |s.rings| && Copies(s, t, i)
    ensures i < |s.pool.rings|
    ensures var list := Copied(s.rings[i].threads[t]);
      list <= s.pool.rings[i] && Distinct(list) && forall x | x in list :: x in s.pool.rings[i]
  {
    hide P.Inv, Unique, HandOk, R.HistoryOk, R.Slot, P.RolesOk, R.InBounds;
    assert RingOk(s, i);
    var r := s.rings[i];
    assert R.LocalOk(r, t, r.threads[t]);
    FrontValues(r.threads[t].items, R.Contents(r));
    RingDistinct(s.pool, i);
    var list := Copied(r.threads[t]);
    assert list == R.Contents(r)[..|r.threads[t].items|];
    assert forall k | 0 <= k < |list| :: list[k] == s.pool.rings[i][k];
  }

  /** What is about to be written concerns the last copied item and the one before it. */
  lemma PendingCopied(s: State, t: nat)
    requires Inv(s) && t < |s.hands| && s.hands[t].pending != Nothing
    ensures s.hands[t].at.Some? &&
      var list := Copied(s.rings[s.hands[t].at.value].threads[t]); var n := |list| - 1;
      && n >= 0 && list[n] == s.hands[t].pending.x
      && (s.hands[t].pending.Clearing? ==> s.hands[t].pending.prev == if n == 0 then None else Some(list[n - 1]))
      && (s.hands[t].pending.Joining? ==> n > 0 && s.hands[t].pending.behind == list[n - 1])
  {
    hide P.Inv, Unique, RingOk, Engaged, BatchOk, P.RolesOk, R.InBounds;
    assert HandOk(s, t);
  }

  /** The task whose link is about to be written. */
  function Written(pending: Pending): Task
    requires pending != Nothing
  {
    match pending
    case Clearing(x, _) => x
    case Joining(behind, _) => behind
  }

  /**
   A `Grab` writes the link of a task that still waits in the ring, unless items have been taken from there since it
   read the head: only then may the task have run already, and its memory be gone.
   */
  lemma WritesWaiting(s: State, t: nat)
    requires Inv(s) && t < |s.hands| && s.hands[t].pending != Nothing
    ensures s.hands[t].at.Some? && s.hands[t].at.value < |s.rings| == |s.pool.rings|
    ensures Copies(s, t, s.hands[t].at.value) ==> Written(s.hands[t].pending) in s.pool.rings[s.hands[t].at.value]
  {
    PendingCopied(s, t);
    if Copies(s, t, s.hands[t].at.value) {
      CopiesFront(s, t, s.hands[t].at.value);
    }
    hide Unique, RingOk, HandOk, R.InBounds, Copied;
  }

  // ---------------------------------------------------------------- without clashes nothing tears

  lemma NotFollowed(list: seq<Task>, x: Task, y: Task)
    requires x !in list
    ensures !Follows(list, x, y)
  {
  }

  /** A task in a ring is in front of nothing in any list. */
  lemma NotListed(s: State, i: nat, x: Task, v: Option<Task>)
    requires Inv(s) && i < |s.pool.rings| && x in s.pool.rings[i] && |s.hands| > 0
    ensures !Cuts(s, x, v)
  {
    hide Unique, P.Inv, RingOk, HandOk, Follows, Moving, Batch, Spill;
    forall y ensures !Precedes(s, x, y) {
      RingApart(s.pool, i, x, i, 0);
      NotFollowed(s.pool.global, x, y);
      forall t | 0 <= t < |s.hands| ensures !Follows(Batch(s.pool.threads[t], s.hands[t].popped), x, y) && !Follows(Spill(s.pool.threads[t]), x, y) {
        RingApart(s.pool, i, x, i, t);
        ListsMove(s.pool.threads[t], s.hands[t].popped);
        NotFollowed(Batch(s.pool.threads[t], s.hands[t].popped), x, y);
        NotFollowed(Spill(s.pool.threads[t]), x, y);
      }
    }
  }

  lemma NoClashNoTear(s: State, c: P.Choice)
    requires Inv(s) && AllKnit(s) && !Clashes(s, c)
    ensures !Tears(s, c)
  {
    if c.t < |s.hands| {
      var t := c.t;
      assert Knit(s, t);
      hide Unique, P.Inv, RingOk, HandOk, Cuts, P.RolesOk, R.InBounds, Threaded;
      if s.hands[t].pending != Nothing {
        PendingCopied(s, t);
        var i := s.hands[t].at.value;
        CopiesFront(s, t, i);
        var list := Copied(s.rings[i].threads[t]);
        assert list[|list| - 1] in list;
        if s.hands[t].pending.Clearing? {
          NotListed(s, i, s.hands[t].pending.x, None);
        } else {
          assert s.hands[t].pending.behind in list;
          NotListed(s, i, s.hands[t].pending.behind, Some(s.hands[t].pending.x));
        }
      }
    }
  }

  // ---------------------------------------------------------------- and the links stay in place

  lemma LinksStay(next: Links, next': Links, pending: Pending, list: seq<Task>)
    requires InPlace(next, pending, list) && forall x | x in list :: Next(next', x) == Next(next, x)
    ensures InPlace(next', pending, list)
  {
    hide Next;
    if pending == Nothing {
      SameLinks(next, next', list);
    } else {
      SameLinks(next, next', list[..|list| - 1]);
    }
  }

  /** A thread that does not move keeps its links if nobody writes them and its `Grab` is not revived. */
  lemma KnitStays(s: State, s': State, u: nat)
    requires Sized(s) && Sized(s') && u < |s.hands| == |s'.hands| && |s'.rings| == |s.rings| && Knit(s, u)
    requires s'.hands[u].at == s.hands[u].at && s'.hands[u].pending == s.hands[u].pending
    requires s.hands[u].at.Some? && Copies(s', u, s.hands[u].at.value) ==>
      var i := s.hands[u].at.value;
      && Copies(s, u, i) && s'.rings[i].threads[u] == s.rings[i].threads[u]
      && forall x | x in Copied(s.rings[i].threads[u]) :: Next(s'.next, x) == Next(s.next, x)
    ensures Knit(s', u)
  {
    hide Next, Copied, InPlace, P.RolesOk, R.InBounds;
    if s.hands[u].at.Some? && Copies(s', u, s.hands[u].at.value) {
      LinksStay(s.next, s'.next, s.hands[u].pending, Copied(s.rings[s.hands[u].at.value].threads[u]));
    }
  }

  /** Links of tasks in the global queue or in hands, or of those in ring `i`, are not those copied elsewhere. */
  lemma DiscreetKnit(s: State, s': State, t: nat, u: nat)
    requires Inv(s) && Sized(s') && t < |s.hands| && u < |s.hands| == |s'.hands| && s'.rings == s.rings && Knit(s, u)
    requires s'.hands[u].at == s.hands[u].at && s'.hands[u].pending == s.hands[u].pending && Discreet(s, s', t)
    ensures Knit(s', u)
  {
    hide Unique, P.Inv, RingOk, HandOk, Next, Copied, Moving;
    if s.hands[u].at.Some? && Copies(s, u, s.hands[u].at.value) {
      var i := s.hands[u].at.value;
      CopiesFront(s, u, i);
      forall x | x in Copied(s.rings[i].threads[u]) ensures Next(s'.next, x) == Next(s.next, x) {
        RingApart(s.pool, i, x, i, t);
      }
    }
    KnitStays(s, s', u);
  }

  lemma WriteKnitOther(s: State, t: nat, u: nat, c: P.Choice)
    requires Inv(s) && t < |s.hands| && u < |s.hands| && u != t && s.hands[t].pending != Nothing && Knit(s, u)
    requires c.t == t && !Clashes(s, c)
    ensures Sized(StepWrite(s, t)) && Knit(StepWrite(s, t), u)
  {
    PendingCopied(s, t);
    var i := s.hands[t].at.value;
    assert Copies(s, t, i) && !Copies(s, u, i);
    CopiesFront(s, t, i);
    hide Unique, P.Inv, RingOk, HandOk, Copied, P.RolesOk, R.InBounds;
    var s' := StepWrite(s, t);
    var key := if s.hands[t].pending.Clearing? then s.hands[t].pending.x else s.hands[t].pending.behind;
    assert key in s.pool.rings[i];
    if s.hands[u].at.Some? && Copies(s, u, s.hands[u].at.value) {
      var j := s.hands[u].at.value;
      CopiesFront(s, u, j);
      RingApart(s.pool, i, key, j, t);
      assert forall x | x in Copied(s.rings[j].threads[u]) :: x != key;
    }
    KnitStays(s, s', u);
  }

  lemma WriteKnitOwn(s: State, t: nat, c: P.Choice)
    requires Inv(s) && t < |s.hands| && s.hands[t].pending != Nothing && Knit(s, t)
    requires c.t == t && !Clashes(s, c)
    ensures Sized(StepWrite(s, t)) && Knit(StepWrite(s, t), t)
  {
    PendingCopied(s, t);
    var i := s.hands[t].at.value;
    CopiesFront(s, t, i);
    hide Unique, P.Inv, RingOk, HandOk, P.RolesOk, R.InBounds, Next, Values, Threaded, P.Sized, Distinct;
    var s' := StepWrite(s, t);
    var list := Copied(s.rings[i].threads[t]);
    var n := |list| - 1;
    assert Threaded(s.next, list[..n]);
    if s.hands[t].pending.Clearing? {
      ClearKnit(s.next, list);
    } else {
      JoinKnit(s.next, list);
    }
  }

  lemma ClearKnit(next: Links, list: seq<Task>)
    requires list != [] && Distinct(list) && Threaded(next, list[..|list| - 1])
    ensures var next' := next[list[|list| - 1] := None]; Threaded(next', list[..|list| - 1]) && (|list| == 1 ==> Threaded(next', list))
  {
    SameLinks(next, next[list[|list| - 1] := None], list[..|list| - 1]);
  }

  lemma JoinKnit(next: Links, list: seq<Task>)
    requires |list| > 1 && Distinct(list) && Threaded(next, list[..|list| - 1])
    ensures Threaded(next[list[|list| - 2] := Some(list[|list| - 1])], list)
  {
    var n := |list| - 1;
    assert list[..n] + [list[n]] == list;
    AppendedThreaded(next, list[..n], [list[n]]);
  }

  lemma HeadGrows(r: R.State, c: R.Choice)
    requires R.InBounds(r) && c.t < |r.threads|
    ensures var r' := R.Step(r, c); r'.head >= r.head && r'.threads == r.threads[c.t := r'.threads[c.t]]
  {
    hide R.Slot, R.Copying;
  }

  lemma RingKnitOther(s: State, s': State, t: nat, i: nat, u: nat, c: R.Choice)
    requires Inv(s) && Sized(s') && c.t == t < |s.hands| == |s'.hands| && i < |s.rings| && u < |s.hands| && u != t && Knit(s, u)
    requires s'.rings == s.rings[i := R.Step(s.rings[i], c)] && s'.next == s.next && s'.hands[u] == s.hands[u]
    ensures Knit(s', u)
  {
    HeadGrows(s.rings[i], c);
    assert HandOk(s, u) && RingOk(s, i);
    hide Unique, P.Inv, P.RolesOk, R.InBounds, R.Step, R.HistoryOk, R.BufferOk, Copied, Engaged, PendingOk;
    assert R.LocalOk(s.rings[i], u, s.rings[i].threads[u]);
    KnitStays(s, s', u);
  }

  /** How a thread comes to be copying. */
  lemma CopyingStep(r: R.State, t: nat)
    requires R.InBounds(r) && t < |r.threads| && !r.threads[t].Idle?
    ensures var rl, r' := r.threads[t], R.Step(r, R.Choice(t, R.TryPop)); var rl' := r'.threads[t];
      (rl'.GrabRead? || rl'.GrabSwing?) ==>
        || (rl.GrabLoadTail? && rl'.items == [])
        || (rl.GrabRead? && rl'.items == rl.items + [r.buffer[rl.pos]] && rl'.head == rl.head && r'.head == r.head)
  {
  }

  lemma RingKnitOwn(s: State, t: nat)
    requires Inv(s) && t < |s.hands| && s.hands[t].pending == Nothing && s.hands[t].at.Some? && Knit(s, t)
    requires Sized(StepRing(s, t))
    ensures Knit(StepRing(s, t), t)
  {
    var i := s.hands[t].at.value;
    var r := s.rings[i];
    var rl := r.threads[t];
    assert HandOk(s, t) && RingOk(s, i);
    assert !rl.Idle? by {
      EngagedBusy(s, t);
    }
    CopyingStep(r, t);
    hide Unique, P.Inv, P.RolesOk, R.InBounds, R.Step, P.Step, R.Inv, R.HistoryOk, R.BufferOk, Engaged, PendingOk, Values,
         Loaded, InPlace, RingOk, R.Contents, P.Sized, PoppedAfter, BatchOk;
    var s' := StepRing(s, t);
    if Copies(s', t, i) {
      if rl.GrabRead? {
        assert Copies(s, t, i);
        ValuesGrow(s.next, rl.items, r.buffer[rl.pos]);
      } else {
        NoneInPlace(s.next);
      }
    }
  }

  lemma NoneInPlace(next: Links)
    ensures InPlace(next, Nothing, Values([]))
  {
  }

  lemma ValuesGrow(next: Links, items: seq<Option<Task>>, x: Option<Task>)
    requires InPlace(next, Nothing, Values(items))
    ensures InPlace(next, Loaded(x, items), Values(items + [x]))
  {
    assert (items + [x])[..|items|] == items;
    assert x.Some? ==> Values(items + [x])[..|Values(items)|] == Values(items);
  }

  lemma EnterKnit(s: State, t: nat, i: nat, op: R.Op, u: nat)
    requires Inv(s) && t < |s.hands| && i < |s.rings| && u < |s.hands| && s.hands[t].at.None? && Knit(s, u)
    requires Sized(StepEnter(s, t, i, op))
    ensures Knit(StepEnter(s, t, i, op), u)
  {
    var s' := StepEnter(s, t, i, op);
    if u != t {
      RingKnitOther(s, s', t, i, u, R.Choice(t, op));
    } else {
      assert HandOk(s, t);
      hide Unique, P.Inv, P.RolesOk, R.InBounds, RingOk;
      assert !s'.rings[i].threads[t].GrabRead? && !s'.rings[i].threads[t].GrabSwing?;
    }
  }

  lemma PoolDiscreet(s: State, t: nat, c: P.Choice)
    requires Inv(s) && c.t == t < |s.hands|
    ensures Discreet(s, StepPool(s, t, c), t)
  {
    hide P.Inv, Unique, RingOk, HandOk, P.Step, P.Share;
  }

  lemma PoolKnit(s: State, t: nat, c: P.Choice, u: nat)
    requires Inv(s) && c.t == t < |s.hands| && u < |s.hands| && s.hands[t].at.None? && Knit(s, u)
    requires Sized(StepPool(s, t, c))
    ensures Knit(StepPool(s, t, c), u)
  {
    PoolDiscreet(s, t, c);
    hide Inv, Knit, Discreet, P.Step, Relinked, Legal;
    DiscreetKnit(s, StepPool(s, t, c), t, u);
  }

  lemma BatchKnit(s: State, c: P.Choice, u: nat)
    requires Inv(s) && c.t < |s.hands| && s.pool.threads[c.t].Refill? && s.hands[c.t].at.None? && u < |s.hands| && Knit(s, u)
    requires Sized(StepBatch(s, c.t, c))
    ensures Knit(StepBatch(s, c.t, c), u)
  {
    var t, h := c.t, s.hands[c.t];
    hide Knit, StepPool, StepEnter, Discreet, Inv;
    if h.popped == 0 || (h.popped == 1 && s.pool.threads[t].rest != []) {
      NoWriteDiscreet(s, StepBatch(s, t, c), t);
      DiscreetKnit(s, StepBatch(s, t, c), t, u);
    } else if s.pool.threads[t].rest == [] {
      PoolKnit(s, t, c, u);
    } else {
      EnterKnit(s, t, t, R.TryPush(s.pool.threads[t].rest[0]), u);
    }
  }

  lemma NoWriteDiscreet(s: State, s': State, t: nat)
    requires t < |s.pool.threads| && s'.next == s.next
    ensures Discreet(s, s', t)
  {
  }

  lemma KnitKeeps(s: State, c: P.Choice, u: nat)
    requires Inv(s) && u < |s.hands| && Knit(s, u) && !Clashes(s, c)
    ensures Inv(Step(s, c)) && u < |Step(s, c).hands| && Knit(Step(s, c), u)
  {
    StepKeeps(s, c);
    SizedOf(s);
    SizedOf(Step(s, c));
    hide Inv, Knit, Clashes, StepWrite, StepRing, StepPool, StepEnter, StepBatch, Operation, P.RolesOk, R.InBounds;
    StepHands(s, c);
    if c.t < |s.hands| {
      var t := c.t;
      if s.hands[t].pending != Nothing {
        if u == t {
          WriteKnitOwn(s, t, c);
        } else {
          WriteKnitOther(s, t, u, c);
        }
      } else if s.hands[t].at.Some? {
        if u == t {
          RingKnitOwn(s, t);
        } else {
          RingKnits(s, t, u);
        }
      } else if s.pool.threads[t].Refill? {
        BatchKnit(s, c, u);
      } else if Operation(s.pool.threads[t]).None? {
        PoolKnit(s, t, c, u);
      } else if !s.pool.threads[t].StealGrab? {
        EnterKnit(s, t, t, Operation(s.pool.threads[t]).value, u);
      } else if c.from < s.pool.workers && c.from != t {
        EnterKnit(s, t, c.from, Operation(s.pool.threads[t]).value, u);
      }
    }
  }

  lemma RingKnits(s: State, t: nat, u: nat)
    requires Inv(s) && t < |s.hands| && u < |s.hands| && u != t && s.hands[t].at.Some? && Knit(s, u)
    requires Sized(StepRing(s, t))
    ensures Knit(StepRing(s, t), u)
  {
    hide P.Inv, Unique, RingOk, HandOk, P.Step, R.Step, P.RolesOk, R.InBounds, Knit;
    RingKnitOther(s, StepRing(s, t), t, s.hands[t].at.value, u, R.Choice(t, R.TryPop));
  }

  lemma StepHands(s: State, c: P.Choice)
    requires Sized(s)
    ensures |Step(s, c).hands| == |s.hands|
  {
    hide P.Step, R.Step, Relinked, Operation, TakesEffect;
  }

  // ---------------------------------------------------------------- every run

  ghost predicate NeverClashes(workers: nat, clients: nat, schedule: seq<P.Choice>) {
    forall k | 0 <= k < |schedule| :: !Clashes(Run(workers, clients, schedule[..k]), schedule[k])
  }

  ghost predicate AllKnit(s: State)
    requires Sized(s)
  {
    forall u | 0 <= u < |s.hands| :: Knit(s, u)
  }

  lemma AllKnitKeeps(s: State, c: P.Choice)
    requires Inv(s) && AllKnit(s) && !Clashes(s, c)
    ensures Inv(Step(s, c)) && AllKnit(Step(s, c))
  {
    StepKeeps(s, c);
    SizedOf(s);
    SizedOf(Step(s, c));
    StepHands(s, c);
    hide Inv, Knit, Step, Clashes, P.RolesOk, R.InBounds;
    forall u | 0 <= u < |s.hands| ensures Knit(Step(s, c), u) {
      assert Knit(s, u);
      KnitKeeps(s, c, u);
    }
  }

  lemma {:induction false} KnitRun(workers: nat, clients: nat, schedule: seq<P.Choice>, k: nat)
    requires NeverClashes(workers, clients, schedule) && k <= |schedule|
    ensures AllKnit(Run(workers, clients, schedule[..k]))
    decreases k
  {
    hide Inv, Knit, Step, Clashes, AllKnit;
    if k == 0 {
      assert schedule[..0] == [];
      InitKnit(workers, clients);
    } else {
      KnitRun(workers, clients, schedule, k - 1);
      assert schedule[..k][..k - 1] == schedule[..k - 1];
      NotClashing(workers, clients, schedule, k - 1);
      AllKnitKeeps(Run(workers, clients, schedule[..k - 1]), schedule[k - 1]);
    }
  }

  lemma InitKnit(workers: nat, clients: nat)
    ensures Sized(Init(workers, clients)) && AllKnit(Init(workers, clients))
  {
    InitKeeps(workers, clients);
  }

  /** A list is torn only in a run in which some `Grab` wrote a link although it was outrun or not alone. */
  lemma NoOverlapNoTear(workers: nat, clients: nat, schedule: seq<P.Choice>)
    requires NeverClashes(workers, clients, schedule)
    ensures NeverTorn(workers, clients, schedule)
  {
    hide Inv, Knit, Run, Clashes, Tears, NeverClashes;
    forall k | 0 <= k < |schedule| ensures !Tears(Run(workers, clients, schedule[..k]), schedule[k]) {
      KnitRun(workers, clients, schedule, k);
      NotClashing(workers, clients, schedule, k);
      NoClashNoTear(Run(workers, clients, schedule[..k]), schedule[k]);
    }
  }

  lemma NotClashing(workers: nat, clients: nat, schedule: seq<P.Choice>, k: nat)
    requires NeverClashes(workers, clients, schedule) && k < |schedule|
    ensures !Clashes(Run(workers, clients, schedule[..k]), schedule[k])
  {
  }
}
