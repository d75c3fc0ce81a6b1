/**
 Three runs in which the fiber mutex breaks because a worker is still busy with a fiber that another worker has
 resumed: two in which a guard is released twice, and one in which a suspended fiber is deleted.
 */
module FiberMutexBreaks {
  import opened Basics
  import opened FiberMutex
  import opened FiberMutexTheorems

  lemma {:induction false} RunAppend(s: State, first: seq<Choice>, second: seq<Choice>)
    ensures Run(s, first + second) == Run(Run(s, first), second)
    decreases |second|
  {
    hide Step;
    if second == [] {
      assert first + second == first;
    } else {
      var n := |second| - 1;
      RunAppend(s, first, second[..n]);
      assert (first + second)[..|first + second| - 1] == first + second[..n];
    }
  }

  /** The same fiber moves `n` times. */
  function Times(f: nat, n: nat): seq<Choice> {
    seq(n, i => Moves(f))
  }

  lemma RunStep(s: State, f: nat, n: nat)
    ensures Run(s, Times(f, n + 1)) == Step(Run(s, Times(f, n)), Moves(f))
    ensures Times(f, 0) == []
  {
    hide Step;
    assert Times(f, n + 1)[..n] == Times(f, n);
  }

  lemma RunOne(s: State, c: Choice)
    ensures Run(s, [c]) == Step(s, c)
  {
    hide Step;
    assert [c][..0] == [];
  }

  /** Two fibers and what the mutex holds; the logs are of no interest here. */
  ghost predicate Pair(s: State, x: Fiber, y: Fiber, closed: bool, queue: seq<nat>, guard: Option<nat>) {
    s.fibers == [x, y] && s.closed == closed && s.queue == queue && s.guard == guard && s.ended.None? && !s.fault
  }

  /** Four or five moves of one fiber, taken one by one. */
  lemma RunFour(s: State, f: nat)
    ensures Run(s, Times(f, 4)) == Step(Step(Step(Step(s, Moves(f)), Moves(f)), Moves(f)), Moves(f))
    ensures Run(s, Times(f, 5)) == Step(Run(s, Times(f, 4)), Moves(f))
    ensures Run(s, Times(f, 2)) == Step(Step(s, Moves(f)), Moves(f))
  {
    RunStep(s, f, 0);
    RunStep(s, f, 1);
    RunStep(s, f, 2);
    RunStep(s, f, 3);
    RunStep(s, f, 4);
    hide Step;
  }

  function GuardAfter(a: At, guard: Option<nat>): Option<nat> {
    if a.LockLeave? || a.AwaitSuspend? || a.UnlockLeave? then None else guard
  }

  /** The moves of a fiber that only change its place. */
  lemma Walks(x: Fiber, a: At)
    requires (x.at, a) in {(Outside, LockEnter), (LockLeave, Inside), (Runnable, Resumed), (Inside, UnlockEnter), (UnlockLeave, Outside)}
    ensures Moved(x) == x.(at := a)
  {
  }

  lemma Sleeps(x: Fiber)
    requires x.at.Suspending?
    ensures Moved(x) == x.(at := AwaitSuspend, kept := true)
    ensures Moved(x.(at := AwaitSuspend, kept := true)) == x.(at := Parked, kept := true, marking := true)
  {
  }

  lemma ComesBack(x: Fiber)
    ensures Moved(x.(at := Resumed)) == x.(at := if x.released then Inside else Spinning)
  {
  }

  lemma Alone0(s: State, x: Fiber, z: Fiber, y: Fiber, closed: bool, queue: seq<nat>, guard: Option<nat>)
    requires Pair(s, x, y, closed, queue, guard) && !Special(x.at) && !Strays(x) && z == Moved(x)
    ensures Pair(Step(s, Moves(0)), z, y, closed, queue, GuardAfter(x.at, guard)) && Step(s, Moves(0)).arrivals == s.arrivals
  {
    assert StepFiber(s, 0) == StepAlone(s, 0);
    hide Moved;
  }

  lemma Alone1(s: State, x: Fiber, y: Fiber, z: Fiber, closed: bool, queue: seq<nat>, guard: Option<nat>)
    requires Pair(s, x, y, closed, queue, guard) && !Special(y.at) && !Strays(y) && z == Moved(y)
    ensures Pair(Step(s, Moves(1)), x, z, closed, queue, GuardAfter(y.at, guard)) && Step(s, Moves(1)).arrivals == s.arrivals
  {
    assert StepFiber(s, 1) == StepAlone(s, 1);
    hide Moved;
  }

  lemma Enters0(s: State, x: Fiber, y: Fiber, closed: bool, queue: seq<nat>)
    requires Pair(s, x, y, closed, queue, None) && !x.followed && (x.at.LockEnter? || x.at.UnlockEnter?)
    ensures var a := if x.at.LockEnter? then LockTest else UnlockTest;
      Pair(Step(s, Moves(0)), x.(at := a), y, closed, queue, Some(0)) && Step(s, Moves(0)).arrivals == s.arrivals
  {
  }

  lemma Enters1(s: State, x: Fiber, y: Fiber, closed: bool, queue: seq<nat>)
    requires Pair(s, x, y, closed, queue, None) && !y.followed && (y.at.LockEnter? || y.at.UnlockEnter?)
    ensures var a := if y.at.LockEnter? then LockTest else UnlockTest;
      Pair(Step(s, Moves(1)), x, y.(at := a), closed, queue, Some(1)) && Step(s, Moves(1)).arrivals == s.arrivals
  {
  }

  lemma LockTakes(s: State, x: Fiber, y: Fiber, guard: Option<nat>)
    requires Pair(s, x, y, false, [], guard) && x.at.LockTest?
    ensures Pair(Step(s, Moves(0)), x.(at := LockLeave, ticket := |s.arrivals|, released := false), y, true, [], guard)
    ensures |Step(s, Moves(0)).arrivals| == |s.arrivals| + 1
  {
  }

  lemma LockQueues(s: State, x: Fiber, y: Fiber, guard: Option<nat>)
    requires Pair(s, x, y, true, [], guard) && y.at.LockTest?
    ensures Pair(Step(s, Moves(1)), x, y.(at := Suspending, ticket := |s.arrivals|, released := false), true, [1], guard)
  {
  }

  lemma UnlockHands(s: State, x: Fiber, y: Fiber, guard: Option<nat>)
    requires Pair(s, x, y, true, [1], guard) && x.at.UnlockTest? && y.at.Parked?
    ensures Pair(Step(s, Moves(0)), x.(at := UnlockLeave), y.(at := Runnable), true, [], guard)
  {
  }

  lemma UnlockOpens(s: State, x: Fiber, y: Fiber, guard: Option<nat>)
    requires Pair(s, x, y, true, [], guard) && y.at.UnlockTest?
    ensures Pair(Step(s, Moves(1)), x, y.(at := UnlockLeave), false, [], guard)
  {
  }

  /** Fiber 0 takes the open mutex in four moves. */
  lemma Takes(s: State, x: Fiber, y: Fiber)
    requires Pair(s, x, y, false, [], None) && x.at.Outside? && !x.followed
    ensures Pair(Run(s, Times(0, 4)), x.(at := Inside, released := false, ticket := |s.arrivals|), y, true, [], None)
    ensures |Run(s, Times(0, 4)).arrivals| == |s.arrivals| + 1
  {
    RunFour(s, 0);
    hide Run, Times, Step, Pair, Moved;
    Walks(x, LockEnter);
    Alone0(s, x, x.(at := LockEnter), y, false, [], None);
    var s1 := Step(s, Moves(0));
    Enters0(s1, x.(at := LockEnter), y, false, []);
    var s2 := Step(s1, Moves(0));
    LockTakes(s2, x.(at := LockTest), y, Some(0));
    var s3 := Step(s2, Moves(0));
    var z := x.(at := LockLeave, ticket := |s.arrivals|, released := false);
    Walks(z, Inside);
    Alone0(s3, z, z.(at := Inside), y, true, [], Some(0));
  }

  /** Fiber 1 finds the mutex closed, joins the empty queue and is suspended, all in five moves. */
  lemma Suspends(s: State, x: Fiber, y: Fiber)
    requires Pair(s, x, y, true, [], None) && y.at.Outside? && !y.followed
    ensures Pair(Run(s, Times(1, 5)), x, y.(at := Parked, released := false, marking := true, kept := true, ticket := |s.arrivals|), true, [1], None)
  {
    RunFour(s, 1);
    hide Run, Times, Step, Pair, Moved;
    var z := y.(at := Suspending, released := false, ticket := |s.arrivals|);
    Sleeps(z);
    Walks(y, LockEnter);
    Alone1(s, x, y, y.(at := LockEnter), true, [], None);
    var s1 := Step(s, Moves(1));
    Enters1(s1, x, y.(at := LockEnter), true, []);
    var s2 := Step(s1, Moves(1));
    LockQueues(s2, x, y.(at := LockTest), Some(1));
    var s3 := Step(s2, Moves(1));
    Alone1(s3, x, z, z.(at := AwaitSuspend, kept := true), true, [1], Some(1));
    Alone1(Step(s3, Moves(1)), x, z.(at := AwaitSuspend, kept := true), z.(at := Parked, kept := true, marking := true), true, [1], Some(1));
  }

  /** Fiber 0, the owner, hands the mutex to the suspended fiber 1 and leaves, in four moves. */
  lemma HandsOn(s: State, x: Fiber, y: Fiber)
    requires Pair(s, x, y, true, [1], None) && x.at.Inside? && !x.followed && y.at.Parked?
    ensures Pair(Run(s, Times(0, 4)), x.(at := Outside), y.(at := Runnable), true, [], None)
  {
    RunFour(s, 0);
    hide Run, Times, Step, Pair, Moved;
    Walks(x, UnlockEnter);
    Alone0(s, x, x.(at := UnlockEnter), y, true, [1], None);
    var s1 := Step(s, Moves(0));
    Enters0(s1, x.(at := UnlockEnter), y, true, [1]);
    var s2 := Step(s1, Moves(0));
    UnlockHands(s2, x.(at := UnlockTest), y, Some(0));
    Walks(x.(at := UnlockLeave), Outside);
    Alone0(Step(s2, Moves(0)), x.(at := UnlockLeave), x.(at := Outside), y.(at := Runnable), true, [], Some(0));
  }

  /** Fiber 1 runs again and comes back from `Lock`, in two moves. */
  lemma Returns(s: State, x: Fiber, y: Fiber)
    requires Pair(s, x, y, true, [], None) && y.at.Runnable? && (y.released || !y.followed)
    ensures Pair(Run(s, Times(1, 2)), x, y.(at := if y.released then Inside else Spinning), true, [], None)
  {
    RunFour(s, 1);
    hide Run, Times, Step, Pair, Moved;
    var z := y.(at := if y.released then Inside else Spinning);
    ComesBack(y);
    Walks(y, Resumed);
    Alone1(s, x, y, y.(at := Resumed), true, [], None);
    Alone1(Step(s, Moves(1)), x, y.(at := Resumed), z, true, [], None);
  }

  /** Fiber 1, the owner, finds nobody waiting and opens the mutex. */
  lemma Opened(s: State, x: Fiber, y: Fiber)
    requires Pair(s, x, y, true, [], None) && y.at.Inside? && !y.followed
    ensures Pair(Run(s, Times(1, 4)), x, y.(at := Outside), false, [], None)
  {
    RunFour(s, 1);
    hide Run, Times, Step, Pair, Moved;
    Walks(y, UnlockEnter);
    Alone1(s, x, y, y.(at := UnlockEnter), true, [], None);
    var s1 := Step(s, Moves(1));
    Enters1(s1, x, y.(at := UnlockEnter), true, []);
    var s2 := Step(s1, Moves(1));
    UnlockOpens(s2, x, y.(at := UnlockTest), Some(1));
    Walks(y.(at := UnlockLeave), Outside);
    Alone1(Step(s2, Moves(1)), x, y.(at := UnlockLeave), y.(at := Outside), false, [], Some(1));
  }

  // ---------------------------------------------------------------- the runs

  const IDLE := Fiber(Outside, false, false, false, 0, 0, false)

  /** Fiber 0 has the mutex, fiber 1 is suspended in the queue, and its worker has just released the guard. */
  const OPENING := Times(0, 4) + Times(1, 5)

  lemma Opens()
    ensures Pair(Run(Init(2), OPENING), Fiber(Inside, false, false, false, 0, 0, false), Fiber(Parked, false, true, true, 0, 1, false), true, [1], None)
  {
    var s := Init(2);
    assert Pair(s, IDLE, IDLE, false, [], None) && |s.arrivals| == 0;
    hide Init, Run, Times, Step, Pair;
    Takes(s, IDLE, IDLE);
    Suspends(Run(s, Times(0, 4)), IDLE.(at := Inside), IDLE);
    RunAppend(s, Times(0, 4), Times(1, 5));
  }

  /**
   Fiber 0 hands the mutex over before that worker has marked the guard.  Fiber 1 comes back from `Lock`, releases
   its guard a second time, and from then on nobody is ever given the mutex.
   */
  lemma ReleasesTwice(later: seq<Choice>)
    ensures var schedule := OPENING + (Times(0, 4) + Times(1, 2));
      var s, s' := Run(Init(2), schedule), Run(Init(2), schedule + later);
      && |s.fibers| == |s'.fibers| == 2 && s.fibers[1].at.Spinning? && s'.fibers[1].at.Spinning?
      && s'.closed && s'.grants == s.grants
  {
    var schedule := OPENING + (Times(0, 4) + Times(1, 2));
    hide Init, Run, Times, Step, OPENING;
    Opens();
    var s1 := Run(Init(2), OPENING);
    var x, y := Fiber(Inside, false, false, false, 0, 0, false), Fiber(Parked, false, true, true, 0, 1, false);
    HandsOn(s1, x, y);
    Returns(Run(s1, Times(0, 4)), x.(at := Outside), y.(at := Runnable));
    RunAppend(s1, Times(0, 4), Times(1, 2));
    RunAppend(Init(2), OPENING, Times(0, 4) + Times(1, 2));
    SecondReleaseSticks(2, schedule, later, 1);
  }

  /** Fiber 1 holds the guard, about to be suspended, and fiber 0 queues behind that guard for its `Unlock`. */
  const QUEUEING := Times(1, 4) + [Moves(0)] + [Joins(1, 0)]

  /** The worker releases the guard of fiber 1 to fiber 0, which hands the mutex over; then fiber 1 runs again. */
  const RETURNING := [Moves(1)] + [Moves(0)] + [Moves(0)] + [Moves(0)] + Times(1, 2)

  lemma Queues(s: State)
    requires Pair(s, Fiber(Inside, false, false, false, 0, 0, false), IDLE, true, [], None)
    ensures exists n: nat :: Pair(Run(s, QUEUEING), Fiber(UnlockEnter, false, false, false, 0, 0, false), Fiber(AwaitSuspend, false, false, true, 0, n, true), true, [1], Some(1))
  {
    hide Run, Times, Step, Pair, Moved;
    var x, y := Fiber(Inside, false, false, false, 0, 0, false), IDLE;
    var z := y.(at := Suspending, released := false, ticket := |s.arrivals|);
    RunFour(s, 1);
    Sleeps(z);
    Walks(y, LockEnter);
    Alone1(s, x, y, y.(at := LockEnter), true, [], None);
    var s1 := Step(s, Moves(1));
    Enters1(s1, x, y.(at := LockEnter), true, []);
    var s2 := Step(s1, Moves(1));
    LockQueues(s2, x, y.(at := LockTest), Some(1));
    var s3 := Step(s2, Moves(1));
    Alone1(s3, x, z, z.(at := AwaitSuspend, kept := true), true, [1], Some(1));
    var s4 := Run(s, Times(1, 4));
    Walks(x, UnlockEnter);
    Alone0(s4, x, x.(at := UnlockEnter), z.(at := AwaitSuspend, kept := true), true, [1], Some(1));
    var s5 := Step(s4, Moves(0));
    JoinsBehind(s5, x.(at := UnlockEnter), z.(at := AwaitSuspend, kept := true));
    RunOne(s4, Moves(0));
    RunOne(s5, Joins(1, 0));
    RunAppend(s, Times(1, 4), [Moves(0)]);
    RunAppend(s, Times(1, 4) + [Moves(0)], [Joins(1, 0)]);
  }

  lemma JoinsBehind(s: State, x: Fiber, y: Fiber)
    requires Pair(s, x, y, true, [1], Some(1)) && x.at.UnlockEnter?
    ensures Pair(Step(s, Joins(1, 0)), x, y.(followed := true), true, [1], Some(1))
  {
  }

  lemma StraysAway(s: State, x: Fiber, y: Fiber)
    requires Pair(s, x, y, true, [], None) && y.at.Resumed? && !y.released && y.followed
    ensures Step(s, Moves(1)) == s.(ended := Some(Granted(1)))
  {
  }

  lemma ReturnsTooSoon(s: State, n: nat)
    requires Pair(s, Fiber(UnlockEnter, false, false, false, 0, 0, false), Fiber(AwaitSuspend, false, false, true, 0, n, true), true, [1], Some(1))
    ensures Run(s, RETURNING).ended == Some(Granted(1))
  {
    hide Run, Times, Step, Pair, Moved;
    var x, y := Fiber(UnlockEnter, false, false, false, 0, 0, false), Fiber(AwaitSuspend, false, false, true, 0, n, true);
    var z := y.(at := Parked, marking := true);
    Sleeps(y.(at := Suspending));
    Alone1(s, x, y, z, true, [1], Some(1));
    var s1 := Step(s, Moves(1));
    Enters0(s1, x, z, true, [1]);
    var s2 := Step(s1, Moves(0));
    UnlockHands(s2, x.(at := UnlockTest), z, Some(0));
    var s3 := Step(s2, Moves(0));
    Walks(x.(at := UnlockLeave), Outside);
    Alone0(s3, x.(at := UnlockLeave), x.(at := Outside), z.(at := Runnable), true, [], Some(0));
    var s4 := Step(s3, Moves(0));
    Walks(z.(at := Runnable), Resumed);
    Alone1(s4, x.(at := Outside), z.(at := Runnable), z.(at := Resumed), true, [], None);
    StraysAway(Step(s4, Moves(1)), x.(at := Outside), z.(at := Resumed));
    RunFour(s4, 1);
    RunOne(s, Moves(1));
    RunOne(s1, Moves(0));
    RunOne(s2, Moves(0));
    RunOne(s3, Moves(0));
    RunAppend(s, [Moves(1)], [Moves(0)]);
    RunAppend(s, [Moves(1)] + [Moves(0)], [Moves(0)]);
    RunAppend(s, [Moves(1)] + [Moves(0)] + [Moves(0)], [Moves(0)]);
    RunAppend(s, [Moves(1)] + [Moves(0)] + [Moves(0)] + [Moves(0)], Times(1, 2));
  }

  /**
   The same race with another guard queued behind: the second release of fiber 1's guard grants the lock to
   that guard again, which had it and is gone.
   */
  lemma GrantsAgain()
    ensures Run(Init(2), Times(0, 4) + QUEUEING + RETURNING).ended == Some(Granted(1))
  {
    var s := Init(2);
    assert Pair(s, IDLE, IDLE, false, [], None) && |s.arrivals| == 0;
    hide Init, Run, Times, Step, Pair, QUEUEING, RETURNING;
    Takes(s, IDLE, IDLE);
    var s1 := Run(s, Times(0, 4));
    Queues(s1);
    var n: nat :| Pair(Run(s1, QUEUEING), Fiber(UnlockEnter, false, false, false, 0, 0, false), Fiber(AwaitSuspend, false, false, true, 0, n, true), true, [1], Some(1));
    ReturnsTooSoon(Run(s1, QUEUEING), n);
    RunAppend(s, Times(0, 4), QUEUEING);
    RunAppend(s, Times(0, 4) + QUEUEING, RETURNING);
  }

  /** The worker that suspended fiber 1 marks its guard in time, and fiber 1 goes through the critical section. */
  const ONCE_THROUGH := [Marks(1)] + Times(0, 4) + Times(1, 2) + Times(1, 4)

  /** Fiber 1 is suspended a second time, and only then do both workers discard their tasks. */
  const BOTH_DISCARD := [Marks(1)] + [Discards(1)] + [Discards(1)]

  /** The second of the two deletes the fiber while it waits in the queue. */
  lemma DeletesSuspended()
    ensures var s := Run(Init(2), OPENING + (ONCE_THROUGH + (Times(0, 4) + Times(1, 5) + BOTH_DISCARD)));
      s.ended == Some(Deleted(1)) && |s.fibers| == 2 && s.fibers[1].at.Parked? && s.queue == [1]
  {
    var second := Times(0, 4) + Times(1, 5) + BOTH_DISCARD;
    hide Init, Run, Times, Step, OPENING, ONCE_THROUGH, BOTH_DISCARD;
    Opens();
    var s1 := Run(Init(2), OPENING);
    GoesThrough(s1);
    var s2 := Run(s1, ONCE_THROUGH);
    SuspendedAgain(s2);
    var s3 := Run(s2, Times(0, 4) + Times(1, 5));
    Discarded(s3, s3.fibers[0], s3.fibers[1]);
    RunAppend(s2, Times(0, 4) + Times(1, 5), BOTH_DISCARD);
    RunAppend(s1, ONCE_THROUGH, second);
    RunAppend(Init(2), OPENING, ONCE_THROUGH + second);
  }

  lemma GoesThrough(s: State)
    requires Pair(s, Fiber(Inside, false, false, false, 0, 0, false), Fiber(Parked, false, true, true, 0, 1, false), true, [1], None)
    ensures Pair(Run(s, ONCE_THROUGH), Fiber(Outside, false, false, false, 0, 0, false), Fiber(Outside, true, false, true, 1, 1, false), false, [], None)
  {
    var x, y := Fiber(Inside, false, false, false, 0, 0, false), Fiber(Parked, true, false, true, 1, 1, false);
    assert Pair(Step(s, Marks(1)), x, y, true, [1], None);
    hide Run, Times, Step, Pair;
    RunOne(s, Marks(1));
    var s1 := Run(s, [Marks(1)]);
    HandsOn(s1, x, y);
    var s2 := Run(s1, Times(0, 4));
    Returns(s2, x.(at := Outside), y.(at := Runnable));
    Opened(Run(s2, Times(1, 2)), x.(at := Outside), y.(at := Inside));
    RunAppend(s, [Marks(1)], Times(0, 4));
    RunAppend(s, [Marks(1)] + Times(0, 4), Times(1, 2));
    RunAppend(s, [Marks(1)] + Times(0, 4) + Times(1, 2), Times(1, 4));
  }

  lemma SuspendedAgain(s: State)
    requires Pair(s, Fiber(Outside, false, false, false, 0, 0, false), Fiber(Outside, true, false, true, 1, 1, false), false, [], None)
    ensures var s' := Run(s, Times(0, 4) + Times(1, 5));
      && |s'.fibers| == 2 && Pair(s', s'.fibers[0], s'.fibers[1], true, [1], None)
      && s'.fibers[1].at.Parked? && s'.fibers[1].marking && s'.fibers[1].kept && s'.fibers[1].discarding == 1
  {
    hide Run, Times, Step;
    var x, y := Fiber(Outside, false, false, false, 0, 0, false), Fiber(Outside, true, false, true, 1, 1, false);
    Takes(s, x, y);
    Suspends(Run(s, Times(0, 4)), x.(at := Inside, ticket := |s.arrivals|), y);
    RunAppend(s, Times(0, 4), Times(1, 5));
  }

  lemma Discarded(s: State, x: Fiber, y: Fiber)
    requires Pair(s, x, y, true, [1], None) && y.at.Parked? && y.marking && y.kept && y.discarding == 1
    ensures var s' := Run(s, BOTH_DISCARD); s'.ended == Some(Deleted(1)) && |s'.fibers| == 2 && s'.fibers[1].at.Parked? && s'.queue == [1]
  {
    var s1 := Step(s, Marks(1));
    assert Pair(s1, x, y.(released := true, marking := false, discarding := 2), true, [1], None);
    var s2 := Step(s1, Discards(1));
    assert Pair(s2, x, y.(released := true, marking := false, discarding := 1, kept := false), true, [1], None);
    var s3 := Step(s2, Discards(1));
    assert s3.ended == Some(Deleted(1)) && s3.fibers == s2.fibers && s3.queue == [1];
    hide Step, Run;
    RunOne(s, Marks(1));
    RunOne(s1, Discards(1));
    RunOne(s2, Discards(1));
    RunAppend(s, [Marks(1)], [Discards(1)]);
    RunAppend(s, [Marks(1)] + [Discards(1)], [Discards(1)]);
  }
}
