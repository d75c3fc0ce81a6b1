/**
 The fiber mutex of fibers/sync/mutex.hpp with the suspension protocol of fibers/awaiters.hpp:46-62,
 fibers/fiber.cpp:10-39 and fibers/fiber.hpp:80-88, as a machine of atomic steps.

 `guard` is the fiber whose `Guard` holds the spinlock (mutual exclusion among guards is proved in
 `SpinLock` and taken for granted here).  A fiber that must wait pushes its awaiter and suspends; the worker
 that ran it then releases the guard, marks the guard as released, and discards the task that carried the
 fiber.  Nothing makes it do the last two before another worker resumes the fiber, so they are steps of
 their own: `marking` and `discarding` count the workers that still have to take them.  A fiber that comes
 back from `Lock` runs the destructor of its guard, which tests the mark; `followed` says whether another
 thread had queued for the spinlock behind that guard, which decides what a second release of it does.

 Bookkeeping: `arrivals` and `grants` are the orders in which fibers asked for the mutex and were given it,
 `tickets` the fibers' latest positions among the arrivals.
 */
module FiberMutex {
  import opened Basics

  /**
   Where a fiber is: in `Lock` (mutex.hpp:12-22), suspended in it, runnable again, back in it, waiting in a
   second release of its guard for ever, inside the critical section, or in `Unlock` (24-34).
   */
  datatype At =
    | Outside
    | LockEnter
    | LockTest
    | LockLeave
    | Suspending
    | AwaitSuspend
    | Parked
    | Runnable
    | Resumed
    | Spinning
    | Inside
    | UnlockEnter
    | UnlockTest
    | UnlockLeave

  /**
   A fiber, with the mark of its guard (`released_`), whether a worker is about to set it, the flag that keeps
   the fiber when a task is discarded (the opposite of `need_to_delete_after_discard_`), how many workers are
   about to discard, and whether the `next_` of its guard is set.
   */
  datatype Fiber = Fiber(at: At, released: bool, marking: bool, kept: bool, discarding: nat, ticket: nat, followed: bool)

  /** How a run comes to an end: a fiber in use was deleted, or its guard, released again, granted the lock to another guard. */
  datatype End = Deleted(f: nat) | Granted(f: nat)

  datatype State = State(
    closed: bool,
    queue: seq<nat>,
    guard: Option<nat>,
    fibers: seq<Fiber>,
    arrivals: seq<nat>,
    grants: seq<nat>,
    fault: bool,
    ended: Option<End>)

  /** A fiber moves, a worker that suspended it marks its guard or discards its task, or fiber `g` queues behind its guard. */
  datatype Choice = Moves(f: nat) | Marks(f: nat) | Discards(f: nat) | Joins(f: nat, g: nat)

  function Put(s: State, f: nat, x: Fiber): State
    requires f < |s.fibers|
  {
    s.(fibers := s.fibers[f := x])
  }

  function Go(s: State, f: nat, a: At): State
    requires f < |s.fibers|
  {
    Put(s, f, s.fibers[f].(at := a))
  }

  /** Acquiring the spinlock, with a fresh guard, waits until it is free. */
  function Enter(s: State, f: nat, a: At): State
    requires f < |s.fibers|
  {
    if s.guard.Some? then s else Put(s.(guard := Some(f)), f, s.fibers[f].(at := a, followed := false))
  }

  /** `old_tail_->next_.store(guard)` (spinlock.hpp:57): fiber `g` wants the spinlock that fiber `f` has. */
  function StepJoin(s: State, f: nat, g: nat): State
    requires f < |s.fibers|
  {
    if s.guard != Some(f) || g >= |s.fibers| || !(s.fibers[g].at.LockEnter? || s.fibers[g].at.UnlockEnter?) then s
    else Put(s, f, s.fibers[f].(followed := true))
  }

  /** The critical section of `Lock`: the mutex is free, or the awaiter is pushed. */
  function StepLockTest(s: State, f: nat): State
    requires f < |s.fibers|
  {
    var x := s.fibers[f].(ticket := |s.arrivals|, released := false);
    var s1 := s.(arrivals := s.arrivals + [f]);
    if !s.closed then Put(s1.(closed := true, grants := s.grants + [f]), f, x.(at := LockLeave))
    else Put(s1.(queue := s.queue + [f]), f, x.(at := Suspending))
  }

  /** The critical section of `Unlock`: the first waiter is scheduled, which it must be ready for, or the mutex opens. */
  function StepUnlockTest(s: State, f: nat): State
    requires f < |s.fibers|
  {
    if s.queue == [] then Go(s.(closed := false), f, UnlockLeave)
    else
      var g := s.queue[0];
      if g >= |s.fibers| || !s.fibers[g].at.Parked? then s.(fault := true)
      else Go(Go(s.(queue := s.queue[1..], grants := s.grants + [g]), g, Runnable), f, UnlockLeave)
  }

  /**
   The other steps of a fiber.  The destructor of the guard after a suspension (spinlock.hpp:26-30) tests the
   mark; without it the guard is released again, finds the lock not its own and waits for a successor
   (72-75), which can no longer come if nobody had queued behind it.
   */
  function Moved(x: Fiber): Fiber {
    match x.at
    case Outside => x.(at := LockEnter)
    case LockLeave => x.(at := Inside)
    case Suspending => x.(at := AwaitSuspend, kept := true)
    case AwaitSuspend => x.(at := Parked, marking := true)
    case Runnable => x.(at := Resumed)
    case Resumed => x.(at := if x.released then Inside else Spinning)
    case Inside => x.(at := UnlockEnter)
    case UnlockLeave => x.(at := Outside)
    case _ => x
  }

  function StepAlone(s: State, f: nat): State
    requires f < |s.fibers|
  {
    var a := s.fibers[f].at;
    var s1 := Put(s, f, Moved(s.fibers[f]));
    if a.LockLeave? || a.AwaitSuspend? || a.UnlockLeave? then s1.(guard := None) else s1
  }

  function StepFiber(s: State, f: nat): State
    requires f < |s.fibers|
  {
    match s.fibers[f].at
    case LockEnter => Enter(s, f, LockTest)
    case LockTest => StepLockTest(s, f)
    case UnlockEnter => Enter(s, f, UnlockTest)
    case UnlockTest => StepUnlockTest(s, f)
    case _ => StepAlone(s, f)
  }

  /** `released_ = true` (spinlock.hpp:35), after which the worker comes to `Discard`. */
  function StepMark(s: State, f: nat): State
    requires f < |s.fibers|
  {
    var x := s.fibers[f];
    if !x.marking then s else Put(s, f, x.(released := true, marking := false, discarding := x.discarding + 1))
  }

  /** `Discard` (fiber.hpp:80-88): the flag that keeps the fiber is shared by all the workers that ever carried it. */
  function StepDiscard(s: State, f: nat): State
    requires f < |s.fibers|
  {
    var x := s.fibers[f];
    if x.discarding == 0 then s
    else if !x.kept then s.(ended := Some(Deleted(f)))
    else Put(s, f, x.(kept := false, discarding := x.discarding - 1))
  }

  /** The second release finds the successor of the first (77), whose guard has had the lock already and may be gone. */
  predicate Strays(x: Fiber) {
    x.at.Resumed? && !x.released && x.followed
  }

  /** Nothing is claimed once memory that may be gone has been written to: the machine stops. */
  function Step(s: State, c: Choice): State {
    if s.ended.Some? || c.f >= |s.fibers| then s
    else
      match c
      case Moves(f) => if Strays(s.fibers[f]) then s.(ended := Some(Granted(f))) else StepFiber(s, f)
      case Marks(f) => StepMark(s, f)
      case Discards(f) => StepDiscard(s, f)
      case Joins(f, g) => StepJoin(s, f, g)
  }

  function Init(fibers: nat): State {
    State(false, [], None, seq(fibers, i => Fiber(Outside, false, false, false, 0, 0, false)), [], [], false, None)
  }

  function Run(s: State, schedule: seq<Choice>): State
    decreases |schedule|
  {
    if schedule == [] then s
    else Step(Run(s, schedule[..|schedule| - 1]), schedule[|schedule| - 1])
  }

  // ---------------------------------------------------------------- invariant

  predicate HasGuard(a: At) {
    a.LockTest? || a.LockLeave? || a.Suspending? || a.AwaitSuspend? || a.UnlockTest? || a.UnlockLeave?
  }

  /** The fiber has the mutex, or has been given it. */
  predicate Owns(a: At) {
    a.LockLeave? || a.Runnable? || a.Resumed? || a.Spinning? || a.Inside? || a.UnlockEnter? || a.UnlockTest?
  }

  predicate Waits(a: At) {
    a.Suspending? || a.AwaitSuspend? || a.Parked?
  }

  /** The guard's holder is the fiber that is between acquiring and releasing it. */
  ghost predicate GuardOk(s: State) {
    && (forall f | 0 <= f < |s.fibers| :: HasGuard(s.fibers[f].at) <==> s.guard == Some(f))
    && (s.guard.Some? ==> s.guard.value < |s.fibers|)
  }

  /** Those who arrived and were not given the mutex yet are the queue, and each of them waits there once. */
  ghost predicate LineOk(s: State) {
    && s.arrivals == s.grants + s.queue
    && (forall i {:trigger s.arrivals[i]} | |s.grants| <= i < |s.arrivals| ::
          s.arrivals[i] < |s.fibers| && Waits(s.fibers[s.arrivals[i]].at) && s.fibers[s.arrivals[i]].ticket == i)
    && (forall f {:trigger Waits(s.fibers[f].at)} | 0 <= f < |s.fibers| && Waits(s.fibers[f].at) ::
          |s.grants| <= s.fibers[f].ticket < |s.arrivals| && s.arrivals[s.fibers[f].ticket] == f)
  }

  /** The mutex is closed exactly while the last one it was given to has it. */
  ghost predicate OwnerOk(s: State) {
    && (forall f | 0 <= f < |s.fibers| && Owns(s.fibers[f].at) :: s.closed && s.grants != [] && f == s.grants[|s.grants| - 1])
    && (s.closed ==> s.grants != [] && s.grants[|s.grants| - 1] < |s.fibers| && Owns(s.fibers[s.grants[|s.grants| - 1]].at))
    && (!s.closed ==> s.queue == [])
  }

  /** The guard of a suspended fiber is marked once its worker has got that far; a guard in use has no mark and no worker. */
  predicate MarkOk(x: Fiber) {
    match x.at
    case Parked => x.released != x.marking
    case Runnable => x.released != x.marking
    case Resumed => x.released != x.marking
    case Suspending => !x.released && !x.marking
    case AwaitSuspend => !x.released && !x.marking
    case Spinning => true
    case _ => !x.marking
  }

  ghost predicate MarksOk(s: State) {
    forall f | 0 <= f < |s.fibers| :: MarkOk(s.fibers[f])
  }

  ghost predicate Inv(s: State) {
    !s.fault && GuardOk(s) && LineOk(s) && OwnerOk(s) && MarksOk(s)
  }
}
