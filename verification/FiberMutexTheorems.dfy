/** What the fiber mutex guarantees: in which runs its suspension protocol holds, and what then holds in them. */
module FiberMutexTheorems {
  import opened Basics
  import opened FiberMutex

  // ---------------------------------------------------------------- every step keeps the invariant

  /** One fiber changes. */
  ghost predicate OneMoves(s: State, s': State, f: nat) {
    f < |s.fibers| == |s'.fibers| && s'.fibers == s.fibers[f := s'.fibers[f]]
  }

  lemma SameLine(s: State, s': State, f: nat)
    requires OneMoves(s, s', f) && LineOk(s)
    requires s'.grants == s.grants && s'.queue == s.queue && s'.arrivals == s.arrivals
    requires Waits(s'.fibers[f].at) == Waits(s.fibers[f].at) && s'.fibers[f].ticket == s.fibers[f].ticket
    ensures LineOk(s')
  {
    hide Waits;
  }

  lemma SameOwner(s: State, s': State, f: nat)
    requires OneMoves(s, s', f) && OwnerOk(s)
    requires s'.grants == s.grants && s'.queue == s.queue && s'.closed == s.closed
    requires Owns(s'.fibers[f].at) == Owns(s.fibers[f].at)
    ensures OwnerOk(s')
  {
    hide Owns;
  }

  lemma GuardFollows(s: State, s': State, f: nat)
    requires OneMoves(s, s', f) && GuardOk(s) && MarksOk(s) && MarkOk(s'.fibers[f])
    requires HasGuard(s'.fibers[f].at) ==> HasGuard(s.fibers[f].at) || s.guard.None?
    requires s'.guard == if HasGuard(s'.fibers[f].at) then Some(f) else if HasGuard(s.fibers[f].at) then None else s.guard
    ensures GuardOk(s') && MarksOk(s')
  {
    hide HasGuard, MarkOk;
  }

  lemma Facts(s: State, f: nat)
    requires Inv(s) && f < |s.fibers|
    ensures HasGuard(s.fibers[f].at) <==> s.guard == Some(f)
    ensures MarkOk(s.fibers[f])
    ensures Owns(s.fibers[f].at) ==> s.closed && s.grants != [] && f == s.grants[|s.grants| - 1]
  {
  }

  /** Outside the two critical sections a fiber neither gets nor gives the mutex, and waits or not as before. */
  lemma OtherKeeps(s: State, f: nat)
    requires Inv(s) && f < |s.fibers| && !s.fibers[f].at.LockTest? && !s.fibers[f].at.UnlockTest?
    ensures Inv(StepFiber(s, f))
  {
    if s.fibers[f].at.LockEnter? || s.fibers[f].at.UnlockEnter? {
      EnterKeeps(s, f, if s.fibers[f].at.LockEnter? then LockTest else UnlockTest);
    } else {
      hide Inv;
      AloneKeeps(s, f);
      assert StepFiber(s, f) == StepAlone(s, f);
    }
  }

  lemma EnterKeeps(s: State, f: nat, a: At)
    requires Inv(s) && f < |s.fibers| && (s.fibers[f].at, a) in {(LockEnter, LockTest), (UnlockEnter, UnlockTest)}
    ensures Inv(Enter(s, f, a))
  {
    Facts(s, f);
    hide LineOk, OwnerOk, GuardOk, MarksOk;
    if s.guard.None? {
      GuardFollows(s, Enter(s, f, a), f);
      SameLine(s, Enter(s, f, a), f);
      SameOwner(s, Enter(s, f, a), f);
    }
  }

  /** What the steps of a fiber alone do to its place. */
  lemma MovedPlace(x: Fiber)
    requires !Special(x.at) && MarkOk(x)
    ensures var y := Moved(x);
      && MarkOk(y) && y.ticket == x.ticket
      && (Waits(y.at) <==> Waits(x.at)) && (Owns(y.at) <==> Owns(x.at))
      && (HasGuard(y.at) <==> HasGuard(x.at) && !(x.at.LockLeave? || x.at.AwaitSuspend? || x.at.UnlockLeave?))
  {
  }

  lemma AloneKeeps(s: State, f: nat)
    requires Inv(s) && f < |s.fibers|
    requires !Special(s.fibers[f].at)
    ensures Inv(StepAlone(s, f))
  {
    Facts(s, f);
    MovedPlace(s.fibers[f]);
    hide LineOk, OwnerOk, GuardOk, MarksOk, Moved, Waits, Owns, MarkOk;
    GuardFollows(s, StepAlone(s, f), f);
    SameLine(s, StepAlone(s, f), f);
    SameOwner(s, StepAlone(s, f), f);
  }

  lemma LockTestKeeps(s: State, f: nat)
    requires Inv(s) && f < |s.fibers| && s.fibers[f].at.LockTest?
    ensures Inv(StepLockTest(s, f))
  {
    var s' := StepLockTest(s, f);
    Facts(s, f);
    assert GuardOk(s') && MarksOk(s') by {
      hide LineOk, OwnerOk, GuardOk, MarksOk;
      GuardFollows(s, s', f);
    }
    hide GuardOk, MarksOk;
    assert !Waits(s.fibers[f].at);
    assert s'.arrivals == s'.grants + s'.queue;
  }

  /** The first waiter is suspended for good: the guard that `Unlock` holds is no longer its own. */
  lemma FirstIsParked(s: State, f: nat)
    requires Inv(s) && f < |s.fibers| && s.fibers[f].at.UnlockTest? && s.queue != []
    ensures var g := s.queue[0]; g < |s.fibers| && s.fibers[g].at.Parked? && g == s.arrivals[|s.grants|]
  {
    hide MarksOk;
    assert s.queue[0] == s.arrivals[|s.grants|];
    assert s.guard == Some(f);
    assert !HasGuard(s.fibers[s.queue[0]].at);
  }

  /** The first of the queue leaves it for the owner's place. */
  lemma FirstLeavesLine(s: State, s': State, f: nat, g: nat)
    requires LineOk(s) && s.queue != [] && s.queue[0] == g == s.arrivals[|s.grants|]
    requires f < |s.fibers| && g < |s.fibers| && g != f && !Waits(s.fibers[f].at)
    requires s'.fibers == s.fibers[g := s.fibers[g].(at := Runnable)][f := s.fibers[f].(at := UnlockLeave)]
    requires s'.queue == s.queue[1..] && s'.grants == s.grants + [g] && s'.arrivals == s.arrivals
    ensures LineOk(s')
  {
    assert s.queue == [g] + s'.queue;
    assert s'.arrivals == (s.grants + [g]) + s'.queue;
  }

  lemma HandOver(s: State, f: nat)
    requires GuardOk(s) && OwnerOk(s) && MarksOk(s) && f < |s.fibers| && s.fibers[f].at.UnlockTest?
    requires s.queue != [] ==> s.queue[0] < |s.fibers| && s.fibers[s.queue[0]].at.Parked?
    ensures GuardOk(StepUnlockTest(s, f)) && OwnerOk(StepUnlockTest(s, f)) && MarksOk(StepUnlockTest(s, f))
  {
  }

  lemma UnlockTestKeeps(s: State, f: nat)
    requires Inv(s) && f < |s.fibers| && s.fibers[f].at.UnlockTest?
    ensures Inv(StepUnlockTest(s, f))
  {
    hide LineOk, OwnerOk, GuardOk, MarksOk;
    var s' := StepUnlockTest(s, f);
    if s.queue == [] {
      SameLine(s, s', f);
    } else {
      FirstIsParked(s, f);
      FirstLeavesLine(s, s', f, s.queue[0]);
    }
    HandOver(s, f);
  }

  /** The workers that suspended a fiber touch none of what the mutex consists of. */
  lemma WorkerKeeps(s: State, f: nat)
    requires Inv(s) && f < |s.fibers|
    ensures Inv(StepMark(s, f)) && Inv(StepDiscard(s, f)) && forall g :: Inv(StepJoin(s, f, g))
  {
    Facts(s, f);
    hide LineOk, OwnerOk, GuardOk, MarksOk;
    if s.fibers[f].marking {
      SameLine(s, StepMark(s, f), f);
      SameOwner(s, StepMark(s, f), f);
      GuardFollows(s, StepMark(s, f), f);
    }
    if s.fibers[f].discarding > 0 {
      var s' := Put(s, f, s.fibers[f].(kept := false, discarding := s.fibers[f].discarding - 1));
      SameLine(s, s', f);
      SameOwner(s, s', f);
      GuardFollows(s, s', f);
      EndKeeps(s, Deleted(f));
    }
    JoinKeeps(s, f);
  }

  lemma JoinKeeps(s: State, f: nat)
    requires Inv(s) && f < |s.fibers|
    ensures forall g :: Inv(StepJoin(s, f, g))
  {
    Facts(s, f);
    hide LineOk, OwnerOk, GuardOk, MarksOk;
    var s' := Put(s, f, s.fibers[f].(followed := true));
    SameLine(s, s', f);
    SameOwner(s, s', f);
    GuardFollows(s, s', f);
  }

  lemma EndKeeps(s: State, end: End)
    requires Inv(s)
    ensures Inv(s.(ended := Some(end)))
  {
  }

  lemma StepKeeps(s: State, c: Choice)
    requires Inv(s)
    ensures Inv(Step(s, c)) && |Step(s, c).fibers| == |s.fibers|
  {
    hide LineOk, GuardOk, OwnerOk, MarksOk;
    if s.ended.None? && c.f < |s.fibers| {
      var f := c.f;
      if !c.Moves? {
        WorkerKeeps(s, f);
      } else if Strays(s.fibers[f]) {
        EndKeeps(s, Granted(f));
      } else if s.fibers[f].at.LockTest? {
        LockTestKeeps(s, f);
      } else if s.fibers[f].at.UnlockTest? {
        UnlockTestKeeps(s, f);
      } else {
        OtherKeeps(s, f);
      }
    }
  }

  lemma InitKeeps(fibers: nat)
    ensures Inv(Init(fibers))
  {
  }

  lemma {:induction false} RunKeeps(fibers: nat, schedule: seq<Choice>)
    ensures Inv(Run(Init(fibers), schedule)) && |Run(Init(fibers), schedule).fibers| == fibers
    decreases |schedule|
  {
    hide Inv, Step;
    InitKeeps(fibers);
    if schedule != [] {
      RunKeeps(fibers, schedule[..|schedule| - 1]);
      StepKeeps(Run(Init(fibers), schedule[..|schedule| - 1]), schedule[|schedule| - 1]);
    }
  }

  // ---------------------------------------------------------------- when the suspension protocol breaks

  /** A guard was or is being released a second time, or a fiber in use was deleted. */
  ghost predicate Broken(s: State) {
    s.ended.Some? || exists f | 0 <= f < |s.fibers| :: s.fibers[f].at.Spinning?
  }

  /**
   A fiber is back in `Lock` and runs its guard's destructor although the worker that released the guard
   has not marked it yet, or a worker discards a fiber that was discarded since it last suspended.
   */
  ghost predicate Hasty(s: State, c: Choice)
  {
    c.f < |s.fibers| && s.ended.None? &&
    match c
    case Moves(f) => s.fibers[f].at.Resumed? && s.fibers[f].marking
    case Marks(_) => false
    case Joins(_, _) => false
    case Discards(f) => s.fibers[f].discarding > 0 && !s.fibers[f].kept
  }

  /** A fiber's step leaves the others where they are, but for the waiter that `Unlock` schedules. */
  lemma Elsewhere(s: State, f: nat, g: nat)
    requires f < |s.fibers| && g < |s.fibers| && g != f
    ensures var s' := StepFiber(s, f);
      |s'.fibers| == |s.fibers|
      && (s'.fibers[g] == s.fibers[g]
          || (s.fibers[f].at.UnlockTest? && s.fibers[g].at.Parked? && s'.fibers[g] == s.fibers[g].(at := Runnable)))
  {
    HereAlone(s, f);
    hide StepAlone, Moved;
  }

  /** The steps that touch the spinlock or the queue. */
  predicate Special(a: At) {
    a.LockEnter? || a.UnlockEnter? || a.LockTest? || a.UnlockTest?
  }

  lemma HereAlone(s: State, f: nat)
    requires f < |s.fibers|
    ensures var s' := StepAlone(s, f);
      |s'.fibers| == |s.fibers| && s'.ended == s.ended && s'.fibers[f] == Moved(s.fibers[f])
      && forall g | 0 <= g < |s.fibers| && g != f :: s'.fibers[g] == s.fibers[g]
  {
    hide Moved;
  }

  lemma Here(s: State, f: nat)
    requires f < |s.fibers|
    ensures var s' := StepFiber(s, f);
      |s'.fibers| == |s.fibers| && s'.ended == s.ended
      && (s'.fibers[f].at.Spinning? <==> s.fibers[f].at.Spinning? || (s.fibers[f].at.Resumed? && !s.fibers[f].released))
  {
    hide StepAlone, Moved;
    HereAlone(s, f);
    if !Special(s.fibers[f].at) {
      MovedOn(s.fibers[f]);
      assert StepFiber(s, f) == StepAlone(s, f);
      hide StepFiber;
    }
  }

  lemma MovedOn(x: Fiber)
    requires !Special(x.at)
    ensures Moved(x).at.Spinning? <==> x.at.Spinning? || (x.at.Resumed? && !x.released)
    ensures Moved(x).at.Runnable? ==> x.at.Runnable?
  {
  }

  /** Nobody else puts a fiber into a second release, and nobody gets it out of one. */
  lemma OthersStay(s: State, c: Choice, f: nat)
    requires f < |s.fibers|
    ensures |Step(s, c).fibers| == |s.fibers|
    ensures c.f != f || !c.Moves? ==> (Step(s, c).fibers[f].at.Spinning? <==> s.fibers[f].at.Spinning?)
    ensures s.fibers[f].at.Spinning? ==> Step(s, c).fibers[f].at.Spinning?
  {
    if c.Moves? && c.f < |s.fibers| {
      if c.f != f {
        Elsewhere(s, c.f, f);
      } else {
        Here(s, f);
      }
      hide StepFiber;
    }
  }

  /** A step breaks the mutex if and only if it is one of those. */
  lemma StepBreaks(s: State, c: Choice)
    requires Inv(s)
    ensures Broken(Step(s, c)) <==> Broken(s) || Hasty(s, c)
  {
    var s' := Step(s, c);
    if c.f < |s.fibers| {
      Facts(s, c.f);
      Here(s, c.f);
      OthersStay(s, c, c.f);
    }
    hide Inv, StepFiber;
    assert |s'.fibers| == |s.fibers| && (Hasty(s, c) ==> s'.ended.Some? || s'.fibers[c.f].at.Spinning?);
    assert s'.ended.Some? && s.ended.None? ==> Hasty(s, c);
    assert c.f < |s.fibers| && s'.fibers[c.f].at.Spinning? ==> s.fibers[c.f].at.Spinning? || Hasty(s, c);
    hide Step, Hasty;
    forall f | 0 <= f < |s.fibers| ensures s.fibers[f].at.Spinning? ==> s'.fibers[f].at.Spinning?
      ensures f != c.f && s'.fibers[f].at.Spinning? ==> s.fibers[f].at.Spinning?
    {
      OthersStay(s, c, f);
    }
  }

  ghost predicate HastyAt(fibers: nat, schedule: seq<Choice>, n: nat)
    requires n < |schedule|
  {
    var s := Run(Init(fibers), schedule[..n]);
    Hasty(s, schedule[n])
  }

  /** A run breaks the mutex if and only if a worker is too late somewhere in it. */
  lemma {:induction false} BreaksExactly(fibers: nat, schedule: seq<Choice>)
    ensures Broken(Run(Init(fibers), schedule)) <==> exists n | 0 <= n < |schedule| :: HastyAt(fibers, schedule, n)
    decreases |schedule|
  {
    hide Hasty, Step;
    if schedule == [] {
      hide Inv;
    } else {
      var last := |schedule| - 1;
      var front := schedule[..last];
      var s := Run(Init(fibers), front);
      BreaksExactly(fibers, front);
      RunKeeps(fibers, front);
      StepBreaks(s, schedule[last]);
      hide Broken, Inv;
      assert forall n | 0 <= n < last :: schedule[..n] == front[..n] && schedule[n] == front[n];
      assert forall n | 0 <= n < last :: HastyAt(fibers, schedule, n) <==> HastyAt(fibers, front, n);
      assert HastyAt(fibers, schedule, last) <==> Hasty(s, schedule[last]);
      if n :| 0 <= n < last && HastyAt(fibers, front, n) {
        assert HastyAt(fibers, schedule, n);
      }
      if n :| 0 <= n < |schedule| && HastyAt(fibers, schedule, n) {
        assert n == last || HastyAt(fibers, front, n);
      }
    }
  }

  /** No worker is behind with a fiber when that fiber is resumed. */
  ghost predicate Prompt(fibers: nat, schedule: seq<Choice>) {
    forall n | 0 <= n < |schedule| :: PromptAt(Run(Init(fibers), schedule[..n]), schedule[n])
  }

  ghost predicate PromptAt(s: State, c: Choice) {
    c.Moves? && c.f < |s.fibers| && s.fibers[c.f].at.Runnable? ==> !s.fibers[c.f].marking && s.fibers[c.f].discarding == 0
  }

  /** What a prompt run looks like: at most one worker is behind with a fiber, and only until it runs again. */
  ghost predicate Punctual(s: State)
  {
    s.ended.None? && forall f | 0 <= f < |s.fibers| ::
      && !s.fibers[f].at.Spinning?
      && s.fibers[f].discarding + (if s.fibers[f].marking then 1 else 0) <= 1
      && (s.fibers[f].discarding > 0 || s.fibers[f].marking ==> s.fibers[f].kept && (s.fibers[f].at.Parked? || s.fibers[f].at.Runnable?))
      && (s.fibers[f].at.AwaitSuspend? ==> s.fibers[f].kept)
  }

  lemma FiberPunctual(s: State, f: nat)
    requires Inv(s) && Punctual(s) && f < |s.fibers| && PromptAt(s, Moves(f))
    ensures Punctual(StepFiber(s, f))
  {
    Facts(s, f);
    if s.fibers[f].at.UnlockTest? {
      if s.queue != [] {
        FirstIsParked(s, f);
      }
      hide LineOk, OwnerOk, GuardOk, MarksOk;
    } else {
      hide Inv, LineOk, OwnerOk, GuardOk, MarksOk;
      OneFiber(s, f);
      var x := StepFiber(s, f).fibers[f];
      assert !x.at.Spinning? && x.discarding == s.fibers[f].discarding;
      hide StepFiber;
    }
  }

  /** What a fiber's own step does to the flags its workers share. */
  predicate Follows(x: Fiber, x': Fiber) {
    && x'.discarding == x.discarding
    && x'.kept == (x.kept || x.at.Suspending?) && x'.marking == (x.marking || x.at.AwaitSuspend?)
    && (x'.at.AwaitSuspend? <==> x.at.Suspending?)
    && (x.at.Parked? || x.at.AwaitSuspend? ==> x'.at.Parked?)
    && (x'.at.Spinning? <==> x.at.Spinning? || (x.at.Resumed? && !x.released))
  }

  lemma MovedFollows(x: Fiber)
    requires !Special(x.at)
    ensures Follows(x, Moved(x))
  {
  }

  lemma OneFiber(s: State, f: nat)
    requires f < |s.fibers| && !s.fibers[f].at.UnlockTest?
    ensures OneMoves(s, StepFiber(s, f), f) && StepFiber(s, f).ended == s.ended
    ensures Follows(s.fibers[f], StepFiber(s, f).fibers[f])
  {
    hide Moved;
    if !Special(s.fibers[f].at) {
      MovedFollows(s.fibers[f]);
      HereAlone(s, f);
      assert StepFiber(s, f) == StepAlone(s, f);
      hide StepFiber, StepAlone, Follows;
    }
  }

  lemma StepPunctual(s: State, c: Choice)
    requires Inv(s) && Punctual(s) && PromptAt(s, c)
    ensures Punctual(Step(s, c))
  {
    if c.Moves? && c.f < |s.fibers| {
      FiberPunctual(s, c.f);
      hide Punctual;
    }
    hide LineOk, OwnerOk, GuardOk, StepFiber;
  }

  /** A run in which every worker is through with a fiber before the fiber runs again breaks nothing. */
  lemma {:induction false} PromptRunsHold(fibers: nat, schedule: seq<Choice>)
    requires Prompt(fibers, schedule)
    ensures var s := Run(Init(fibers), schedule); Punctual(s) && !Broken(s)
    decreases |schedule|
  {
    hide Step, Inv, PromptAt;
    if schedule != [] {
      var last := |schedule| - 1;
      var front := schedule[..last];
      assert forall n | 0 <= n < last :: schedule[..n] == front[..n] && schedule[n] == front[n];
      PromptRunsHold(fibers, front);
      RunKeeps(fibers, front);
      hide Punctual;
      StepPunctual(Run(Init(fibers), front), schedule[last]);
    }
  }

  // ---------------------------------------------------------------- what holds until then

  /** At most one fiber is between having been given the mutex and opening it or handing it on. */
  lemma OneOwner(s: State, f: nat, g: nat)
    requires Inv(s) && f < |s.fibers| && g < |s.fibers| && Owns(s.fibers[f].at) && Owns(s.fibers[g].at)
    ensures f == g && s.closed
  {
  }

  /** The mutex is given in the order of arrival: the grants are a prefix of the arrivals, and the rest wait in order. */
  lemma FirstComeFirstServed(s: State)
    requires Inv(s)
    ensures s.grants <= s.arrivals && s.queue == s.arrivals[|s.grants|..]
  {
  }

  /** A fiber is made runnable only when it is fully suspended and its guard released, and the mutex stays closed throughout. */
  lemma ResumedWhenSuspended(s: State, c: Choice, g: nat)
    requires Inv(s) && g < |s.fibers|
    ensures var s' := Step(s, c);
      && |s'.fibers| == |s.fibers|
      && (!s.fibers[g].at.Runnable? && s'.fibers[g].at.Runnable? ==>
            c.Moves? && c.f < |s.fibers| && s.fibers[g].at.Parked? && s.closed && s'.closed && g != c.f
            && Owns(s.fibers[c.f].at) && !Owns(s'.fibers[c.f].at))
  {
    OthersStay(s, c, g);
    if c.Moves? && c.f < |s.fibers| && s.fibers[c.f].at.UnlockTest? {
      if s.queue != [] {
        FirstIsParked(s, c.f);
      }
      assert Owns(s.fibers[c.f].at);
      hide LineOk, MarksOk, GuardOk;
    } else {
      hide Inv;
      NotRunnable(s, c, g);
    }
  }

  lemma NotRunnable(s: State, c: Choice, g: nat)
    requires g < |s.fibers| && !(c.Moves? && c.f < |s.fibers| && s.fibers[c.f].at.UnlockTest?)
    ensures |Step(s, c).fibers| == |s.fibers| && (Step(s, c).fibers[g].at.Runnable? ==> s.fibers[g].at.Runnable?)
  {
    hide Moved, StepAlone;
    if c.Moves? && c.f < |s.fibers| {
      HereAlone(s, c.f);
      if c.f != g {
        Elsewhere(s, c.f, g);
        hide StepFiber;
      } else if !Special(s.fibers[g].at) {
        MovedOn(s.fibers[g]);
        assert StepFiber(s, g) == StepAlone(s, g);
        hide StepFiber;
      }
    }
  }

  /** A waiting fiber is in the queue, behind an owner. */
  lemma NobodyForgotten(s: State, f: nat)
    requires Inv(s) && f < |s.fibers| && Waits(s.fibers[f].at)
    ensures s.closed && f in s.queue
    ensures s.grants != [] && s.grants[|s.grants| - 1] < |s.fibers| && Owns(s.fibers[s.grants[|s.grants| - 1]].at)
  {
    assert s.queue[s.fibers[f].ticket - |s.grants|] == f;
  }

  /** What the mutex promises in a state: nothing broken, one owner, order of arrival, nobody lost. */
  ghost predicate Serves(s: State) {
    && !Broken(s)
    && (forall f, g | 0 <= f < |s.fibers| && 0 <= g < |s.fibers| && Owns(s.fibers[f].at) && Owns(s.fibers[g].at) :: f == g)
    && s.grants <= s.arrivals && s.queue == s.arrivals[|s.grants|..]
    && (forall f | 0 <= f < |s.fibers| && Waits(s.fibers[f].at) :: f in s.queue)
    && (s.queue != [] ==> exists f | 0 <= f < |s.fibers| :: Owns(s.fibers[f].at))
  }

  /** A run ends as promised if and only if no worker was too late anywhere in it. */
  lemma ServesExactly(fibers: nat, schedule: seq<Choice>)
    ensures Serves(Run(Init(fibers), schedule)) <==> !exists n | 0 <= n < |schedule| :: HastyAt(fibers, schedule, n)
  {
    BreaksExactly(fibers, schedule);
    hide Run, Init, HastyAt, Broken;
    RunKeeps(fibers, schedule);
    var s := Run(Init(fibers), schedule);
    FirstComeFirstServed(s);
    forall f | 0 <= f < |s.fibers| && Waits(s.fibers[f].at) ensures f in s.queue {
      NobodyForgotten(s, f);
    }
    hide LineOk, MarksOk, GuardOk, Waits;
    assert s.queue != [] ==> Owns(s.fibers[s.grants[|s.grants| - 1]].at);
  }

  /** How far the guard's holder is from releasing it. */
  function GuardWork(a: At): nat {
    match a
    case LockTest => 3
    case Suspending => 2
    case AwaitSuspend => 1
    case LockLeave => 1
    case UnlockTest => 2
    case UnlockLeave => 1
    case _ => 0
  }

  /** How far the owner is from opening the mutex or handing it on. */
  function OwnerWork(a: At): nat {
    match a
    case Runnable => 5
    case Resumed => 4
    case LockLeave => 4
    case Inside => 3
    case UnlockEnter => 2
    case UnlockTest => 1
    case _ => 0
  }

  ghost predicate ReleasesSoon(s: State, f: nat)
    requires f < |s.fibers|
  {
    var s' := Step(s, Moves(f));
    |s'.fibers| == |s.fibers| && (s'.guard.None? || GuardWork(s'.fibers[f].at) < GuardWork(s.fibers[f].at))
  }

  /** The owner's next move brings it nearer, or it first has to wait for the worker that suspended it. */
  ghost predicate PassesOnSoon(s: State, f: nat)
    requires f < |s.fibers|
  {
    var s' := Step(s, Moves(f));
    Owns(s.fibers[f].at) && |s'.fibers| == |s.fibers| && OwnerWork(s'.fibers[f].at) < OwnerWork(s.fibers[f].at)
  }

  /** Whoever holds the guard can move and soon releases it; with the guard free the owner can move and soon passes the mutex on. */
  ghost predicate Moving(s: State) {
    && (s.guard.Some? ==> s.guard.value < |s.fibers| && ReleasesSoon(s, s.guard.value))
    && (s.guard.None? && s.closed ==>
          s.grants != [] && s.grants[|s.grants| - 1] < |s.fibers| && PassesOnSoon(s, s.grants[|s.grants| - 1]))
  }

  lemma HolderMoves(s: State)
    requires Inv(s) && s.ended.None? && s.guard.Some?
    ensures s.guard.value < |s.fibers| && ReleasesSoon(s, s.guard.value)
  {
    var f := s.guard.value;
    assert HasGuard(s.fibers[f].at);
    if s.fibers[f].at.UnlockTest? && s.queue != [] {
      FirstIsParked(s, f);
    }
    hide LineOk, OwnerOk, MarksOk;
  }

  lemma OwnerMoves(s: State)
    requires Inv(s) && s.ended.None? && s.guard.None? && s.closed
    ensures s.grants != [] && s.grants[|s.grants| - 1] < |s.fibers|
    ensures var o := s.grants[|s.grants| - 1]; !s.fibers[o].at.Spinning? && !Hasty(s, Moves(o)) ==> PassesOnSoon(s, o)
  {
    var o := s.grants[|s.grants| - 1];
    assert Owns(s.fibers[o].at) && !HasGuard(s.fibers[o].at);
    assert MarkOk(s.fibers[o]);
    hide LineOk, MarksOk, GuardOk;
  }

  /** Moving on is never blocked in a run that nothing broke, unless its owner is about to break it. */
  lemma NeverStuck(fibers: nat, schedule: seq<Choice>)
    requires var s := Run(Init(fibers), schedule);
      !Broken(s) && forall f | 0 <= f < |s.fibers| :: !Hasty(s, Moves(f))
    ensures Moving(Run(Init(fibers), schedule))
  {
    hide Run, Init, Inv, Hasty;
    RunKeeps(fibers, schedule);
    var s := Run(Init(fibers), schedule);
    if s.guard.Some? {
      HolderMoves(s);
    } else if s.closed {
      OwnerMoves(s);
    }
  }

  /** A fiber on its own way into the open mutex. */
  ghost predicate OnTheWay(s: State, f: nat, k: nat, grants: seq<nat>) {
    && s.ended.None? && f < |s.fibers| &&
    var a := s.fibers[f].at;
    match k
    case 0 => a.Outside? && s.guard.None? && !s.closed && s.grants == grants
    case 1 => a.LockEnter? && s.guard.None? && !s.closed && s.grants == grants
    case 2 => a.LockTest? && !s.closed && s.grants == grants
    case 3 => a.LockLeave? && s.closed && s.grants == grants + [f]
    case 4 => a.Inside? && s.guard.None? && s.closed && s.grants == grants + [f]
    case _ => false
  }

  lemma MovesIn(s: State, f: nat, k: nat, grants: seq<nat>)
    requires OnTheWay(s, f, k, grants) && k < 4
    ensures OnTheWay(Step(s, Moves(f)), f, k + 1, grants)
  {
  }

  /** If the mutex is open and nobody has the spinlock, a fiber that calls `Lock` alone is inside with its fourth move. */
  lemma {:induction false} LocksAlone(fibers: nat, schedule: seq<Choice>, f: nat, k: nat)
    requires var s := Run(Init(fibers), schedule); OnTheWay(s, f, 0, s.grants)
    requires k <= 4
    ensures OnTheWay(Run(Init(fibers), schedule + seq(k, i => Moves(f))), f, k, Run(Init(fibers), schedule).grants)
  {
    hide Init, OnTheWay, Step;
    var mine := seq(k, i => Moves(f));
    if k == 0 {
      assert schedule + mine == schedule;
    } else {
      LocksAlone(fibers, schedule, f, k - 1);
      assert (schedule + mine)[..|schedule + mine| - 1] == schedule + seq(k - 1, i => Moves(f));
      MovesIn(Run(Init(fibers), schedule + seq(k - 1, i => Moves(f))), f, k - 1, Run(Init(fibers), schedule).grants);
    }
  }

  lemma SpinnerStays(s: State, c: Choice, f: nat)
    requires Inv(s) && f < |s.fibers| && s.fibers[f].at.Spinning?
    ensures var s' := Step(s, c); |s'.fibers| == |s.fibers| && s'.fibers[f].at.Spinning? && s'.grants == s.grants && s'.closed
  {
    OthersStay(s, c, f);
    assert Owns(s.fibers[f].at);
    hide LineOk, MarksOk;
  }

  /** Once a guard nobody had queued behind is released again the mutex is closed for ever and nobody is given it any more. */
  lemma {:induction false} SecondReleaseSticks(fibers: nat, schedule: seq<Choice>, later: seq<Choice>, f: nat)
    requires var s := Run(Init(fibers), schedule); f < |s.fibers| && s.fibers[f].at.Spinning?
    ensures var s, s' := Run(Init(fibers), schedule), Run(Init(fibers), schedule + later);
      |s'.fibers| == |s.fibers| && s'.fibers[f].at.Spinning? && s'.closed && s'.grants == s.grants
    decreases |later|
  {
    RunKeeps(fibers, schedule);
    if later == [] {
      assert schedule + later == schedule;
      assert Owns(Run(Init(fibers), schedule).fibers[f].at);
    } else {
      hide Inv, Step;
      var n := |later| - 1;
      SecondReleaseSticks(fibers, schedule, later[..n], f);
      RunKeeps(fibers, schedule + later[..n]);
      assert (schedule + later)[..|schedule + later| - 1] == schedule + later[..n];
      SpinnerStays(Run(Init(fibers), schedule + later[..n]), later[n], f);
    }
  }
}
