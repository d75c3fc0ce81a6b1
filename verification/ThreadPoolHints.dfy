/**
 Where the thread pool puts tasks (thread_pool.cpp:67-78, 112-139, 236-238, 264-266), over whole runs with every
 other thread moving in between: the place a hint stands for, which task a worker runs next after a LIFO
 submission, and the order in which overflows and batches are moved.
 */
module ThreadPoolHints {
  import opened Basics
  import opened ThreadPool
  import opened ThreadPoolTheorems
  import opened ThreadPoolPlaces
  import opened ThreadPoolSearch

  // ---------------------------------------------------------------- the three hints

  predicate Putting(l: Local) {
    l.Put? || l.PutLocal? || l.PutFull? || l.PutSpill?
  }

  /** Thread `t` submits `x` with this hint; its slot held `was` at the time. */
  ghost predicate OnItsWay(s: State, t: nat, x: Task, hint: Hint, was: Option<Task>) {
    && t < |s.threads| && Sized(s) && (t < s.workers || hint.ToGlobalQueue?)
    && match s.threads[t]
       case Put(_, y, h) => y == x && h == hint && (t < s.workers ==> s.slots[t] == was)
       case PutLocal(_, y) => OnItsWayHome(s, t, x, hint, was, y)
       case PutFull(_, y) => OnItsWayHome(s, t, x, hint, was, y)
       case PutSpill(_, y, _) => OnItsWayHome(s, t, x, hint, was, y)
       case _ => false
  }

  /** `y` is for the worker's own ring: the task itself, or the one that made way for it in the LIFO slot. */
  ghost predicate OnItsWayHome(s: State, t: nat, x: Task, hint: Hint, was: Option<Task>, y: Task)
    requires Sized(s)
  {
    t < s.workers &&
    match hint
    case ToGlobalQueue => false
    case ToLocalQueue => y == x && s.slots[t] == was
    case ToLifoSlot => was == Some(y) && s.slots[t] == Some(x)
  }

  /**
   The step from `s` to `s'` ends the submission.  With the global hint the task is the last of the global queue; with
   the local one it is the last of the worker's ring; with the LIFO hint it is in the slot, and what the slot held
   before is the last of the worker's ring.
   */
  ghost predicate PutDown(s: State, s': State, t: nat, x: Task, hint: Hint, was: Option<Task>)
    requires Sized(s) && Sized(s') && s'.workers == s.workers && (t < s.workers || hint.ToGlobalQueue?)
  {
    match hint
    case ToGlobalQueue => s'.global == s.global + [x] && s'.rings == s.rings && s'.slots == s.slots
    case ToLocalQueue => s'.rings == s.rings[t := s.rings[t] + [x]] && s'.slots == s.slots && s.slots[t] == was && s'.global == s.global
    case ToLifoSlot =>
      && s'.slots == s.slots[t := Some(x)] && s'.global == s.global
      && s'.rings == if was.Some? then s.rings[t := s.rings[t] + [was.value]] else s.rings
  }

  /** How many steps a submission still takes, if an overflow finds something to move. */
  function PutWork(s: State, t: nat): nat
    requires t < |s.threads| && Sized(s)
  {
    match s.threads[t]
    case Put(_, _, _) => 5
    case PutLocal(_, _) => if t < s.workers && |s.rings[t]| < 1024 then 1 else 4
    case PutFull(_, _) => 3
    case PutSpill(_, _, _) => if t < s.workers && |s.rings[t]| < 1024 then 2 else 5
    case _ => 0
  }

  /** A step of the submitter. */
  lemma PutStep(s: State, c: Choice, x: Task, hint: Hint, was: Option<Task>)
    requires RolesOk(s) && OnItsWay(s, c.t, x, hint, was)
    ensures var s' := Step(s, c);
      && Sized(s') && s'.workers == s.workers && |s'.threads| == |s.threads|
      && (if s'.threads[c.t].Counting? then PutDown(s, s', c.t, x, hint, was) else OnItsWay(s', c.t, x, hint, was))
  {
    hide Grabbed, RolesOk;
  }

  lemma PutWorks(s: State, c: Choice, x: Task, hint: Hint, was: Option<Task>)
    requires RolesOk(s) && OnItsWay(s, c.t, x, hint, was) && c.amount > 0
    requires c.t < s.workers ==> |s.rings[c.t]| <= 1024
    ensures Sized(Step(s, c)) && c.t < |Step(s, c).threads| && PutWork(Step(s, c), c.t) < PutWork(s, c.t)
  {
    hide RolesOk;
  }

  lemma OthersPut(s: State, c: Choice, t: nat, x: Task, hint: Hint, was: Option<Task>)
    requires RolesOk(s) && OnItsWay(s, t, x, hint, was) && c.t != t
    ensures var s' := Step(s, c);
      && Sized(s') && OnItsWay(s', t, x, hint, was) && PutWork(s', t) <= PutWork(s, t)
  {
    if t < s.workers {
      OthersStep(s, t, c);
      hide Step;
    } else {
      OthersStay(s, c, t);
      hide Step;
    }
  }

  lemma TakeStays(s: State, t: nat, u: nat)
    requires Sized(s) && u < s.workers && u != t && t < |s.threads| && s.threads[u].Take?
    ensures var s' := StepTake(s, u);
      Sized(s') && s'.workers == s.workers && |s'.threads| == |s.threads| && s'.threads[t] == s.threads[t]
  {
    hide Share;
  }

  lemma GrabStays(s: State, t: nat, u: nat, c: Choice)
    requires Sized(s) && u < s.workers && u != t && t < |s.threads|
    ensures s.threads[u].StealGrab? ==>
      var s' := StepStealGrab(s, u, c.from, c.amount);
      Sized(s') && s'.workers == s.workers && |s'.threads| == |s.threads| && s'.threads[t] == s.threads[t]
    ensures s.threads[u].PutFull? || s.threads[u].RefillFull? ==>
      var s' := StepOverflow(s, u, c.amount);
      Sized(s') && s'.workers == s.workers && |s'.threads| == |s.threads| && s'.threads[t] == s.threads[t]
  {
    hide Grabbed, LOCAL_QUEUE_SIZE;
  }

  lemma OthersStay(s: State, c: Choice, t: nat)
    requires RolesOk(s) && c.t != t && t < |s.threads|
    ensures var s' := Step(s, c);
      Sized(s') && s'.workers == s.workers && |s'.threads| == |s.threads| && s'.threads[t] == s.threads[t]
  {
    hide Share, Grabbed, Listed, LOCAL_QUEUE_SIZE, StepTake, StepStealGrab, StepOverflow;
    if c.t < s.workers {
      GrabStays(s, t, c.t, c);
      if s.threads[c.t].Take? {
        TakeStays(s, t, c.t);
      }
    }
  }

  /** With `c` thread `t` submits `x` with this hint, and `after` it is still at it. */
  ghost predicate Submits(workers: nat, clients: nat, before: seq<Choice>, c: Choice, after: seq<Choice>, t: nat, x: Task, hint: Hint) {
    && t < workers + clients && (t < workers || hint.ToGlobalQueue?)
    && Run(workers, clients, before).threads[t].Running? && c.t == t && c.submit == Some((x, hint))
    && forall i | 0 < i <= |after| :: Putting(Run(workers, clients, before + [c] + after[..i]).threads[t])
  }

  /** What the submitter's LIFO slot held when it began. */
  function SlotBefore(workers: nat, clients: nat, before: seq<Choice>, t: nat): Option<Task> {
    if t < workers then Run(workers, clients, before).slots[t] else None
  }

  lemma SubmitsLess(workers: nat, clients: nat, before: seq<Choice>, c: Choice, front: seq<Choice>, d: Choice, t: nat, x: Task, hint: Hint)
    requires Submits(workers, clients, before, c, front + [d], t, x, hint)
    ensures Submits(workers, clients, before, c, front, t, x, hint)
    ensures Putting(Run(workers, clients, before + [c] + front + [d]).threads[t])
  {
    hide Run, Putting;
    var after := front + [d];
    forall i | 0 < i <= |front| ensures Putting(Run(workers, clients, before + [c] + front[..i]).threads[t]) {
      assert front[..i] == after[..i];
    }
    assert after[..|after|] == after && before + [c] + after == before + [c] + front + [d];
  }

  /** The submission is counted before the task is put anywhere (64). */
  lemma SubmitBegins(workers: nat, clients: nat, before: seq<Choice>, c: Choice, t: nat, x: Task, hint: Hint)
    requires Submits(workers, clients, before, c, [], t, x, hint)
    ensures OnItsWay(Run(workers, clients, before + [c]), t, x, hint, SlotBefore(workers, clients, before, t))
    ensures PutWork(Run(workers, clients, before + [c]), t) == 5
    ensures var s, s' := Run(workers, clients, before), Run(workers, clients, before + [c]);
      s'.submitted == s.submitted + [x] && s'.unfinished == s.unfinished + 1
  {
    hide Run, Conserved, Waiting, Debts, Unannounced, Submits;
    SubmitsAt(workers, clients, before, c, [], t, x, hint);
    RunMore(workers, clients, before, c);
  }

  lemma SubmitsAt(workers: nat, clients: nat, before: seq<Choice>, c: Choice, after: seq<Choice>, t: nat, x: Task, hint: Hint)
    requires Submits(workers, clients, before, c, after, t, x, hint)
    ensures t < workers + clients && (t < workers || hint.ToGlobalQueue?)
    ensures Run(workers, clients, before).threads[t].Running? && c.t == t && c.submit == Some((x, hint))
  {
    hide Run;
  }

  /** All along, the task or the one it pushed out is on its way. */
  lemma {:induction false} SubmitKeeps(workers: nat, clients: nat, before: seq<Choice>, c: Choice, after: seq<Choice>, t: nat, x: Task, hint: Hint)
    requires Submits(workers, clients, before, c, after, t, x, hint)
    ensures OnItsWay(Run(workers, clients, before + [c] + after), t, x, hint, SlotBefore(workers, clients, before, t))
    decreases |after|
  {
    hide Run, Step, Conserved, Waiting, Debts, Unannounced, Submits, SlotBefore, OnItsWay;
    if after == [] {
      assert before + [c] + after == before + [c];
      SubmitBegins(workers, clients, before, c, t, x, hint);
    } else {
      var front, d := after[..|after| - 1], after[|after| - 1];
      assert after == front + [d];
      SubmitsLess(workers, clients, before, c, front, d, t, x, hint);
      SubmitKeeps(workers, clients, before, c, front, t, x, hint);
      var s, was := Run(workers, clients, before + [c] + front), SlotBefore(workers, clients, before, t);
      RunMore(workers, clients, before + [c] + front, d);
      assert before + [c] + after == before + [c] + front + [d];
      if d.t == t {
        PutStep(s, d, x, hint, was);
      } else {
        OthersPut(s, d, t, x, hint, was);
      }
    }
  }

  /** Every submission ends where its hint says. */
  lemma PutsWhereHinted(workers: nat, clients: nat, before: seq<Choice>, c: Choice, after: seq<Choice>, d: Choice, t: nat, x: Task, hint: Hint)
    requires Submits(workers, clients, before, c, after, t, x, hint) && d.t == t
    requires !Putting(Run(workers, clients, before + [c] + after + [d]).threads[t])
    ensures var s, s' := Run(workers, clients, before + [c] + after), Run(workers, clients, before + [c] + after + [d]);
      && s'.threads[t].Counting?
      && PutDown(s, s', t, x, hint, SlotBefore(workers, clients, before, t))
  {
    hide Run, Step, Conserved, Waiting, Debts, Unannounced, Submits, SlotBefore, PutDown;
    SubmitsAt(workers, clients, before, c, after, t, x, hint);
    SubmitKeeps(workers, clients, before, c, after, t, x, hint);
    RunMore(workers, clients, before + [c] + after, d);
    PutStep(Run(workers, clients, before + [c] + after), d, x, hint, SlotBefore(workers, clients, before, t));
  }

  /** Whenever `w` moves half of its ring away, it finds something there. */
  ghost predicate FindsSome(after: seq<Choice>, w: nat) {
    forall i | 0 <= i < |after| && after[i].t == w :: after[i].amount > 0
  }

  /** A submission takes at most four steps before the one that ends it, whatever the other threads do. */
  lemma {:induction false} SubmitEnds(workers: nat, clients: nat, before: seq<Choice>, c: Choice, after: seq<Choice>, t: nat, x: Task, hint: Hint)
    requires Submits(workers, clients, before, c, after, t, x, hint) && FindsSome(after, t)
    ensures OwnSteps(after, t) + PutWork(Run(workers, clients, before + [c] + after), t) <= 5
    ensures OwnSteps(after, t) <= 4
    decreases |after|
  {
    hide Run, Step, Conserved, Waiting, Debts, Unannounced, Submits, SlotBefore;
    SubmitKeeps(workers, clients, before, c, after, t, x, hint);
    if after == [] {
      assert before + [c] + after == before + [c];
      SubmitBegins(workers, clients, before, c, t, x, hint);
    } else {
      var front, d := after[..|after| - 1], after[|after| - 1];
      assert after == front + [d] && (d.t == t ==> d.amount > 0);
      SubmitsLess(workers, clients, before, c, front, d, t, x, hint);
      SubmitEnds(workers, clients, before, c, front, t, x, hint);
      SubmitKeeps(workers, clients, before, c, front, t, x, hint);
      var s, was := Run(workers, clients, before + [c] + front), SlotBefore(workers, clients, before, t);
      RunMore(workers, clients, before + [c] + front, d);
      assert before + [c] + after == before + [c] + front + [d];
      if d.t == t {
        PutWorks(s, d, x, hint, was);
      } else {
        OthersPut(s, d, t, x, hint, was);
      }
    }
  }

  // ---------------------------------------------------------------- what a worker runs next

  /** Worker `w` is about to take `b` out of its LIFO slot, once it is through with what it does. */
  ghost predicate BoundFor(s: State, w: nat, b: Task) {
    && Sized(s) && w < s.workers && s.bypasses[w] < 20
    && match s.threads[w]
       case Put(_, x, hint) => x == b && hint.ToLifoSlot?
       case Take(steps, _) => s.slots[w] == Some(b) && steps != [] && steps[0].LifoSlot?
       case PutLocal(_, _) => s.slots[w] == Some(b)
       case PutFull(_, _) => s.slots[w] == Some(b)
       case PutSpill(_, _, _) => s.slots[w] == Some(b)
       case Counting(_) => s.slots[w] == Some(b)
       case Running(_) => s.slots[w] == Some(b)
       case Returned(_) => s.slots[w] == Some(b)
       case Loop => s.slots[w] == Some(b)
       case _ => false
  }

  /** How many steps that is at most, if an overflow finds something to move. */
  function TurnWork(s: State, w: nat): nat
    requires Sized(s) && w < s.workers
  {
    match s.threads[w]
    case Put(_, _, _) => 10
    case PutLocal(_, _) => if |s.rings[w]| < 1024 then 6 else 9
    case PutFull(_, _) => 8
    case PutSpill(_, _, _) => if |s.rings[w]| < 1024 then 7 else 10
    case Counting(_) => 5
    case Running(_) => 4
    case Returned(_) => 3
    case Loop => 2
    case Take(_, _) => 1
    case _ => 0
  }

  /** A step of the worker, which submits nothing and is not sent to the global queue by its draw. */
  lemma BoundStep(s: State, c: Choice, b: Task)
    requires RolesOk(s) && BoundFor(s, c.t, b) && c.submit.None? && c.draw % 61 != 0 && |s.rings[c.t]| <= 1024
    ensures var w, s' := c.t, Step(s, c);
      && Sized(s') && s'.workers == s.workers
      && (if s.threads[w].Take? then s'.threads[w] == Taken(b) && s'.taken[w] == s.taken[w] + 1
          else BoundFor(s', w, b) && s'.taken[w] == s.taken[w] && (c.amount > 0 ==> TurnWork(s', w) < TurnWork(s, w)))
  {
    assert WorkerOk(s.threads[c.t]);
    hide RolesOk, Share;
  }

  lemma TakeCounts(s: State, w: nat)
    requires Sized(s) && w < s.workers && s.threads[w].Take?
    ensures var s' := StepTake(s, w);
      && Sized(s') && s'.workers == s.workers
      && (if s'.threads[w].Taken? then s'.taken[w] == s.taken[w] + 1 else s'.taken == s.taken && s'.bypasses == s.bypasses)
      && (s'.threads[w].Taken? ==>
           s'.bypasses[w] == if s.slots[w].Some? && s'.slots[w].None? then s.bypasses[w] + 1 else 0)
  {
    hide Share;
  }

  /** Every time a worker gets to `Taken` it has taken one more task, out of its slot or not. */
  lemma TakenCounts(s: State, c: Choice)
    requires RolesOk(s) && c.t < s.workers
    ensures var w, s' := c.t, Step(s, c);
      && Sized(s') && s'.workers == s.workers
      && (if s'.threads[w].Taken? then s'.taken[w] == s.taken[w] + 1 else s'.taken[w] == s.taken[w] && s'.bypasses[w] == s.bypasses[w])
      && (s'.threads[w].Taken? ==>
           s'.bypasses[w] == if s.slots[w].Some? && s'.slots[w].None? then s.bypasses[w] + 1 else 0)
  {
    if s.threads[c.t].Take? {
      TakeCounts(s, c.t);
      hide StepTake;
    } else {
      hide StepTake, Grabbed, Listed, LOCAL_QUEUE_SIZE;
    }
  }

  /** Since worker `w` had taken `n` tasks, the next it takes, or has taken, is `b`. */
  ghost predicate NextIs(s: State, w: nat, b: Task, n: nat) {
    && Sized(s) && w < s.workers
    && (|| (s.taken[w] == n && BoundFor(s, w, b))
        || (s.taken[w] == n + 1 && (s.threads[w].Taken? ==> s.threads[w].task == b))
        || s.taken[w] > n + 1)
  }

  lemma NextStep(s: State, c: Choice, w: nat, b: Task, n: nat)
    requires RolesOk(s) && NextIs(s, w, b, n) && |s.rings[w]| <= 1024
    requires c.t == w ==> c.submit.None? && c.draw % 61 != 0
    ensures NextIs(Step(s, c), w, b, n)
    ensures Step(s, c).taken[w] >= s.taken[w]
    ensures Step(s, c).taken[w] == n && (c.t == w ==> c.amount > 0) ==>
      TurnWork(Step(s, c), w) <= TurnWork(s, w) - if c.t == w then 1 else 0
  {
    if c.t != w {
      OthersStep(s, w, c);
      hide Step;
    } else {
      TakenCounts(s, c);
      if s.taken[w] == n {
        BoundStep(s, c, b);
      }
      hide Step, TurnWork;
    }
  }

  /** Worker `w` submits nothing more, and its draws do not send it to the global queue first. */
  ghost predicate SubmitsNothing(after: seq<Choice>, w: nat) {
    forall i | 0 <= i < |after| && after[i].t == w :: after[i].submit.None? && after[i].draw % 61 != 0
  }

  lemma SubmitsNoMore(front: seq<Choice>, c: Choice, w: nat)
    requires SubmitsNothing(front + [c], w)
    ensures SubmitsNothing(front, w) && (c.t == w ==> c.submit.None? && c.draw % 61 != 0)
    ensures FindsSome(front + [c], w) ==> FindsSome(front, w) && (c.t == w ==> c.amount > 0)
  {
    var after := front + [c];
    assert after[|front|] == c && forall i | 0 <= i < |front| :: after[i] == front[i];
  }

  lemma {:induction false} NextKept(workers: nat, clients: nat, before: seq<Choice>, after: seq<Choice>, w: nat, b: Task, n: nat, work: nat)
    requires NextIs(Run(workers, clients, before), w, b, n) && SubmitsNothing(after, w)
    requires var s := Run(workers, clients, before); s.taken[w] == n && TurnWork(s, w) == work
    ensures var s := Run(workers, clients, before + after);
      NextIs(s, w, b, n) && (FindsSome(after, w) && s.taken[w] == n ==> TurnWork(s, w) + OwnSteps(after, w) <= work)
    decreases |after|
  {
    hide Run, Step, Conserved, Waiting, Debts, Unannounced, NextIs, TurnWork, SubmitsNothing, FindsSome;
    assert w < workers by {
      WorkerOf(Run(workers, clients, before), w, b, n);
    }
    if after == [] {
      assert before + after == before;
    } else {
      var front, c := after[..|after| - 1], after[|after| - 1];
      assert after == front + [c];
      SubmitsNoMore(front, c, w);
      NextKept(workers, clients, before, front, w, b, n, work);
      var s := Run(workers, clients, before + front);
      RunMore(workers, clients, before + front, c);
      assert before + after == before + front + [c];
      WorkerOf(s, w, b, n);
      NextStep(s, c, w, b, n);
    }
  }

  lemma WorkerOf(s: State, w: nat, b: Task, n: nat)
    requires NextIs(s, w, b, n)
    ensures Sized(s) && w < s.workers && s.taken[w] >= n
  {
    hide BoundFor;
  }

  /**
   A task that submits `b` with the LIFO hint and nothing after it, on a worker with fewer than twenty LIFO takes in a
   row behind it and no draw that sends it to the global queue: the next task the worker takes is `b`, and it takes
   it within ten of its steps.
   */
  lemma LifoNext(workers: nat, clients: nat, before: seq<Choice>, c: Choice, after: seq<Choice>, w: nat, b: Task)
    requires w < workers && SubmitsNothing(after, w)
    requires var s := Run(workers, clients, before);
      s.threads[w].Running? && s.bypasses[w] < 20 && c.t == w && c.submit == Some((b, ToLifoSlot))
    ensures var n, s := Run(workers, clients, before).taken[w], Run(workers, clients, before + [c] + after);
      && n <= s.taken[w]
      && (s.taken[w] == n + 1 && s.threads[w].Taken? ==> s.threads[w].task == b)
      && (FindsSome(after, w) && OwnSteps(after, w) >= 10 ==> s.taken[w] > n)
  {
    hide Run, Conserved, Waiting, Debts, Unannounced, SubmitsNothing, FindsSome;
    RunMore(workers, clients, before, c);
    NextKept(workers, clients, before + [c], after, w, b, Run(workers, clients, before).taken[w], 10);
    hide Step;
  }

  /** How many of the last tasks worker `w` took came out of its LIFO slot, in a row. */
  function LifoInARow(workers: nat, clients: nat, schedule: seq<Choice>, w: nat): nat
    requires w < workers
    decreases |schedule|
  {
    if schedule == [] then 0
    else
      var front := schedule[..|schedule| - 1];
      var s, s' := Run(workers, clients, front), Run(workers, clients, schedule);
      if s'.taken[w] == s.taken[w] then LifoInARow(workers, clients, front, w)
      else if s.slots[w].Some? && s'.slots[w].None? then LifoInARow(workers, clients, front, w) + 1
      else 0
  }

  /** That is what `lifo_slots_routines_count_` counts (196-204), which the choice of a strategy tests. */
  lemma {:induction false} BypassesInARow(workers: nat, clients: nat, schedule: seq<Choice>, w: nat)
    requires w < workers
    ensures Run(workers, clients, schedule).bypasses[w] == LifoInARow(workers, clients, schedule, w)
    decreases |schedule|
  {
    if schedule != [] {
      hide Run, Step, Conserved, Waiting, Debts, Unannounced;
      var front, c := schedule[..|schedule| - 1], schedule[|schedule| - 1];
      BypassesInARow(workers, clients, front, w);
      RunLast(workers, clients, schedule);
      if c.t == w {
        TakenCounts(Run(workers, clients, front), c);
      } else {
        OthersStep(Run(workers, clients, front), w, c);
      }
    } else {
      hide Conserved, Waiting, Debts, Unannounced;
    }
  }

  // ---------------------------------------------------------------- moving half a ring

  /** While the others move, worker `w` stays where it is. */
  lemma {:induction false} StaysPut(workers: nat, clients: nat, before: seq<Choice>, between: seq<Choice>, w: nat)
    requires w < workers && forall i | 0 <= i < |between| :: between[i].t != w
    ensures Run(workers, clients, before + between).threads[w] == Run(workers, clients, before).threads[w]
    decreases |between|
  {
    hide Run, Step, Conserved, Waiting, Debts, Unannounced;
    if between == [] {
      assert before + between == before;
    } else {
      var front, c := between[..|between| - 1], between[|between| - 1];
      StaysPut(workers, clients, before, front, w);
      assert before + between == before + front + [c];
      RunMore(workers, clients, before + front, c);
      OthersStep(Run(workers, clients, before + front), w, c);
    }
  }

  /** The two steps of an overflow (131-138), whatever happens in between. */
  ghost predicate Overflows(s0: State, s1: State, s2: State, s3: State, w: nat)
    requires Sized(s0) && Sized(s1) && Sized(s3) && w < s0.workers == s1.workers == s3.workers
  {
    var l, ring, n := s0.threads[w], s0.rings[w], |s0.rings[w]| - |s1.rings[w]|;
    && 0 <= n <= 512 && s1.rings == s0.rings[w := ring[n..]] && s3.global == s2.global + ring[..n]
    && s3.threads[w] == if l.PutFull? then PutLocal(l.owner, l.item) else if l.RefillFull? then Refill(l.result, l.rest) else l
  }

  lemma OverflowSteps(s0: State, c: Choice, s2: State, d: Choice)
    requires RolesOk(s0) && c.t < s0.workers && (s0.threads[c.t].PutFull? || s0.threads[c.t].RefillFull?)
    requires RolesOk(s2) && s2.workers == s0.workers && d.t == c.t
    requires Sized(Step(s0, c)) ==> s2.threads[c.t] == Step(s0, c).threads[c.t]
    ensures Sized(Step(s0, c)) && Sized(Step(s2, d)) && Step(s0, c).workers == Step(s2, d).workers == s0.workers
    ensures Overflows(s0, Step(s0, c), s2, Step(s2, d), c.t)
  {
  }

  /** The oldest tasks of a full ring, at most half of what fits, go to the end of the global queue in their order. */
  lemma OverflowMoves(workers: nat, clients: nat, before: seq<Choice>, c: Choice, between: seq<Choice>, d: Choice, w: nat)
    requires w < workers && c.t == w == d.t && forall i | 0 <= i < |between| :: between[i].t != w
    requires var l := Run(workers, clients, before).threads[w]; l.PutFull? || l.RefillFull?
    ensures Overflows(Run(workers, clients, before), Run(workers, clients, before + [c]), Run(workers, clients, before + [c] + between),
                      Run(workers, clients, before + [c] + between + [d]), w)
  {
    hide Run, Step, Conserved, Waiting, Debts, Unannounced;
    RunMore(workers, clients, before, c);
    StaysPut(workers, clients, before + [c], between, w);
    RunMore(workers, clients, before + [c] + between, d);
    OverflowSteps(Run(workers, clients, before), c, Run(workers, clients, before + [c] + between), d);
  }

  // ---------------------------------------------------------------- moving a batch

  predicate Refilling(l: Local) {
    l.Refill? || l.RefillFull? || l.RefillSpill?
  }

  /** From `s` to `s'` the first tasks of the batch went to the end of the worker's ring in their order; some may have left it again. */
  ghost predicate BatchMoves(s: State, s': State, w: nat)
    requires Sized(s) && Sized(s') && w < s.workers == s'.workers && Refilling(s.threads[w]) && Refilling(s'.threads[w])
  {
    var l, l' := s.threads[w], s'.threads[w];
    && l'.result == l.result && |l'.rest| <= |l.rest|
    && var n := |l.rest| - |l'.rest|;
       l'.rest == l.rest[n..] && EndsOf(s'.rings[w], s.rings[w] + l.rest[..n])
  }

  /** One queue is what is left at the end of another. */
  predicate EndsOf(q': seq<Task>, q: seq<Task>) {
    |q'| <= |q| && q' == q[|q| - |q'|..]
  }

  /** How many steps the batch still takes, if an overflow finds something to move. */
  function BatchWork(s: State, w: nat): nat
    requires Sized(s) && w < s.workers
  {
    match s.threads[w]
    case Refill(_, rest) => 4 * |rest| + 1 - if rest != [] && |s.rings[w]| < 1024 then 3 else 0
    case RefillFull(_, rest) => if rest == [] then 3 else 4 * |rest|
    case RefillSpill(_, rest, _) => (if |s.rings[w]| < 1024 then 0 else 3) + if rest == [] then 2 else 4 * |rest| - 1
    case _ => 0
  }

  lemma EndsMore(a: seq<Task>, b: seq<Task>, rest: seq<Task>, n: nat)
    requires n < |rest| && EndsOf(b, a + rest[..n])
    ensures EndsOf(b + [rest[n]], a + rest[..n + 1])
  {
    assert rest[..n + 1] == rest[..n] + [rest[n]];
    var q := a + rest[..n];
    assert a + rest[..n + 1] == q + [rest[n]];
    assert (q + [rest[n]])[|q| - |b|..] == q[|q| - |b|..] + [rest[n]];
  }

  lemma EndsLess(a: seq<Task>, b: seq<Task>, c: seq<Task>)
    requires EndsOf(b, a) && EndsOf(c, b)
    ensures EndsOf(c, a)
  {
  }

  /** A step of the worker. */
  lemma BatchStep(s: State, c: Choice)
    requires RolesOk(s) && c.t < s.workers && Refilling(s.threads[c.t])
    ensures var w, s', l, l' := c.t, Step(s, c), s.threads[c.t], Step(s, c).threads[c.t];
      && Sized(s') && s'.workers == s.workers
      && (if !Refilling(l') then l.Refill? && l.rest == [] && l' == Taken(l.result) && s'.rings == s.rings
          else
            && l'.result == l.result
            && (if l.Refill? && l'.Refill? then l.rest != [] && l'.rest == l.rest[1..] && s'.rings[w] == s.rings[w] + [l.rest[0]]
                else l'.rest == l.rest && EndsOf(s'.rings[w], s.rings[w])))
  {
    hide Grabbed;
  }

  lemma BatchWorks(s: State, c: Choice)
    requires RolesOk(s) && c.t < s.workers && Refilling(s.threads[c.t]) && c.amount > 0 && |s.rings[c.t]| <= 1024
    ensures Sized(Step(s, c)) && Step(s, c).workers == s.workers && BatchWork(Step(s, c), c.t) < BatchWork(s, c.t)
  {
  }

  /** The batch after a step of its worker. */
  lemma BatchOn(s0: State, s: State, s': State, w: nat)
    requires Sized(s0) && Sized(s) && Sized(s') && w < s0.workers == s.workers == s'.workers
    requires Refilling(s0.threads[w]) && Refilling(s.threads[w]) && Refilling(s'.threads[w]) && BatchMoves(s0, s, w)
    requires var l, l' := s.threads[w], s'.threads[w];
      && l'.result == l.result
      && (if l.Refill? && l'.Refill? then l.rest != [] && l'.rest == l.rest[1..] && s'.rings[w] == s.rings[w] + [l.rest[0]]
          else l'.rest == l.rest && EndsOf(s'.rings[w], s.rings[w]))
    ensures BatchMoves(s0, s', w)
  {
    var l0, l, l' := s0.threads[w], s.threads[w], s'.threads[w];
    var n := |l0.rest| - |l.rest|;
    if l.Refill? && l'.Refill? {
      EndsMore(s0.rings[w], s.rings[w], l0.rest, n);
      assert l0.rest[n + 1..] == l0.rest[n..][1..];
    } else {
      EndsLess(s0.rings[w] + l0.rest[..n], s.rings[w], s'.rings[w]);
    }
    hide EndsOf;
  }

  lemma OwnBatchStep(s0: State, s: State, c: Choice)
    requires Sized(s0) && RolesOk(s) && c.t < s0.workers == s.workers && Refilling(s0.threads[c.t]) && Refilling(s.threads[c.t])
    requires BatchMoves(s0, s, c.t)
    ensures var s', w := Step(s, c), c.t;
      && Sized(s') && s'.workers == s.workers && w < |s'.threads|
      && (if Refilling(s'.threads[w]) then BatchMoves(s0, s', w)
          else s'.threads[w] == Taken(s0.threads[w].result) && EndsOf(s'.rings[w], s0.rings[w] + s0.threads[w].rest))
  {
    hide Step;
    BatchStep(s, c);
    if Refilling(Step(s, c).threads[c.t]) {
      BatchOn(s0, s, Step(s, c), c.t);
      hide BatchMoves;
    } else {
      var rest := s0.threads[c.t].rest;
      assert rest[..|rest|] == rest;
      hide EndsOf;
    }
  }

  lemma OtherBatchStep(s0: State, s: State, c: Choice, w: nat)
    requires Sized(s0) && RolesOk(s) && w < s0.workers == s.workers && Refilling(s0.threads[w]) && Refilling(s.threads[w])
    requires BatchMoves(s0, s, w) && c.t != w
    ensures var s' := Step(s, c);
      && Sized(s') && s'.workers == s.workers && w < |s'.threads| && Refilling(s'.threads[w])
      && BatchMoves(s0, s', w) && BatchWork(s', w) <= BatchWork(s, w)
  {
    hide Step;
    OthersStep(s, w, c);
    BatchOther(s0, s, Step(s, c), w);
    hide BatchMoves;
  }

  lemma BatchOther(s0: State, s: State, s': State, w: nat)
    requires Sized(s0) && Sized(s) && w < s0.workers == s.workers && LeavesAlone(s, s', w)
    requires Refilling(s0.threads[w]) && Refilling(s.threads[w]) && BatchMoves(s0, s, w)
    ensures BatchMoves(s0, s', w)
  {
    var n := |s0.threads[w].rest| - |s.threads[w].rest|;
    EndsLess(s0.rings[w] + s0.threads[w].rest[..n], s.rings[w], s'.rings[w]);
  }

  /** Worker `w` begins to move a batch, and `after` it is still at it. */
  ghost predicate InBatch(workers: nat, clients: nat, before: seq<Choice>, after: seq<Choice>, w: nat) {
    && w < workers && Run(workers, clients, before).threads[w].Refill?
    && forall i | 0 <= i <= |after| :: Refilling(Run(workers, clients, before + after[..i]).threads[w])
  }

  lemma BatchLess(workers: nat, clients: nat, before: seq<Choice>, front: seq<Choice>, c: Choice, w: nat)
    requires InBatch(workers, clients, before, front + [c], w)
    ensures InBatch(workers, clients, before, front, w) && Refilling(Run(workers, clients, before + front + [c]).threads[w])
  {
    hide Run, Refilling;
    var after := front + [c];
    forall i | 0 <= i <= |front| ensures Refilling(Run(workers, clients, before + front[..i]).threads[w]) {
      assert front[..i] == after[..i];
    }
    assert after[..|after|] == after && before + after == before + front + [c];
  }

  ghost predicate BatchSoFar(workers: nat, clients: nat, before: seq<Choice>, after: seq<Choice>, w: nat) {
    var s0, s := Run(workers, clients, before), Run(workers, clients, before + after);
    && w < workers && Refilling(s0.threads[w]) && Refilling(s.threads[w]) && BatchMoves(s0, s, w)
    && (FindsSome(after, w) ==> BatchWork(s, w) + OwnSteps(after, w) <= BatchWork(s0, w))
  }

  lemma {:induction false} BatchKeeps(workers: nat, clients: nat, before: seq<Choice>, after: seq<Choice>, w: nat)
    requires InBatch(workers, clients, before, after, w)
    ensures BatchSoFar(workers, clients, before, after, w)
    decreases |after|
  {
    hide Run, Step, Conserved, Waiting, Debts, Unannounced, FindsSome, BatchWork;
    if after == [] {
      assert before + after == before;
      hide InBatch;
      BatchOpens(workers, clients, before, w);
    } else {
      var front, c := after[..|after| - 1], after[|after| - 1];
      assert after == front + [c];
      BatchLess(workers, clients, before, front, c, w);
      BatchKeeps(workers, clients, before, front, w);
      FindsMore(front, c, w);
      hide InBatch, BatchMoves;
      RunMore(workers, clients, before + front, c);
      assert before + after == before + front + [c];
      var s0, s := Run(workers, clients, before), Run(workers, clients, before + front);
      if c.t == w {
        OwnBatchStep(s0, s, c);
        if c.amount > 0 {
          BatchWorks(s, c);
        }
      } else {
        OtherBatchStep(s0, s, c, w);
      }
    }
  }

  lemma FindsMore(front: seq<Choice>, c: Choice, w: nat)
    ensures FindsSome(front + [c], w) ==> FindsSome(front, w) && (c.t == w ==> c.amount > 0)
  {
    var after := front + [c];
    assert after[|front|] == c && forall i | 0 <= i < |front| :: after[i] == front[i];
  }

  lemma BatchOpens(workers: nat, clients: nat, before: seq<Choice>, w: nat)
    requires InBatch(workers, clients, before, [], w)
    ensures BatchSoFar(workers, clients, before, [], w)
  {
    hide Run, Conserved, Waiting, Debts, Unannounced;
    assert before + [] == before;
  }

  /**
   A batch arrives: when the worker goes on, it is with the task it took first, and the others are at the end of its
   ring in their order, except for those that others have taken there.  That takes at most four steps for each of
   them, whatever the other threads do.
   */
  lemma BatchArrives(workers: nat, clients: nat, before: seq<Choice>, after: seq<Choice>, w: nat, c: Choice)
    requires InBatch(workers, clients, before, after, w) && c.t == w && !Refilling(Run(workers, clients, before + after + [c]).threads[w])
    ensures var s, s' := Run(workers, clients, before), Run(workers, clients, before + after + [c]);
      && s'.threads[w] == Taken(s.threads[w].result) && EndsOf(s'.rings[w], s.rings[w] + s.threads[w].rest)
      && (FindsSome(after, w) ==> OwnSteps(after, w) <= 4 * |s.threads[w].rest|)
  {
    hide Run, Step, Conserved, Waiting, Debts, Unannounced, FindsSome;
    BatchKeeps(workers, clients, before, after, w);
    RunMore(workers, clients, before + after, c);
    OwnBatchStep(Run(workers, clients, before), Run(workers, clients, before + after), c);
  }
}
