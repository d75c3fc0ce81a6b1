/**
 How long the LIFO slot can hold back the worker's own ring (thread_pool.hpp:73-83, thread_pool.cpp:141-208):
 counting only takes whose draw is not a multiple of 61, at most twenty in a row bypass the ring.
 */
module ThreadPoolFairness {
  import opened Basics
  import opened ThreadPool
  import opened ThreadPoolTheorems

  /**
   The `j`-th item that ever entered worker `w`'s ring is still in it, and `w` is not in the middle of a
   search that its random draw sent to the global queue first.
   */
  ghost predicate OnTrack(s: State, w: nat, j: nat) {
    && Sized(s) && w < s.workers
    && s.out[w] <= j < s.out[w] + |s.rings[w]|
    && match s.threads[w]
       case Take(steps, _) =>
         || (steps == DEFAULT_STRATEGY && s.bypasses[w] < MAX_LIFO_ROUTINES)
         || steps == DEFAULT_STRATEGY[1..]
         || steps == WITHOUT_LIFO_STRATEGY
       case StealGrab(_, _) => false
       case Refill(_, _) => false
       case RefillFull(_, _) => false
       case RefillSpill(_, _, _) => false
       case _ => true
  }

  /** How many more tasks `w` may take before that item leaves the ring. */
  ghost function Delay(s: State, w: nat, j: nat): nat
    requires OnTrack(s, w, j)
  {
    (MAX_LIFO_ROUTINES + 1) * (j - s.out[w]) + MAX_LIFO_ROUTINES - Min(MAX_LIFO_ROUTINES, s.bypasses[w])
  }

  /** Worker `w` as seen from outside: only items leaving its ring may have changed it. */
  ghost predicate Unhindered(s: State, s': State, w: nat) {
    && Sized(s) && Sized(s') && s'.workers == s.workers && |s'.threads| == |s.threads| && w < s.workers
    && s'.threads[w] == s.threads[w] && s'.taken[w] == s.taken[w] && s'.bypasses[w] == s.bypasses[w]
    && s'.out[w] >= s.out[w] && s'.out[w] + |s'.rings[w]| == s.out[w] + |s.rings[w]|
  }

  lemma OthersTake(s: State, w: nat, t: nat)
    requires Sized(s) && w < s.workers && t < s.workers && t != w && s.threads[t].Take?
    ensures Unhindered(s, StepTake(s, t), w)
  {
    hide Share;
  }

  lemma OthersOverflow(s: State, w: nat, t: nat, amount: nat)
    requires Sized(s) && w < s.workers && t < s.workers && t != w && (s.threads[t].PutFull? || s.threads[t].RefillFull?)
    ensures Unhindered(s, StepOverflow(s, t, amount), w)
  {
    hide Grabbed, LOCAL_QUEUE_SIZE;
  }

  lemma OthersSteal(s: State, w: nat, t: nat, from: nat, amount: nat)
    requires Sized(s) && w < s.workers && t < s.workers && t != w && s.threads[t].StealGrab?
    ensures Unhindered(s, StepStealGrab(s, t, from, amount), w)
  {
    hide Grabbed, LOCAL_QUEUE_SIZE;
  }

  /** What a step of somebody else means to worker `w`: at most that items leave its ring. */
  lemma OthersSee(s: State, w: nat, c: Choice)
    requires RolesOk(s) && w < s.workers && c.t != w
    ensures Unhindered(s, Step(s, c), w)
  {
    if c.t < |s.threads| {
      match s.threads[c.t]
      case Take(_, _) => OthersTake(s, w, c.t);
      case StealGrab(_, _) => OthersSteal(s, w, c.t, c.from, c.amount);
      case RefillFull(_, _) => OthersOverflow(s, w, c.t, c.amount);
      case PutFull(_, _) => OthersOverflow(s, w, c.t, c.amount);
      case _ => OthersWork(s, w, c);
    }
  }

  lemma OthersWork(s: State, w: nat, c: Choice)
    requires RolesOk(s) && w < s.workers && c.t != w && c.t < |s.threads|
    requires var l := s.threads[c.t]; !l.Take? && !l.StealGrab? && !l.RefillFull? && !l.PutFull?
    ensures Unhindered(s, Step(s, c), w)
  {
    hide Share, Grabbed, Listed, LOCAL_QUEUE_SIZE;
  }

  /** A step of `w` while it is not looking for work. */
  lemma OwnWork(s: State, w: nat, c: Choice)
    requires RolesOk(s) && w < s.workers && c.t == w && !s.threads[w].Take? && !s.threads[w].StealGrab? && !s.threads[w].Refill?
    ensures var s' := Step(s, c);
      && Sized(s') && s'.workers == s.workers && |s'.threads| == |s.threads|
      && s'.taken[w] == s.taken[w] && s'.bypasses[w] == s.bypasses[w]
      && s'.out[w] >= s.out[w] && s'.out[w] + |s'.rings[w]| >= s.out[w] + |s.rings[w]|
      && (s.threads[w].Loop? || !s'.threads[w].Take?) && !s'.threads[w].StealGrab?
  {
    hide Share, Grabbed, Listed, LOCAL_QUEUE_SIZE;
  }

  /** One place of the strategy, with the ring not empty: the slot, or the oldest item of the ring. */
  lemma OwnTake(s: State, w: nat, j: nat)
    requires OnTrack(s, w, j) && s.threads[w].Take?
    ensures var s' := StepTake(s, w);
      && Sized(s') && s'.workers == s.workers
      && (s'.out[w] > j || (OnTrack(s', w, j) && s'.taken[w] - s.taken[w] + Delay(s', w, j) <= Delay(s, w, j)))
  {
    hide Share;
    assert s.threads[w].steps[0].LifoSlot? || s.threads[w].steps[0].LocalQueue?;
    assert s.rings[w] != [];
  }

  /** A take of `w` that its draw does not send to the global queue spends some of the delay. */
  lemma OwnStep(s: State, w: nat, j: nat, c: Choice)
    requires RolesOk(s) && OnTrack(s, w, j) && c.t == w && c.draw % GLOBAL_QUEUE_PERIOD != 0
    ensures var s' := Step(s, c);
      && Sized(s') && s'.workers == s.workers
      && (s'.out[w] > j || (OnTrack(s', w, j) && s'.taken[w] - s.taken[w] + Delay(s', w, j) <= Delay(s, w, j)))
  {
    if s.threads[w].Take? {
      OwnTake(s, w, j);
    } else {
      OwnWork(s, w, c);
      NotRefilling(s, w, j, c);
      assert s.threads[w].Loop? ==> OnTrack(Step(s, c), w, j);
      hide Step;
    }
  }

  /** Running, submitting and returning never lead straight into a batch transfer. */
  lemma NotRefilling(s: State, w: nat, j: nat, c: Choice)
    requires RolesOk(s) && OnTrack(s, w, j) && c.t == w && !s.threads[w].Take?
    ensures var l := Step(s, c).threads[w]; !l.Refill? && !l.RefillFull? && !l.RefillSpill?
  {
    hide Share, Grabbed, Listed, LOCAL_QUEUE_SIZE;
  }

  /** Nobody else delays it. */
  lemma OtherStep(s: State, w: nat, j: nat, c: Choice)
    requires RolesOk(s) && OnTrack(s, w, j) && c.t != w
    ensures var s' := Step(s, c);
      && Sized(s') && s'.workers == s.workers
      && (s'.out[w] > j || (OnTrack(s', w, j) && s'.taken[w] == s.taken[w] && Delay(s', w, j) <= Delay(s, w, j)))
  {
    hide Step;
    OthersSee(s, w, c);
  }

  lemma OutGrows(s: State, w: nat, c: Choice)
    requires RolesOk(s) && w < s.workers
    ensures Sized(Step(s, c)) && Step(s, c).workers == s.workers && Step(s, c).out[w] >= s.out[w]
  {
    if c.t != w {
      hide Step;
      OthersSee(s, w, c);
    } else {
      match s.threads[w]
      case Take(_, _) => hide Share;
      case StealGrab(_, _) => hide Grabbed;
      case Refill(_, _) =>
      case _ => OwnWork(s, w, c);
    }
  }

  /** Over a whole run: the item leaves, or every task `w` took used up some of the delay. */
  lemma {:induction false} DelaySpent(workers: nat, clients: nat, before: seq<Choice>, after: seq<Choice>, w: nat, j: nat)
    requires w < workers && OnTrack(Run(workers, clients, before), w, j)
    requires forall i | 0 <= i < |after| && after[i].t == w :: after[i].draw % GLOBAL_QUEUE_PERIOD != 0
    ensures var s, s' := Run(workers, clients, before), Run(workers, clients, before + after);
      && Sized(s') && s'.workers == s.workers
      && (s'.out[w] > j || (OnTrack(s', w, j) && s'.taken[w] - s.taken[w] + Delay(s', w, j) <= Delay(s, w, j)))
    decreases |after|
  {
    hide Run, Step, OnTrack, Delay, Conserved, Waiting, Debts, Unannounced;
    assert Sized(Run(workers, clients, before + after));
    if after == [] {
      assert before + after == before;
    } else {
      var front, c := after[..|after| - 1], after[|after| - 1];
      DelaySpent(workers, clients, before, front, w, j);
      var s := Run(workers, clients, before + front);
      assert (before + after)[..|before + after| - 1] == before + front;
      RunLast(workers, clients, before + after);
      if s.out[w] > j {
        OutGrows(s, w, c);
      } else if c.t == w {
        OwnStep(s, w, j, c);
      } else {
        OtherStep(s, w, j, c);
      }
    }
  }

  /**
   The item at position `j - out` of `w`'s ring has left it by the time `w` has taken 21 tasks for that
   item and for each one in front of it, no matter how often its LIFO slot is refilled.
   */
  lemma BypassBound(workers: nat, clients: nat, before: seq<Choice>, after: seq<Choice>, w: nat, j: nat)
    requires OnTrack(Run(workers, clients, before), w, j)
    requires forall i | 0 <= i < |after| && after[i].t == w :: after[i].draw % GLOBAL_QUEUE_PERIOD != 0
    requires var s, s' := Run(workers, clients, before), Run(workers, clients, before + after);
      s'.taken[w] >= s.taken[w] + (MAX_LIFO_ROUTINES + 1) * (j - s.out[w] + 1)
    ensures Run(workers, clients, before + after).out[w] > j
  {
    hide Run;
    DelaySpent(workers, clients, before, after, w, j);
  }
}
