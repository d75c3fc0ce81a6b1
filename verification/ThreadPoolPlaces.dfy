/**
 Where the thread pool puts a task and where a worker looks for one (thread_pool.cpp:63-129, 141-268), over whole
 runs: what a hint means, in which order the places are searched, when a search may come back without a task, and
 how much of the global queue a worker takes along.
 */
module ThreadPoolPlaces {
  import opened Basics
  import opened ThreadPool
  import opened ThreadPoolTheorems

  // ---------------------------------------------------------------- what others do to a worker

  /** Of what worker `w` owns, a step of somebody else takes at most the oldest items of its ring. */
  ghost predicate LeavesAlone(s: State, s': State, w: nat) {
    && Sized(s) && Sized(s') && s'.workers == s.workers && |s'.threads| == |s.threads| && w < s.workers
    && s'.threads[w] == s.threads[w] && s'.slots[w] == s.slots[w]
    && s'.taken[w] == s.taken[w] && s'.bypasses[w] == s.bypasses[w] && s'.robbers >= s.robbers
    && |s'.rings[w]| <= |s.rings[w]| && s'.rings[w] == s.rings[w][|s.rings[w]| - |s'.rings[w]|..]
  }

  lemma OthersTake(s: State, w: nat, t: nat)
    requires Sized(s) && w < s.workers && t < s.workers && t != w && s.threads[t].Take?
    ensures LeavesAlone(s, StepTake(s, t), w)
  {
    hide Share;
  }

  lemma OthersGrab(s: State, w: nat, c: Choice)
    requires RolesOk(s) && w < s.workers && c.t < s.workers && c.t != w
    requires var l := s.threads[c.t]; l.StealGrab? || l.PutFull? || l.RefillFull?
    ensures LeavesAlone(s, Step(s, c), w)
  {
    hide Grabbed, LOCAL_QUEUE_SIZE;
  }

  lemma OthersWork(s: State, w: nat, c: Choice)
    requires RolesOk(s) && w < s.workers && c.t != w && c.t < |s.threads|
    requires var l := s.threads[c.t]; !l.Take? && !l.StealGrab? && !l.RefillFull? && !l.PutFull?
    ensures LeavesAlone(s, Step(s, c), w)
  {
    hide Share, Grabbed, Listed, LOCAL_QUEUE_SIZE;
  }

  lemma OthersStep(s: State, w: nat, c: Choice)
    requires RolesOk(s) && w < s.workers && c.t != w
    ensures LeavesAlone(s, Step(s, c), w)
  {
    if c.t < |s.threads| {
      match s.threads[c.t]
      case Take(_, _) => OthersTake(s, w, c.t);
      case StealGrab(_, _) => OthersGrab(s, w, c);
      case RefillFull(_, _) => OthersGrab(s, w, c);
      case PutFull(_, _) => OthersGrab(s, w, c);
      case _ => OthersWork(s, w, c);
    }
  }

  // ---------------------------------------------------------------- the places are queues

  /** From a queue only the oldest leave, and only behind the youngest do others join. */
  predicate Queueing(q: seq<Task>, q': seq<Task>) {
    q <= q' || (|q'| <= |q| && q' == q[|q| - |q'|..])
  }

  lemma TakeQueueing(s: State, t: nat)
    requires Sized(s) && t < s.workers && s.threads[t].Take?
    ensures Sized(StepTake(s, t)) && StepTake(s, t).workers == s.workers
    ensures forall i | 0 <= i < s.workers :: Queueing(s.rings[i], StepTake(s, t).rings[i])
  {
    hide Share;
    var l := s.threads[t];
    if l.steps != [] && l.steps[0].LocalQueue? && s.rings[t] != [] {
      assert Queueing(s.rings[t], s.rings[t][1..]);
    } else {
      assert StepTake(s, t).rings == s.rings;
    }
  }

  lemma TakeGlobal(s: State, t: nat)
    requires Sized(s) && t < s.workers && s.threads[t].Take?
    ensures Queueing(s.global, StepTake(s, t).global)
  {
    if s.global != [] {
      ShareFits(s, |s.global| - 1);
    }
    hide Share;
  }

  lemma GrabQueueing(s: State, c: Choice)
    requires RolesOk(s) && c.t < s.workers
    requires var l := s.threads[c.t]; l.StealGrab? || l.PutFull? || l.RefillFull?
    ensures Sized(Step(s, c)) && Step(s, c).workers == s.workers
    ensures Queueing(s.global, Step(s, c).global)
    ensures forall i | 0 <= i < s.workers :: Queueing(s.rings[i], Step(s, c).rings[i])
  {
    hide Grabbed, LOCAL_QUEUE_SIZE;
  }

  /** Every step treats the global queue and every ring as queues. */
  lemma PlacesAreQueues(s: State, c: Choice)
    requires RolesOk(s)
    ensures Sized(Step(s, c)) && Step(s, c).workers == s.workers
    ensures Queueing(s.global, Step(s, c).global)
    ensures forall i | 0 <= i < s.workers :: Queueing(s.rings[i], Step(s, c).rings[i])
  {
    if c.t < |s.threads| {
      var l := s.threads[c.t];
      if l.Take? {
        TakeQueueing(s, c.t);
        TakeGlobal(s, c.t);
      } else if l.StealGrab? || l.PutFull? || l.RefillFull? {
        GrabQueueing(s, c);
      }
    }
    hide StepTake, StepStealGrab, StepOverflow, LOCAL_QUEUE_SIZE, Listed;
  }

  // ---------------------------------------------------------------- the order of a search

  /** When a worker looks at a place (thread_pool.hpp:73-83), by its draw and the tasks it took from its LIFO slot in a row. */
  function Turn(p: Source, draw: nat, bypasses: nat): nat {
    if draw % 61 == 0 then (match p case GlobalQueue => 0 case LifoSlot => 1 case LocalQueue => 2 case Steal => 3)
    else if bypasses >= 20 then (match p case LocalQueue => 0 case GlobalQueue => 1 case Steal => 2 case LifoSlot => 3)
    else (match p case LifoSlot => 0 case LocalQueue => 1 case GlobalQueue => 2 case Steal => 3)
  }

  /** The places a worker still has to look at are those whose turn is not before `k`, in order. */
  predicate Remaining(steps: seq<Source>, k: nat, draw: nat, bypasses: nat) {
    && k <= 4 && |steps| == 4 - k
    && forall i | 0 <= i < |steps| :: Turn(steps[i], draw, bypasses) == k + i
  }

  /** Worker `w` is looking for work, with the places before turn `k` behind it. */
  predicate Searching(l: Local, k: nat, draw: nat, bypasses: nat) {
    match l
    case Take(steps, local) => Remaining(steps, k, draw, bypasses) && (local <==> Turn(LocalQueue, draw, bypasses) < k)
    case StealGrab(steps, local) =>
      k > 0 && Remaining(steps, k, draw, bypasses) && Turn(Steal, draw, bypasses) == k - 1
      && (local <==> Turn(LocalQueue, draw, bypasses) < k - 1)
    case _ => false
  }

  lemma SearchBegins(s: State, w: nat, c: Choice)
    requires RolesOk(s) && w < s.workers && c.t == w && s.threads[w].Loop?
    ensures var s' := Step(s, c);
      && Sized(s') && s'.workers == s.workers && |s'.threads| == |s.threads| && Searching(s'.threads[w], 0, c.draw, s.bypasses[w])
      && s' == s.(threads := s'.threads)
  {
  }

  /**
   Worker `w` takes a task, from `s` to `s'`, out of this place.  Behind the first task of the global queue it
   takes a share of the others along, but only if its draw sent it to its own ring before.
   */
  ghost predicate TakenFrom(p: Source, s: State, s': State, w: nat, draw: nat)
    requires Sized(s) && Sized(s') && w < s.workers == s'.workers
  {
    match p
    case LifoSlot =>
      && s.slots[w].Some? && s'.threads[w] == Taken(s.slots[w].value) && s'.slots == s.slots[w := None]
      && s'.rings == s.rings && s'.global == s.global
    case LocalQueue =>
      && s.rings[w] != [] && s'.threads[w] == Taken(s.rings[w][0]) && s'.rings == s.rings[w := s.rings[w][1..]]
      && s'.slots == s.slots && s'.global == s.global
    case GlobalQueue =>
      && FromGlobal(s, s', w)
      && (if draw % 61 == 0 then Batch(s'.threads[w]) == [] else FairShare(|Batch(s'.threads[w])|, |s.global| - 1, s.workers))
      && s'.rings == s.rings && s'.slots == s.slots
    case Steal =>
      && s.threads[w].StealGrab? && (exists v | 0 <= v < s.workers :: Robs(s, s', w, v))
      && s'.slots == s.slots && s'.global == s.global
  }

  /** What a worker that took a task moves into its own ring before it runs it. */
  function Batch(l: Local): seq<Task> {
    if l.Refill? then l.rest else []
  }

  /** The first task of the global queue, and those that follow it. */
  predicate FromGlobal(s: State, s': State, w: nat)
    requires Sized(s) && Sized(s') && w < s.workers == s'.workers
  {
    s.global != [] &&
    match s'.threads[w]
    case Taken(x) => [x] + s'.global == s.global
    case Refill(x, rest) => rest != [] && [x] + rest + s'.global == s.global
    case _ => false
  }

  /** The oldest tasks of another worker's ring, at most a quarter of what fits. */
  predicate Robs(s: State, s': State, w: nat, v: nat)
    requires Sized(s) && Sized(s') && w < s.workers == s'.workers && v < s.workers
  {
    v != w && s'.threads[w].Refill? &&
    var loot := [s'.threads[w].result] + s'.threads[w].rest;
    |loot| <= 256 && loot <= s.rings[v] && s'.rings == s.rings[v := s.rings[v][|loot|..]]
  }

  /** What a place looks like to worker `w` when it has nothing, or is passed over. */
  predicate Empty(p: Source, s: State, w: nat)
    requires Sized(s) && w < s.workers
  {
    match p
    case LifoSlot => s.slots[w].None?
    case LocalQueue => s.rings[w] == []
    case GlobalQueue => s.global == []
    case Steal => s.robbers >= s.workers
  }

  /** Nothing but worker `w`'s place in its search has changed, and perhaps the number of robbers. */
  predicate OnlyLooked(s: State, s': State, w: nat)
    requires w < |s.threads| == |s'.threads|
  {
    s'.robbers >= s.robbers && s' == s.(threads := s.threads[w := s'.threads[w]], robbers := s'.robbers)
  }

  /** What one step of a search can be. */
  ghost predicate SearchGoesOn(s: State, s': State, w: nat, k: nat, draw: nat, bypasses: nat)
    requires w < s.workers
  {
    && Sized(s) && Sized(s') && s'.workers == s.workers && |s'.threads| == |s.threads| &&
    var l, l' := s.threads[w], s'.threads[w];
    if l'.Loop? then l.Take? && k == 4 && OnlyLooked(s, s', w)
    else if l'.Take? || l'.StealGrab? then OnlyLooked(s, s', w) && LooksFurther(s, s', w, k, draw, bypasses)
    else
      exists p :: Turn(p, draw, bypasses) == (if l.Take? then k else k - 1) && TakenFrom(p, s, s', w, draw)
  }

  /** A place that was empty is passed over; setting out to steal and coming back empty-handed are a step each. */
  ghost predicate LooksFurther(s: State, s': State, w: nat, k: nat, draw: nat, bypasses: nat)
    requires Sized(s) && w < s.workers && |s'.threads| == |s.threads|
  {
    var l, l' := s.threads[w], s'.threads[w];
    if l.StealGrab? then Searching(l', k, draw, bypasses) && (l'.Take? || s' == s)
    else
      && Searching(l', k + 1, draw, bypasses)
      && (l'.Take? ==> exists p :: Turn(p, draw, bypasses) == k && Empty(p, s, w))
  }

  lemma TurnsDiffer(p: Source, q: Source, draw: nat, bypasses: nat)
    ensures Turn(p, draw, bypasses) == Turn(q, draw, bypasses) ==> p == q
    ensures Turn(p, draw, bypasses) < 4
  {
  }

  lemma RestRemains(steps: seq<Source>, k: nat, draw: nat, bypasses: nat)
    requires Remaining(steps, k, draw, bypasses) && steps != []
    ensures Turn(steps[0], draw, bypasses) == k && Remaining(steps[1..], k + 1, draw, bypasses)
    ensures Turn(LocalQueue, draw, bypasses) < k + 1 <==> Turn(LocalQueue, draw, bypasses) < k || steps[0].LocalQueue?
    ensures steps[0].GlobalQueue? ==> (Turn(LocalQueue, draw, bypasses) < k <==> draw % 61 != 0)
  {
    TurnsDiffer(steps[0], LocalQueue, draw, bypasses);
    assert Turn(LocalQueue, draw, bypasses) < Turn(GlobalQueue, draw, bypasses) <==> draw % 61 != 0;
    hide Turn;
  }

  /** Looking at the global queue. */
  lemma GlobalStep(s: State, w: nat)
    requires Sized(s) && w < s.workers && s.threads[w].Take? && s.threads[w].steps != [] && s.threads[w].steps[0].GlobalQueue?
    requires s.global != []
    ensures var s' := StepTake(s, w);
      && Sized(s') && s'.workers == s.workers && |s'.threads| == |s.threads| && FromGlobal(s, s', w) && s'.rings == s.rings && s'.slots == s.slots
      && (if !s.threads[w].local then Batch(s'.threads[w]) == [] else FairShare(|Batch(s'.threads[w])|, |s.global| - 1, s.workers))
  {
    ShareFits(s, |s.global| - 1);
    ShareIsFair(|s.global| - 1, s.workers);
    hide FairShare;
    assert s.threads[w].local ==> FairShare(Share(s, |s.global| - 1), |s.global| - 1, s.workers);
    hide Share;
  }

  lemma TakeStep(s: State, w: nat, k: nat, draw: nat, bypasses: nat)
    requires Sized(s) && w < s.workers && s.threads[w].Take? && Searching(s.threads[w], k, draw, bypasses)
    ensures SearchGoesOn(s, StepTake(s, w), w, k, draw, bypasses)
  {
    var steps, s' := s.threads[w].steps, StepTake(s, w);
    if steps != [] {
      RestRemains(steps, k, draw, bypasses);
      var p := steps[0];
      hide Turn, Remaining, Share, FairShare;
      if p.GlobalQueue? && s.global != [] {
        GlobalStep(s, w);
        hide StepTake;
        assert TakenFrom(p, s, s', w, draw);
      } else if s'.threads[w].Take? {
        assert Empty(p, s, w);
      } else if !s'.threads[w].StealGrab? {
        assert TakenFrom(p, s, s', w, draw);
      }
    }
  }

  lemma GrabStep(s: State, w: nat, c: Choice, k: nat, draw: nat, bypasses: nat)
    requires Sized(s) && w < s.workers && s.threads[w].StealGrab? && Searching(s.threads[w], k, draw, bypasses)
    ensures SearchGoesOn(s, StepStealGrab(s, w, c.from, c.amount), w, k, draw, bypasses)
  {
    var s' := StepStealGrab(s, w, c.from, c.amount);
    TurnsDiffer(Steal, LocalQueue, draw, bypasses);
    hide Turn, Remaining;
    if s'.threads[w].Refill? {
      assert Robs(s, s', w, c.from);
      assert TakenFrom(Steal, s, s', w, draw);
    }
  }

  /** One step of a search: it goes on past a place that is empty, sets out to steal, or takes from the place whose turn it is. */
  lemma SearchStep(s: State, w: nat, c: Choice, k: nat, draw: nat, bypasses: nat)
    requires RolesOk(s) && w < s.workers && c.t == w && Searching(s.threads[w], k, draw, bypasses)
    ensures SearchGoesOn(s, Step(s, c), w, k, draw, bypasses)
  {
    if s.threads[w].Take? {
      TakeStep(s, w, k, draw, bypasses);
    } else {
      GrabStep(s, w, c, k, draw, bypasses);
    }
    hide SearchGoesOn, StepTake, StepStealGrab;
  }
}
