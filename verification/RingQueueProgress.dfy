/**
 What a ring operation does that runs alone: from every reachable state it returns, within a number of its own
 steps that its arguments bound, and its answer is the one the contents of the ring call for.
 */
module RingQueueProgress {
  import opened Basics
  import opened Histories
  import opened RingQueue
  import opened RingQueueTheorems

  /** How many steps the operation still takes if nobody else moves; a head that has moved costs another round. */
  function Work(s: State, l: Local): nat {
    match l
    case Idle => 0
    case PushLoadHead(_) => 5
    case PushLoadTail(_, _) => 4
    case PushStore(_, _) => 3
    case PushPublish(_, _) => 2
    case PopLoadHead => 5
    case PopLoadTail(h) => if h == s.head then 4 else 7
    case PopRead(h) => if h == s.head then 3 else 6
    case PopSwing(h, _) => if h == s.head then 2 else 5
    case GrabLoadHead(n) => n + 4
    case GrabLoadTail(n, h) => if h == s.head then n + 3 else 2 * n + 5
    case GrabRead(n, h, seen, _, items) =>
      var left: int := Wanted(n, h, seen) - |items|;
      (if left > 0 then left else 0) + if h == s.head then 2 else n + 4
    case GrabSwing(n, h, _, _) => if h == s.head then 2 else n + 4
    case Exit(_, _) => 1
  }

  /** The operation a thread is in. */
  function Called(l: Local): Option<Op> {
    match l
    case Idle => None
    case PushLoadHead(x) => Some(TryPush(x))
    case PushLoadTail(x, _) => Some(TryPush(x))
    case PushStore(x, _) => Some(TryPush(x))
    case PushPublish(x, _) => Some(TryPush(x))
    case PopLoadHead => Some(TryPop)
    case PopLoadTail(_) => Some(TryPop)
    case PopRead(_) => Some(TryPop)
    case PopSwing(_, _) => Some(TryPop)
    case GrabLoadHead(n) => Some(Grab(n))
    case GrabLoadTail(n, _) => Some(Grab(n))
    case GrabRead(n, _, _, _, _) => Some(Grab(n))
    case GrabSwing(n, _, _, _) => Some(Grab(n))
    case Exit(op, _) => Some(op)
  }

  function Steps(op: Op): nat {
    match op
    case TryPush(_) => 5
    case TryPop => 7
    case Grab(n) => 2 * n + 5
  }

  lemma WorkBound(s: State, t: nat)
    requires Inv(s) && t < |s.threads| && !s.threads[t].Idle?
    ensures Work(s, s.threads[t]) <= Steps(Called(s.threads[t]).value)
  {
    assert LocalOk(s, t, s.threads[t]);
  }

  /** How many of the contents an operation that has taken no effect yet removes if nobody else moves. */
  function Takes(s: State, l: Local): nat
    requires s.head <= s.tail == |s.pushed|
  {
    var all := s.tail - s.head;
    match l
    case PopLoadHead => Min(1, all)
    case PopLoadTail(_) => Min(1, all)
    case PopRead(_) => Min(1, all)
    case PopSwing(_, _) => Min(1, all)
    case GrabLoadHead(n) => Min(n, all)
    case GrabLoadTail(n, _) => Min(n, all)
    case GrabRead(n, h, seen, _, _) => if h == s.head then Min(all, Wanted(n, h, seen)) else Min(n, all)
    case GrabSwing(n, h, seen, _) => if h == s.head then Min(all, Wanted(n, h, seen)) else Min(n, all)
    case _ => 0
  }

  /** A push that finds room adds its item; whether there is room is seen at the load of the head. */
  function Adds(s: State, l: Local): seq<Item>
    requires s.head <= s.tail
  {
    match l
    case PushLoadHead(x) => if s.tail - s.head == s.capacity then [] else [x]
    case PushLoadTail(x, h) => if s.tail == h + s.capacity then [] else [x]
    case PushStore(x, _) => [x]
    case PushPublish(x, _) => [x]
    case _ => []
  }

  /**
   What the operation answers if nobody else moves: an item for which there is room is pushed; `TryPop` pops the oldest
   item, or null exactly if there is none; `Grab` takes the oldest items, all it may unless it has begun to copy fewer.
   */
  function Due(s: State, l: Local): Res
    requires s.head <= s.tail == |s.pushed| && !l.Idle?
  {
    match Called(l).value
    case TryPush(_) => if l.Exit? then l.res else if Adds(s, l) == [] then Full else Pushed
    case TryPop => if l.Exit? then l.res else if s.head == s.tail then Popped(None) else Popped(Some(s.pushed[s.head]))
    case Grab(_) => if l.Exit? then l.res else Grabbed(Wrapped(s.pushed[s.head..s.head + Takes(s, l)]))
  }

  lemma AdvancesPush(s: State, t: nat)
    requires Inv(s) && InBounds(s) && t < |s.threads| && Pushing(s.threads[t])
    ensures Advances(s, t)
  {
    hide HistoryOk, Slot;
    assert LocalOk(s, t, s.threads[t]);
  }

  lemma AdvancesPop(s: State, t: nat)
    requires Inv(s) && InBounds(s) && t < |s.threads|
    requires var l := s.threads[t]; l.PopLoadHead? || l.PopLoadTail? || l.PopRead? || l.PopSwing? || l.Exit?
    ensures Advances(s, t)
  {
    hide HistoryOk, Slot;
    assert LocalOk(s, t, s.threads[t]);
  }

  lemma WrappedFront(items: seq<Option<Item>>, q: seq<Item>)
    requires Front(items, q)
    ensures items == Wrapped(q[..|items|])
  {
    WrappedAt(q[..|items|]);
  }

  lemma {:induction false} WrappedAt(q: seq<Item>)
    ensures |Wrapped(q)| == |q| && forall i | 0 <= i < |q| :: Wrapped(q)[i] == Some(q[i])
  {
  }

  lemma AdvancesGrabLoad(s: State, t: nat)
    requires Inv(s) && InBounds(s) && t < |s.threads| && (s.threads[t].GrabLoadHead? || s.threads[t].GrabLoadTail?)
    ensures Advances(s, t)
  {
    hide HistoryOk, Slot, Wrapped;
    assert LocalOk(s, t, s.threads[t]);
  }

  lemma AdvancesGrabRead(s: State, t: nat)
    requires Inv(s) && InBounds(s) && t < |s.threads| && s.threads[t].GrabRead?
    ensures Advances(s, t)
  {
    hide HistoryOk, Slot, Wrapped;
    assert LocalOk(s, t, s.threads[t]);
  }

  lemma AdvancesGrabSwing(s: State, t: nat)
    requires Inv(s) && InBounds(s) && t < |s.threads| && s.threads[t].GrabSwing?
    ensures Advances(s, t)
  {
    hide HistoryOk, Slot, Wrapped;
    var l := s.threads[t];
    assert LocalOk(s, t, l);
    if l.head == s.head {
      WrappedFront(l.items, Contents(s));
      assert Contents(s)[..|l.items|] == s.pushed[s.head..s.head + |l.items|];
    }
  }

  /** A step alone brings the operation nearer to its end, to the answer it was due all along. */
  ghost predicate Advances(s: State, t: nat)
    requires InBounds(s) && s.head <= s.tail == |s.pushed| && t < |s.threads|
  {
    var l, s' := s.threads[t], Step(s, Choice(t, TryPop));
    !l.Idle? && |s'.threads| == |s.threads| && s'.head <= s'.tail == |s'.pushed| &&
    var l' := s'.threads[t];
    && Work(s', l') < Work(s, l)
    && (if l.Exit? then l' == Idle && s'.hist == s.hist + [Return(t, l.res)] && Contents(s') == Contents(s)
        else
          && !l'.Idle? && Called(l') == Called(l) && Due(s', l') == Due(s, l)
          && Contents(s')[Takes(s', l')..] + Adds(s', l') == Contents(s)[Takes(s, l)..] + Adds(s, l))
  }

  lemma StepAdvances(s: State, t: nat)
    requires Inv(s) && InBounds(s) && t < |s.threads| && !s.threads[t].Idle?
    ensures Advances(s, t)
  {
    assert s.head <= s.tail == |s.pushed|;
    hide Inv, Advances, Work, Takes, Adds, Due;
    match s.threads[t] {
      case PushLoadHead(_) | PushLoadTail(_, _) | PushStore(_, _) | PushPublish(_, _) => AdvancesPush(s, t);
      case PopLoadHead | PopLoadTail(_) | PopRead(_) | PopSwing(_, _) | Exit(_, _) => AdvancesPop(s, t);
      case GrabRead(_, _, _, _, _) => AdvancesGrabRead(s, t);
      case GrabSwing(_, _, _, _) => AdvancesGrabSwing(s, t);
      case _ => AdvancesGrabLoad(s, t);
    }
  }

  /** Thread `t` takes the next `n` steps. */
  function Solo(t: nat, n: nat): seq<Choice> {
    seq(n, i => Choice(t, TryPop))
  }

  lemma SoloFront(schedule: seq<Choice>, t: nat, n: nat)
    ensures schedule + Solo(t, n + 1) == (schedule + [Choice(t, TryPop)]) + Solo(t, n)
    ensures schedule + Solo(t, 0) == schedule
  {
    assert Solo(t, n + 1) == [Choice(t, TryPop)] + Solo(t, n);
  }

  lemma RunMore(capacity: nat, producer: nat, threads: nat, schedule: seq<Choice>, c: Choice)
    ensures InBounds(Run(capacity, producer, threads, schedule))
    ensures Run(capacity, producer, threads, schedule + [c]) == Step(Run(capacity, producer, threads, schedule), c)
  {
    assert (schedule + [c])[..|schedule|] == schedule;
    Boundaries(Run(capacity, producer, threads, schedule));
  }

  lemma {:induction false} Finishes(capacity: nat, producer: nat, threads: nat, schedule: seq<Choice>, t: nat) returns (n: nat)
    requires t < threads && !Run(capacity, producer, threads, schedule).threads[t].Idle?
    ensures n <= Work(Run(capacity, producer, threads, schedule), Run(capacity, producer, threads, schedule).threads[t])
    ensures Returns(Run(capacity, producer, threads, schedule), Run(capacity, producer, threads, schedule + Solo(t, n)), t)
    decreases Work(Run(capacity, producer, threads, schedule), Run(capacity, producer, threads, schedule).threads[t])
  {
    hide Inv, Work, Takes, Adds, Due, Called, Run;
    var s, c := Run(capacity, producer, threads, schedule), Choice(t, TryPop);
    RunMore(capacity, producer, threads, schedule, c);
    StepAdvances(s, t);
    var l, s' := s.threads[t], Run(capacity, producer, threads, schedule + [c]);
    Ordered(s);
    Ordered(s');
    hide Step;
    if l.Exit? {
      n := 1;
      DueAtExit(s, l);
      SoloFront(schedule, t, 0);
      SoloFront(schedule + [c], t, 0);
    } else {
      var m := Finishes(capacity, producer, threads, schedule + [c], t);
      n := m + 1;
      SoloFront(schedule, t, m);
    }
  }

  /** From `s` to `s'` thread `t` returned, with the answer that was due and the contents changed accordingly. */
  ghost predicate Returns(s: State, s': State, t: nat)
    requires s.head <= s.tail == |s.pushed| && t < |s.threads| && !s.threads[t].Idle?
  {
    var l := s.threads[t];
    && s'.head <= s'.tail == |s'.pushed| && t < |s'.threads| && s'.threads[t] == Idle
    && s'.hist != [] && s'.hist[|s'.hist| - 1] == Return(t, Due(s, l))
    && Contents(s') == Contents(s)[Takes(s, l)..] + Adds(s, l)
  }

  lemma Ordered(s: State)
    requires Inv(s)
    ensures s.head <= s.tail == |s.pushed|
  {
  }

  lemma DueAtExit(s: State, l: Local)
    requires s.head <= s.tail == |s.pushed| && l.Exit?
    ensures Due(s, l) == l.res && Takes(s, l) == 0 && Adds(s, l) == []
  {
  }

  /**
   From every reachable state an operation that runs alone returns within 5 steps of a push, 7 of a `TryPop` and
   2 * size + 5 of a `Grab`, with the answer the contents call for.
   */
  lemma ReturnsAlone(capacity: nat, producer: nat, threads: nat, schedule: seq<Choice>, t: nat) returns (n: nat)
    requires t < threads && !Run(capacity, producer, threads, schedule).threads[t].Idle?
    ensures var s := Run(capacity, producer, threads, schedule);
      && Called(s.threads[t]).Some? && n <= Steps(Called(s.threads[t]).value)
      && Returns(s, Run(capacity, producer, threads, schedule + Solo(t, n)), t)
  {
    hide Inv, Work, Run, Returns;
    WorkBound(Run(capacity, producer, threads, schedule), t);
    n := Finishes(capacity, producer, threads, schedule, t);
  }

  /** A `TryPop` alone on a ring that holds something: it answers the oldest item, which leaves. */
  lemma PopsOldest(capacity: nat, producer: nat, threads: nat, schedule: seq<Choice>, t: nat) returns (n: nat)
    requires t < threads
    requires var s := Run(capacity, producer, threads, schedule); s.threads[t].PopLoadHead? && Contents(s) != []
    ensures n <= 7
    ensures var s, s' := Run(capacity, producer, threads, schedule), Run(capacity, producer, threads, schedule + Solo(t, n));
      && s'.threads[t] == Idle && s'.hist != [] && s'.hist[|s'.hist| - 1] == Return(t, Popped(Some(Contents(s)[0])))
      && Contents(s') == Contents(s)[1..]
  {
    hide Inv, Run;
    n := ReturnsAlone(capacity, producer, threads, schedule, t);
    var s := Run(capacity, producer, threads, schedule);
    Ordered(s);
    assert Contents(s)[0] == s.pushed[s.head] && s.head < s.tail;
    assert Due(s, s.threads[t]) == Popped(Some(s.pushed[s.head]));
  }
}
