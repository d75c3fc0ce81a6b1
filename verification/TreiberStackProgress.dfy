/**
 What a stack operation does that runs alone: from every reachable state it returns, within a few of its own steps,
 with the answer the stack calls for.
 */
module TreiberStackProgress {
  import opened Basics
  import opened Histories
  import opened CountedPointers
  import opened TreiberStack
  import opened TreiberStackInvariant
  import opened TreiberStackSteps
  import opened TreiberStackTheorems
  import opened TreiberStackObject

  /** How many steps an acquisition of the head that expects `seen`, and what follows it, still take. */
  function AcquireWork(s: State, seen: CountedPtr): nat {
    if s.head != seen then 8 else 7
  }

  /** How many steps the operation still takes if nobody else moves and no exchange fails for no reason. */
  function Work(s: State, l: Local): nat {
    match l
    case Idle => 0
    case PushLoad(_, _) => 3
    case PushSwing(_, n) => if n in s.heap && s.heap[n].next == s.head then 2 else 3
    case PopLoad => 8
    case PopAcquire(seen) => AcquireWork(s, seen)
    case PopReadNext(h) => if s.head == h then 6 else 11
    case PopSwing(h, _) => if s.head == h then 5 else 10
    case PopTake(_, _) => 4
    case Detach(_, _) => 3
    case Release(_, seen) => AcquireWork(s, seen) + 2
    case Delete(_, k) => if k.Finish? then 2 else AcquireWork(s, k.seen) + 1
    case Exit(_, _) => 1
  }

  /** The answer if nobody else moves: a push succeeds, and `TryPop` pops the top element, or nothing exactly if there is none. */
  function Due(s: State, l: Local): Res
    requires !l.Idle?
  {
    match PhaseAt(l)
    case Done(_, res) => res
    case Called(op) => if op.Push? then Pushed else Popped(if s.items == [] then None else Some(s.items[0]))
    case _ => Pushed
  }

  /** The stack afterwards. */
  function Left(s: State, l: Local): seq<Item> {
    match PhaseAt(l)
    case Called(op) => if op.Push? then [op.v] + s.items else if s.items == [] then [] else s.items[1..]
    case _ => s.items
  }

  /** A step alone brings the operation nearer to its end, to the answer it was due all along. */
  ghost predicate Advances(s: State, t: nat)
    requires t < |s.threads| && !s.threads[t].Idle?
  {
    var l, s' := s.threads[t], Step(s, Choice(t, TryPop, 0, false));
    && |s'.threads| == |s.threads|
    && var l' := s'.threads[t];
      && Work(s', l') < Work(s, l)
      && (if l.Exit? then l' == Idle && s'.hist == s.hist + [Return(t, l.res)] && s'.items == s.items
          else !l'.Idle? && Due(s', l') == Due(s, l) && Left(s', l') == Left(s, l))
  }

  lemma PushAdvances(s: State, t: nat)
    requires Inv(s) && t < |s.threads| && (s.threads[t].PushLoad? || s.threads[t].PushSwing?)
    ensures Advances(s, t)
  {
    SafeToTouch(s, t);
    hide Inv;
  }

  lemma AcquireAdvances(s: State, t: nat)
    requires Inv(s) && t < |s.threads| && (s.threads[t].PopLoad? || s.threads[t].PopAcquire?)
    ensures Advances(s, t)
  {
    SafeToTouch(s, t);
    EmptyHere(s);
    hide Inv;
  }

  lemma PopAdvances(s: State, t: nat)
    requires Inv(s) && t < |s.threads| && (s.threads[t].PopReadNext? || s.threads[t].PopSwing? || s.threads[t].PopTake?)
    ensures Advances(s, t)
  {
    SafeToTouch(s, t);
    hide Inv;
  }

  lemma ReleaseAdvances(s: State, t: nat)
    requires Inv(s) && t < |s.threads| && (s.threads[t].Detach? || s.threads[t].Release?)
    ensures Advances(s, t)
  {
    SafeToTouch(s, t);
    hide Inv;
  }

  lemma EndAdvances(s: State, t: nat)
    requires Inv(s) && t < |s.threads| && (s.threads[t].Delete? || s.threads[t].Exit?)
    ensures Advances(s, t)
  {
    SafeToTouch(s, t);
    hide Inv;
  }

  lemma StepAdvances(s: State, t: nat)
    requires Inv(s) && t < |s.threads| && !s.threads[t].Idle?
    ensures Advances(s, t)
  {
    hide Inv, Advances;
    match s.threads[t] {
      case PushLoad(_, _) | PushSwing(_, _) => PushAdvances(s, t);
      case PopLoad | PopAcquire(_) => AcquireAdvances(s, t);
      case PopReadNext(_) | PopSwing(_, _) | PopTake(_, _) => PopAdvances(s, t);
      case Detach(_, _) | Release(_, _) => ReleaseAdvances(s, t);
      case _ => EndAdvances(s, t);
    }
  }

  /** Thread `t` takes the next `n` steps, and no exchange of it fails for no reason. */
  function Solo(t: nat, n: nat): seq<Choice> {
    seq(n, i => Choice(t, TryPop, 0, false))
  }

  lemma SoloFront(schedule: seq<Choice>, t: nat, n: nat)
    ensures schedule + Solo(t, n + 1) == (schedule + [Choice(t, TryPop, 0, false)]) + Solo(t, n)
    ensures schedule + Solo(t, 0) == schedule
  {
    assert Solo(t, n + 1) == [Choice(t, TryPop, 0, false)] + Solo(t, n);
  }

  lemma RunMore(s: State, schedule: seq<Choice>, c: Choice)
    ensures Run(s, schedule + [c]) == Step(Run(s, schedule), c)
  {
    assert (schedule + [c])[..|schedule|] == schedule;
  }

  /** From `s` to `s'` thread `t` returned, with the answer that was due and the stack changed accordingly. */
  ghost predicate Returns(s: State, s': State, t: nat)
    requires t < |s.threads| && !s.threads[t].Idle?
  {
    && t < |s'.threads| && s'.threads[t] == Idle
    && s'.hist != [] && s'.hist[|s'.hist| - 1] == Return(t, Due(s, s.threads[t]))
    && s'.items == Left(s, s.threads[t])
  }

  lemma {:induction false} Finishes(threads: nat, schedule: seq<Choice>, t: nat) returns (n: nat)
    requires threads < COUNT_SPAN && t < |Run(Init(threads), schedule).threads| && !Run(Init(threads), schedule).threads[t].Idle?
    ensures n <= Work(Run(Init(threads), schedule), Run(Init(threads), schedule).threads[t])
    ensures Returns(Run(Init(threads), schedule), Run(Init(threads), schedule + Solo(t, n)), t)
    decreases Work(Run(Init(threads), schedule), Run(Init(threads), schedule).threads[t])
  {
    hide Inv, Work, Due, Left, Run, Init;
    var s0, c := Init(threads), Choice(t, TryPop, 0, false);
    var s := Run(s0, schedule);
    InitKeeps(threads);
    RunKeeps(s0, schedule);
    RunMore(s0, schedule, c);
    StepAdvances(s, t);
    hide Step;
    if s.threads[t].Exit? {
      n := 1;
      AtExit(s, s.threads[t]);
      SoloFront(schedule, t, 0);
      SoloFront(schedule + [c], t, 0);
    } else {
      var m := Finishes(threads, schedule + [c], t);
      n := m + 1;
      SoloFront(schedule, t, m);
    }
  }

  lemma AtExit(s: State, l: Local)
    requires l.Exit?
    ensures Due(s, l) == l.res && Left(s, l) == s.items && Work(s, l) == 1
  {
  }

  /** From every reachable state a `Push` that runs alone returns within 3 steps and a `TryPop` within 11, as the stack calls for. */
  lemma ReturnsAlone(threads: nat, schedule: seq<Choice>, t: nat) returns (n: nat)
    requires threads < COUNT_SPAN && t < |Run(Init(threads), schedule).threads| && !Run(Init(threads), schedule).threads[t].Idle?
    ensures var s := Run(Init(threads), schedule);
      && n <= (if s.threads[t].PushLoad? || s.threads[t].PushSwing? then 3 else 11)
      && Returns(s, Run(Init(threads), schedule + Solo(t, n)), t)
  {
    hide Inv, Run, Init, Returns;
    n := Finishes(threads, schedule, t);
  }
}
