/** What the Michael-Scott queue guarantees in every run. */
module MsQueueTheorems {
  import opened Basics
  import opened Histories
  import opened CountedPointers
  import opened MsQueue
  import opened MsQueueInvariant
  import opened MsQueueSteps

  // ---------------------------------------------------------------- every word fits 64 bits

  predicate ThenFits(k: Then) {
    match k
    case PushAgain(_, n, p) => n < POINTER_SPAN && p.Fits()
    case PopAgain(p) => p.Fits()
    case ReleaseHead(h) => h.Fits()
    case ReleaseNext(_, _) => true
    case Finish(_, _) => true
  }

  predicate LocalFits(l: Local) {
    match l
    case PushLoadTail(_, n) => n < POINTER_SPAN
    case PushAcquire(_, n, p) => n < POINTER_SPAN && p.Fits()
    case PushLink(_, n, p) => n < POINTER_SPAN && p.Fits()
    case PushSwing(_, n, p) => n < POINTER_SPAN && p.Fits()
    case PushLoadNext(_, n, p) => n < POINTER_SPAN && p.Fits()
    case PushHelp(_, n, p, next) => n < POINTER_SPAN && p.Fits() && next.Fits()
    case PopAcquire(p) => p.Fits()
    case PopLoadTail(h) => h.Fits()
    case PopLoadNext(h, tl) => h.Fits() && tl.Fits()
    case PopHelp(h, tl, next) => h.Fits() && tl.Fits() && next.Fits()
    case PopSwing(h, next) => h.Fits() && next.Fits()
    case PopTake(h, next, _) => h.Fits() && next.Fits()
    case Detach(c, _, k) => c.Fits() && ThenFits(k)
    case Release(_, k) => ThenFits(k)
    case Delete(_, k) => ThenFits(k)
    case _ => true
  }

  /** Every counted pointer in memory or in a register fits its word, so comparing pairs is comparing words. */
  ghost predicate WordsFit(s: State) {
    && s.head.Fits() && s.tail.Fits()
    && (forall a | a in s.heap :: s.heap[a].next.Fits())
    && (forall t | 0 <= t < |s.threads| :: LocalFits(s.threads[t]))
  }

  lemma PushWordsKeep(s: State, c: Choice)
    requires WordsFit(s) && c.t < |s.threads| && LocalFits(s.threads[c.t])
    requires var l := s.threads[c.t];
      l.PushLoadTail? || l.PushAcquire? || l.PushLink? || l.PushSwing? || l.PushLoadNext? || l.PushHelp?
    ensures WordsFit(Step(s, c))
  {
  }

  lemma PopWordsKeep(s: State, c: Choice)
    requires WordsFit(s) && c.t < |s.threads| && LocalFits(s.threads[c.t])
    requires var l := s.threads[c.t];
      l.PopLoadHead? || l.PopAcquire? || l.PopLoadTail? || l.PopLoadNext? || l.PopHelp? || l.PopSwing? || l.PopTake?
    ensures WordsFit(Step(s, c))
  {
  }

  lemma OtherWordsKeep(s: State, c: Choice)
    requires WordsFit(s) && c.t < |s.threads| && LocalFits(s.threads[c.t])
    requires var l := s.threads[c.t]; l.Idle? || l.Detach? || l.Release? || l.Delete? || l.Exit?
    ensures WordsFit(Step(s, c))
  {
  }

  lemma WordsKeep(s: State, c: Choice)
    requires WordsFit(s)
    ensures WordsFit(Step(s, c))
  {
    if c.t < |s.threads| {
      assert LocalFits(s.threads[c.t]);
      match s.threads[c.t] {
        case Idle | Detach(_, _, _) | Release(_, _) | Delete(_, _) | Exit(_, _) => OtherWordsKeep(s, c);
        case PushLoadTail(_, _) | PushAcquire(_, _, _) | PushLink(_, _, _) | PushSwing(_, _, _)
           | PushLoadNext(_, _, _) | PushHelp(_, _, _, _) => PushWordsKeep(s, c);
        case _ => PopWordsKeep(s, c);
      }
    }
  }

  // ---------------------------------------------------------------- every run

  ghost predicate Good(s: State) {
    Inv(s) && WordsFit(s)
  }

  lemma InitGood(threads: nat, dummy: Addr)
    requires threads < COUNT_SPAN && 0 < dummy < POINTER_SPAN
    ensures Good(Init(threads, dummy))
  {
    var s := Init(threads, dummy);
    forall a: Addr | a != 0 ensures Balanced(s, a) {
      AllIdleTotals(s.threads, Refs, a);
      AllIdleTotals(s.threads, Units, a);
      AllIdleTotals(s.threads, Counts, a);
      AllIdleTotals(s.threads, Dooms, a);
    }
  }

  lemma TickKeeps(s: State)
    requires Inv(s)
    ensures Inv(s.(clock := s.clock + 1))
  {
    hide Total, TokensOf;
    var s' := s.(clock := s.clock + 1);
    forall a: Addr | a != 0 ensures Balanced(s', a) {
      assert Balanced(s, a);
    }
    forall t | 0 <= t < |s'.threads| ensures LocalOk(s', s'.threads[t]) {
      assert LocalOk(s, s.threads[t]);
    }
  }

  lemma StepKeepsInv(s: State, c: Choice)
    requires Inv(s) && s.head.Fits() && s.tail.Fits() && Modest(s)
    ensures Inv(Step(s, c))
  {
    hide Inv, Modest;
    if c.t >= |s.threads| {
      TickKeeps(s);
    } else {
      match s.threads[c.t]
      case Idle => IdleKeeps(s, c.t, c);
      case PushLoadTail(_, _) => PushLoadTailKeeps(s, c.t);
      case PushAcquire(_, _, _) => PushAcquireKeeps(s, c.t);
      case PushLink(_, _, _) => PushLinkKeeps(s, c.t);
      case PushSwing(_, _, _) => PushSwingKeeps(s, c.t);
      case PushLoadNext(_, _, _) => PushLoadNextKeeps(s, c.t);
      case PushHelp(_, _, _, _) => PushHelpKeeps(s, c.t);
      case PopLoadHead => PopLoadHeadKeeps(s, c.t);
      case PopAcquire(_) => PopAcquireKeeps(s, c.t);
      case PopLoadTail(_) => PopLoadTailKeeps(s, c.t);
      case PopLoadNext(_, _) => PopLoadNextKeeps(s, c.t);
      case PopHelp(_, _, _) => PopHelpKeeps(s, c.t);
      case PopSwing(_, _) => PopSwingKeeps(s, c.t);
      case PopTake(_, _, _) => PopTakeKeeps(s, c.t);
      case Detach(_, _, _) => DetachKeeps(s, c.t);
      case Release(_, _) => ReleaseKeeps(s, c.t);
      case Delete(_, _) => DeleteKeeps(s, c.t);
      case Exit(_, _) => ExitKeeps(s, c.t);
    }
  }

  lemma ModestStepKeeps(s: State, c: Choice)
    requires Good(s) && Modest(s)
    ensures Good(Step(s, c)) && Step(s, c).clock == s.clock + 1
  {
    hide Inv, Modest;
    WordsKeep(s, c);
    StepKeepsInv(s, c);
  }

  /** Fewer than 2^60 steps cannot acquire any node that often. */
  lemma ShortIsModest(s: State)
    requires Inv(s) && s.clock < ONE_COUNTER
    ensures Modest(s)
  {
    hide Total;
    forall a | a in s.heap ensures Debt(s, a) < ONE_COUNTER {
      assert a != 0;
      assert Balanced(s, a);
    }
  }

  lemma StepKeeps(s: State, c: Choice)
    requires Good(s) && s.clock < ONE_COUNTER
    ensures Good(Step(s, c)) && Step(s, c).clock == s.clock + 1
  {
    hide Inv;
    ShortIsModest(s);
    ModestStepKeeps(s, c);
  }

  ghost predicate AlwaysModest(s: State, schedule: seq<Choice>) {
    forall k {:trigger schedule[..k]} | 0 <= k < |schedule| :: Modest(Run(s, schedule[..k]))
  }

  lemma {:induction false} RunKeeps(s: State, schedule: seq<Choice>)
    requires Good(s) && AlwaysModest(s, schedule)
    ensures Good(Run(s, schedule)) && Run(s, schedule).clock == s.clock + |schedule|
    decreases |schedule|
  {
    hide Good, Modest, Step;
    if schedule != [] {
      var front := schedule[..|schedule| - 1];
      assert forall k | 0 <= k < |front| :: front[..k] == schedule[..k];
      RunKeeps(s, front);
      ModestStepKeeps(Run(s, front), schedule[|schedule| - 1]);
    }
  }

  /** A run of at most 2^60 steps is modest. */
  lemma {:induction false} ShortRunKeeps(s: State, schedule: seq<Choice>)
    requires Good(s) && s.clock + |schedule| <= ONE_COUNTER
    ensures AlwaysModest(s, schedule)
    ensures Good(Run(s, schedule)) && Run(s, schedule).clock == s.clock + |schedule|
    decreases |schedule|
  {
    hide Modest, Step, Inv;
    if schedule != [] {
      var front := schedule[..|schedule| - 1];
      ShortRunKeeps(s, front);
      StepKeeps(Run(s, front), schedule[|schedule| - 1]);
      ShortIsModest(Run(s, front));
      forall k {:trigger schedule[..k]} | 0 <= k < |schedule| ensures Modest(Run(s, schedule[..k])) {
        assert k < |front| ==> front[..k] == schedule[..k];
      }
    }
  }

  lemma HistoryWitness(s: State)
    requires HistoryOk(s)
    ensures Witness(Fifo, [], s.hist)
  {
    forall t: nat ensures !PhaseOf(s.hist, t).Malformed? {
      assert PhaseOf(s.hist, t) == if t < |s.threads| then PhaseAt(s.threads[t]) else Quiet;
    }
  }

  /**
   Every run of fewer than 2^16 threads is a linearizable FIFO queue, as long as no node carries 2^60
   acquisitions at a time.
   */
  lemma LinearizableQueue(threads: nat, dummy: Addr, schedule: seq<Choice>)
    requires threads < COUNT_SPAN && 0 < dummy < POINTER_SPAN && AlwaysModest(Init(threads, dummy), schedule)
    ensures Linearizable(Fifo, [], Observed(Run(Init(threads, dummy), schedule).hist))
  {
    hide Run, Modest;
    var s := Run(Init(threads, dummy), schedule);
    InitGood(threads, dummy);
    RunKeeps(Init(threads, dummy), schedule);
    hide LocalsOk, AllBalanced, ChainOk, TakersDiffer, WordsFit, HistoryOk;
    HistoryWitness(s);
  }

  /** The address the thread's next step dereferences, 0 when it touches none. */
  function Dereferences(l: Local): Addr {
    match l
    case PushLink(_, _, p) => p.ptr
    case PushLoadNext(_, _, p) => p.ptr
    case PopLoadNext(h, _) => h.ptr
    case PopTake(_, next, _) => next.ptr
    case Detach(c, _, _) => c.ptr
    case Release(n, _) => n
    case Delete(n, _) => n
    case _ => 0
  }

  /**
   No run touches a node that is not allocated, and none takes or deletes an element or a node twice:
   whatever the next step of any thread dereferences is a live node, a node about to be deleted is out
   of everyone else's reach, and an element about to be moved out is still there for this thread only.
   */
  lemma MemorySafe(threads: nat, dummy: Addr, schedule: seq<Choice>, t: nat)
    requires threads < COUNT_SPAN && 0 < dummy < POINTER_SPAN && t < threads
    requires AlwaysModest(Init(threads, dummy), schedule) && Modest(Run(Init(threads, dummy), schedule))
    ensures var s := Run(Init(threads, dummy), schedule);
      && !s.fault && |s.threads| == threads
      && (Dereferences(s.threads[t]) != 0 ==> Dereferences(s.threads[t]) in s.heap)
      && (s.threads[t].Delete? ==>
            && s.threads[t].node !in s.chain && s.threads[t].node != s.tail.ptr
            && forall u | 0 <= u < threads && u != t ::
                 Ignores(s.threads[u], s.threads[t].node) && Dereferences(s.threads[u]) != s.threads[t].node)
      && (s.threads[t].PopTake? ==>
            && s.threads[t].next.ptr in s.heap
            && s.heap[s.threads[t].next.ptr].value == Some(s.threads[t].expected))
  {
    var s := Run(Init(threads, dummy), schedule);
    InitGood(threads, dummy);
    RunKeeps(Init(threads, dummy), schedule);
    ThreadCount(Init(threads, dummy), schedule);
    assert LocalOk(s, s.threads[t]);
    if s.threads[t].Delete? {
      var a := s.threads[t].node;
      DoomedIsFree(s, t);
      forall u | 0 <= u < threads && u != t
        ensures Ignores(s.threads[u], a) && Dereferences(s.threads[u]) != a
      {
        assert LocalOk(s, s.threads[u]);
        TotalCovers(s.threads, u, u, Refs, a);
        TotalCovers(s.threads, u, u, Units, a);
        TotalCovers(s.threads, t, u, Dooms, a);
      }
    }
  }

  lemma {:induction false} ThreadCount(s: State, schedule: seq<Choice>)
    ensures |Run(s, schedule).threads| == |s.threads|
    decreases |schedule|
  {
    hide Step;
    if schedule != [] {
      ThreadCount(s, schedule[..|schedule| - 1]);
    }
  }

  /** The signed 64-bit `internal_count` never overflows. */
  lemma CountsFit(s: State, a: Addr)
    requires Good(s) && Modest(s) && a in s.heap
    ensures -0x8000_0000_0000_0000 <= s.heap[a].internal < 0x8000_0000_0000_0000
  {
    assert Balanced(s, a);
    FewRefs(s, a);
    TotalNonNegative(s.threads, Refs, a);
    TotalNonNegative(s.threads, Units, a);
    CountsAtLeast(s.threads, a);
  }

  lemma {:induction false} CountsAtLeast(threads: seq<Local>, a: Addr)
    ensures Total(threads, Counts, a) >= -Total(threads, Units, a)
  {
    if threads != [] {
      CountsAtLeast(threads[..|threads| - 1], a);
    }
  }
}
