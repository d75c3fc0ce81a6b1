/** Progress of the Michael-Scott queue: an operation left alone finishes, two operations need not. */
module MsQueueProgress {
  import opened Basics
  import opened Histories
  import opened CountedPointers
  import opened MsQueue
  import opened MsQueueInvariant
  import opened MsQueueSteps
  import opened MsQueueTheorems
  import opened MsQueueReclamation

  predicate Lagging(s: State)
    requires |s.chain| > 0
  {
    s.tail.ptr != Last(s)
  }

  /** Steps `TryPop` still needs from its acquisition loop when nobody interferes. */
  function PopBudget(s: State, seen: CountedPtr): nat
    requires |s.chain| > 0
  {
    (if Lagging(s) then 19 else 10) + (if s.head == seen then 0 else 1)
  }

  function PushBudget(s: State, seen: CountedPtr): nat
    requires |s.chain| > 0
  {
    (if Lagging(s) then 13 else 6) + (if s.tail == seen then 0 else 1)
  }

  function ThenBudget(s: State, k: Then): nat
    requires |s.chain| > 0
  {
    match k
    case Finish(_, _) => 1
    case ReleaseNext(_, _) => 3
    case PopAgain(seen) => PopBudget(s, seen)
    case ReleaseHead(h) => PopBudget(s, h) + 2
    case PushAgain(_, _, seen) => PushBudget(s, seen)
  }

  predicate HasNext(s: State, a: Addr) {
    a in s.heap && s.heap[a].next.ptr != 0
  }

  function PopSwingBudget(s: State, h: CountedPtr): nat
    requires |s.chain| > 0
  {
    if s.head == h then 7 else PopBudget(s, h) + 3
  }

  function PopHelpBudget(s: State, h: CountedPtr, tl: CountedPtr): nat
    requires |s.chain| > 0
  {
    if s.tail == tl then 16 else PopBudget(s, h) + 3
  }

  function PopLoadNextBudget(s: State, h: CountedPtr, tl: CountedPtr): nat
    requires |s.chain| > 0
  {
    if h.ptr != tl.ptr then PopSwingBudget(s, h) + 1
    else if HasNext(s, h.ptr) then PopHelpBudget(s, h, tl) + 1
    else 4
  }

  function PushHelpBudget(s: State, seen: CountedPtr): nat
    requires |s.chain| > 0
  {
    if s.tail == seen then 10 else PushBudget(s, seen) + 3
  }

  /** How many steps the operation at `l` still takes if its thread runs alone. */
  function Budget(s: State, l: Local): nat
    requires |s.chain| > 0
  {
    match l
    case Idle => 0
    case Exit(_, _) => 1
    case Delete(_, k) => ThenBudget(s, k) + 1
    case Release(_, k) => ThenBudget(s, k) + 2
    case Detach(_, _, k) => ThenBudget(s, k) + 2
    case PushLoadTail(_, _) => PushBudget(s, s.tail) + 1
    case PushAcquire(_, _, seen) => PushBudget(s, seen)
    case PushLink(_, _, seen) => if HasNext(s, seen.ptr) then PushHelpBudget(s, seen) + 2 else 5
    case PushSwing(_, _, _) => 4
    case PushLoadNext(_, _, seen) => PushHelpBudget(s, seen) + 1
    case PushHelp(_, _, seen, _) => PushHelpBudget(s, seen)
    case PopLoadHead => PopBudget(s, s.head) + 1
    case PopAcquire(seen) => PopBudget(s, seen)
    case PopLoadTail(h) => PopLoadNextBudget(s, h, s.tail) + 1
    case PopLoadNext(h, tl) => PopLoadNextBudget(s, h, tl)
    case PopHelp(h, tl, _) => PopHelpBudget(s, h, tl)
    case PopSwing(h, _) => PopSwingBudget(s, h)
    case PopTake(_, _, _) => 6
  }

  ghost predicate Spends(s: State, s': State, t: nat)
    requires t < |s.threads|
  {
    |s.chain| > 0 && |s'.chain| > 0 && t < |s'.threads| && Budget(s', s'.threads[t]) < Budget(s, s.threads[t])
  }

  /** In a list whose tail lags, the tail has a successor; otherwise it has none. */
  lemma TailSuccessor(s: State)
    requires ChainOk(s)
    ensures s.tail.ptr in s.heap && (HasNext(s, s.tail.ptr) <==> Lagging(s))
    ensures s.head.ptr in s.heap
  {
  }

  lemma PushSpends(s: State, c: Choice)
    requires ChainOk(s) && c.t < |s.threads| && LocalOk(s, s.threads[c.t])
    requires var l := s.threads[c.t]; l.PushLoadTail? || l.PushAcquire? || l.PushSwing? || l.PushLoadNext?
    ensures Spends(s, Step(s, c), c.t)
  {
    TailSuccessor(s);
  }

  lemma PushLinkSpends(s: State, c: Choice)
    requires ChainOk(s) && c.t < |s.threads| && LocalOk(s, s.threads[c.t]) && s.threads[c.t].PushLink?
    ensures Spends(s, Step(s, c), c.t)
  {
    var p := s.threads[c.t].seen.ptr;
    assert s.heap[p].next.ptr == 0 ==> p == Last(s);
  }

  lemma PushHelpSpends(s: State, c: Choice)
    requires ChainOk(s) && c.t < |s.threads| && LocalOk(s, s.threads[c.t]) && s.threads[c.t].PushHelp?
    ensures Spends(s, Step(s, c), c.t)
  {
    var l := s.threads[c.t];
    TailSuccessor(s);
    if s.tail == l.seen {
      TailReachesLast(s, StepPushHelp(s, c.t), l.seen.ptr, l.next);
    }
  }

  lemma PopLoadsSpend(s: State, c: Choice)
    requires ChainOk(s) && c.t < |s.threads| && LocalOk(s, s.threads[c.t])
    requires var l := s.threads[c.t]; l.PopLoadHead? || l.PopLoadTail? || l.PopTake?
    ensures Spends(s, Step(s, c), c.t)
  {
  }

  lemma PopLoadNextSpends(s: State, c: Choice)
    requires ChainOk(s) && c.t < |s.threads| && LocalOk(s, s.threads[c.t]) && s.threads[c.t].PopLoadNext?
    ensures Spends(s, Step(s, c), c.t)
  {
    assert Step(s, c) == StepPopLoadNext(s, c.t);
    assert HeldOk(s, s.threads[c.t].head.ptr);
    hide Step, ChainOk, LocalOk, Lagging;
  }

  lemma PopAcquireSpends(s: State, c: Choice)
    requires ChainOk(s) && c.t < |s.threads| && LocalOk(s, s.threads[c.t]) && s.threads[c.t].PopAcquire?
    ensures Spends(s, Step(s, c), c.t)
  {
    TailSuccessor(s);
  }

  lemma PopSwingSpends(s: State, c: Choice)
    requires ChainOk(s) && c.t < |s.threads| && LocalOk(s, s.threads[c.t]) && s.threads[c.t].PopSwing?
    ensures Spends(s, Step(s, c), c.t)
  {
    assert Step(s, c) == StepPopSwing(s, c.t);
    hide Step, ChainOk, LocalOk, Spends;
    if s.head == s.threads[c.t].head {
      PopSwingWins(s, c.t);
    } else {
      PopSwingLoses(s, c.t);
    }
  }

  lemma PopSwingWins(s: State, t: nat)
    requires ChainOk(s) && t < |s.threads| && LocalOk(s, s.threads[t]) && s.threads[t].PopSwing? && s.head == s.threads[t].head
    ensures Spends(s, StepPopSwing(s, t), t)
  {
    HeadAdvances(s, t);
    hide ChainOk, LocalOk, Last, Lagging;
  }

  lemma PopSwingLoses(s: State, t: nat)
    requires ChainOk(s) && t < |s.threads| && LocalOk(s, s.threads[t]) && s.threads[t].PopSwing? && s.head != s.threads[t].head
    ensures Spends(s, StepPopSwing(s, t), t)
  {
    hide HasNext;
  }

  lemma PopHelpSpends(s: State, c: Choice)
    requires ChainOk(s) && c.t < |s.threads| && LocalOk(s, s.threads[c.t]) && s.threads[c.t].PopHelp?
    ensures Spends(s, Step(s, c), c.t)
  {
    var l := s.threads[c.t];
    TailSuccessor(s);
    if s.tail == l.tail {
      TailReachesLast(s, StepPopHelp(s, c.t), l.head.ptr, l.next);
    }
  }

  /** A release leaves the list and the two words alone, so what follows it costs what it did. */
  lemma ReleaseSpends(s: State, c: Choice)
    requires ChainOk(s) && c.t < |s.threads| && LocalOk(s, s.threads[c.t])
    requires var l := s.threads[c.t]; l.Detach? || l.Release? || l.Delete?
    requires Dereferences(s.threads[c.t]) in s.heap
    ensures Spends(s, Step(s, c), c.t)
  {
    var s' := Step(s, c);
    var k := s.threads[c.t].k;
    assert s'.chain == s.chain && s'.head == s.head && s'.tail == s.tail;
    var l' := s'.threads[c.t];
    assert !s.threads[c.t].Delete? && l'.Delete? ==> l'.k == k;
    assert s.threads[c.t].Delete? || !l'.Delete? ==> l' == Resume(k);
    hide Step, ChainOk, LocalOk, Lagging;
    assert ThenBudget(s', k) == ThenBudget(s, k);
  }

  lemma ExitSpends(s: State, c: Choice)
    requires ChainOk(s) && c.t < |s.threads| && s.threads[c.t].Exit?
    ensures Spends(s, Step(s, c), c.t)
  {
  }

  /** Every step of a running operation spends budget when its thread runs alone. */
  lemma SoloSpends(s: State, c: Choice)
    requires Good(s) && Modest(s) && c.t < |s.threads| && !s.threads[c.t].Idle?
    ensures |s.chain| > 0 && Spends(s, Step(s, c), c.t)
  {
    assert LocalOk(s, s.threads[c.t]);
    if s.threads[c.t].Delete? {
      DoomedIsFree(s, c.t);
    }
    assert ChainOk(s);
    hide Good, ChainOk, LocalOk, Step, Spends;
    match s.threads[c.t] {
      case PushLoadTail(_, _) | PushAcquire(_, _, _) | PushSwing(_, _, _) | PushLoadNext(_, _, _) => PushSpends(s, c);
      case PushLink(_, _, _) => PushLinkSpends(s, c);
      case PushHelp(_, _, _, _) => PushHelpSpends(s, c);
      case PopAcquire(_) => PopAcquireSpends(s, c);
      case PopHelp(_, _, _) => PopHelpSpends(s, c);
      case PopSwing(_, _) => PopSwingSpends(s, c);
      case PopLoadNext(_, _) => PopLoadNextSpends(s, c);
      case PopLoadHead | PopLoadTail(_) | PopTake(_, _, _) => PopLoadsSpend(s, c);
      case Detach(_, _, _) | Release(_, _) | Delete(_, _) => ReleaseSpends(s, c);
      case Exit(_, _) => ExitSpends(s, c);
    }
  }

  lemma SoloStep(s: State, c: Choice)
    requires Good(s) && Modest(s) && c.t < |s.threads| && !s.threads[c.t].Idle?
    ensures |s.chain| > 0 && Spends(s, Step(s, c), c.t) && Good(Step(s, c))
    ensures |Step(s, c).threads| == |s.threads| && Step(s, c).clock == s.clock + 1
  {
    hide Good, Step, Spends;
    SoloSpends(s, c);
    ModestStepKeeps(s, c);
  }

  /** No node carries 2^60 acquisitions at the next `limit` steps of the thread. */
  ghost predicate StaysModest(s: State, c: Choice, limit: nat) {
    forall k: nat | k < limit :: Modest(Run(s, Repeat(c, k)))
  }

  lemma StaysAfter(s: State, c: Choice, limit: nat)
    requires StaysModest(s, c, limit) && limit > 0
    ensures Modest(s) && StaysModest(Step(s, c), c, limit - 1)
  {
    hide Modest, Step;
    RepeatRuns(s, c, 0);
    assert Modest(Run(s, Repeat(c, 0)));
    forall k: nat | k < limit - 1 ensures Modest(Run(Step(s, c), Repeat(c, k))) {
      RepeatFront(c, k);
      RunAppend(s, Repeat(c, 1), Repeat(c, k));
      assert Modest(Run(s, Repeat(c, k + 1)));
    }
  }

  /** The thread returns from its operation within `Budget` steps of its own. */
  lemma {:induction false} SoloFinishes(s: State, c: Choice, limit: nat) returns (n: nat)
    requires Good(s) && c.t < |s.threads| && StaysModest(s, c, limit)
    requires |s.chain| > 0 && Budget(s, s.threads[c.t]) <= limit
    ensures n <= Budget(s, s.threads[c.t])
    ensures |Run(s, Repeat(c, n)).threads| == |s.threads| && Run(s, Repeat(c, n)).threads[c.t] == Idle
    decreases Budget(s, s.threads[c.t])
  {
    hide Good, Step, Run, Repeat, Budget, StaysModest, Modest;
    if s.threads[c.t].Idle? {
      n := 0;
      RepeatRuns(s, c, 0);
    } else {
      BudgetPositive(s, s.threads[c.t]);
      StaysAfter(s, c, limit);
      SoloStep(s, c);
      var m := SoloFinishes(Step(s, c), c, limit - 1);
      n := m + 1;
      RepeatFront(c, m);
      RepeatRuns(s, c, 0);
      RunAppend(s, Repeat(c, 1), Repeat(c, m));
    }
  }

  lemma BudgetPositive(s: State, l: Local)
    requires |s.chain| > 0 && !l.Idle?
    ensures Budget(s, l) > 0
  {
  }

  lemma RepeatFront(c: Choice, n: nat)
    ensures Repeat(c, n + 1) == Repeat(c, 1) + Repeat(c, n)
  {
    RepeatAppend(c, 1, n);
  }

  /** Whatever the other threads left behind, an operation running alone returns within 25 steps. */
  lemma ObstructionFree(threads: nat, dummy: Addr, schedule: seq<Choice>, c: Choice) returns (n: nat)
    requires threads < COUNT_SPAN && 0 < dummy < POINTER_SPAN && c.t < threads
    requires AlwaysModest(Init(threads, dummy), schedule + Repeat(c, 25))
    ensures n <= 25
    ensures var s := Run(Init(threads, dummy), schedule + Repeat(c, n));
      |s.threads| == threads && s.threads[c.t] == Idle
  {
    hide Good, Step, Run, Repeat, Budget, Modest, AlwaysModest, StaysModest;
    var s := Run(Init(threads, dummy), schedule);
    InitGood(threads, dummy);
    ModestThroughout(Init(threads, dummy), schedule, c, 25);
    RunKeeps(Init(threads, dummy), schedule);
    ThreadCount(Init(threads, dummy), schedule);
    GoodChain(s);
    AtMost25(s, s.threads[c.t]);
    n := SoloFinishes(s, c, 25);
    RunAppend(Init(threads, dummy), schedule, Repeat(c, n));
  }

  /** The `k`-th state on the way. */
  lemma ModestAt(s: State, all: seq<Choice>, k: nat)
    requires AlwaysModest(s, all) && k < |all|
    ensures Modest(Run(s, all[..k]))
  {
  }

  lemma ModestBefore(s: State, first: seq<Choice>, second: seq<Choice>)
    requires AlwaysModest(s, first + second)
    ensures AlwaysModest(s, first)
  {
    hide Modest, Run;
    forall k | 0 <= k < |first| ensures Modest(Run(s, first[..k])) {
      ModestAt(s, first + second, k);
      assert (first + second)[..k] == first[..k];
    }
  }

  lemma ModestSolo(s: State, schedule: seq<Choice>, c: Choice, limit: nat, k: nat)
    requires AlwaysModest(s, schedule + Repeat(c, limit)) && k < limit
    ensures Modest(Run(Run(s, schedule), Repeat(c, k)))
  {
    hide Modest, Run, AlwaysModest, Repeat;
    RepeatAppend(c, k, limit - k);
    RepeatAppend(c, 0, limit);
    ModestAt(s, schedule + Repeat(c, limit), |schedule| + k);
    assert (schedule + (Repeat(c, k) + Repeat(c, limit - k)))[..|schedule| + k] == schedule + Repeat(c, k);
    RunAppend(s, schedule, Repeat(c, k));
  }

  lemma ModestThroughout(s: State, schedule: seq<Choice>, c: Choice, limit: nat)
    requires AlwaysModest(s, schedule + Repeat(c, limit))
    ensures AlwaysModest(s, schedule) && StaysModest(Run(s, schedule), c, limit)
  {
    hide Modest, Run, AlwaysModest, Repeat;
    ModestBefore(s, schedule, Repeat(c, limit));
    forall k: nat | k < limit ensures Modest(Run(Run(s, schedule), Repeat(c, k))) {
      ModestSolo(s, schedule, c, limit, k);
    }
  }

  lemma GoodChain(s: State)
    requires Good(s)
    ensures |s.chain| > 0
  {
  }

  lemma AtMost25(s: State, l: Local)
    requires |s.chain| > 0
    ensures Budget(s, l) <= 25
  {
  }

  // ---------------------------------------------------------------- two operations can starve each other

  /**
   Two threads inside `TryPop` on a non-empty queue: `t` is about to swing the head it acquired, `u`
   is about to acquire it too.
   */
  ghost predicate Duel(s: State, t: nat, u: nat, d: Addr, next: CountedPtr) {
    && {t, u} == {0, 1} && |s.threads| == 2 && !s.fault
    && s.head.ptr == d && s.head.count < COUNT_SPAN && s.tail.ptr != d
    && s.threads[t] == PopSwing(s.head, next)
    && s.threads[u] == PopAcquire(s.head)
    && d in s.heap && s.heap[d].next == next
  }

  /** Three steps of `u`, then three of `t`. */
  function DuelRound(t: nat, u: nat): seq<Choice> {
    Repeat(Choice(u, TryPop, 0), 3) + Repeat(Choice(t, TryPop, 0), 3)
  }

  lemma RunThree(s: State, c: Choice)
    ensures Run(s, Repeat(c, 3)) == Step(Step(Step(s, c), c), c) && |Repeat(c, 3)| == 3
  {
    hide Step;
    RepeatRuns(s, c, 0);
    RepeatRuns(s, c, 1);
    RepeatRuns(s, c, 2);
    RepeatAppend(c, 0, 3);
  }

  /** `u` acquires, so the count in the head changes and `t` misses its swing and has to start over. */
  lemma DuelAcquires(s: State, t: nat, u: nat, d: Addr, next: CountedPtr)
    requires Duel(s, t, u, d, next)
    ensures var cu := Choice(u, TryPop, 0); var s' := Step(Step(Step(s, cu), cu), cu);
      && |s'.threads| == 2 && !s'.fault && s'.hist == s.hist
      && s'.head == s.head.Increased() && s'.tail == s.tail
      && s'.threads[u] == PopSwing(s'.head, next) && s'.threads[t] == PopSwing(s.head, next)
      && d in s'.heap && s'.heap[d].next == next && s'.heap[d].internal == s.heap[d].internal
  {
    var cu := Choice(u, TryPop, 0);
    var s1 := Step(s, cu);
    assert s1.threads[u] == PopLoadTail(s1.head) && s1.heap[d].next == next;
    var s2 := Step(s1, cu);
    assert s2.threads[u] == PopLoadNext(s1.head, s.tail);
  }

  lemma DuelMisses(s: State, t: nat, u: nat, d: Addr, next: CountedPtr, stale: CountedPtr)
    requires {t, u} == {0, 1} && |s.threads| == 2 && !s.fault
    requires s.head == stale.Increased() && stale.Fits() && stale.ptr == d && s.tail.ptr != d
    requires s.threads[u] == PopSwing(s.head, next) && s.threads[t] == PopSwing(stale, next)
    requires d in s.heap && s.heap[d].next == next && s.heap[d].internal != 1
    ensures var ct := Choice(t, TryPop, 0); var s' := Step(Step(Step(s, ct), ct), ct);
      Duel(s', u, t, d, next) && s'.hist == s.hist && s'.heap[d].internal == s.heap[d].internal - 1
  {
    var ct := Choice(t, TryPop, 0);
    var s1 := Step(s, ct);
    assert s1.threads[t] == Release(d, PopAgain(stale)) && s1.heap == s.heap;
    var s2 := Step(s1, ct);
    assert s2.threads[t] == PopAcquire(stale) && s2.head == s.head;
  }

  lemma OneRound(s: State, t: nat, u: nat, d: Addr, next: CountedPtr)
    requires Duel(s, t, u, d, next) && d < POINTER_SPAN && s.heap[d].internal != 1
    ensures var s' := Run(s, DuelRound(t, u));
      Duel(s', u, t, d, next) && s'.hist == s.hist && s'.heap[d].internal == s.heap[d].internal - 1
  {
    hide Step;
    var cu, ct := Choice(u, TryPop, 0), Choice(t, TryPop, 0);
    DuelAcquires(s, t, u, d, next);
    DuelMisses(Step(Step(Step(s, cu), cu), cu), t, u, d, next, s.head);
    RunThree(s, cu);
    RunThree(Run(s, Repeat(cu, 3)), ct);
    RunAppend(s, Repeat(cu, 3), Repeat(ct, 3));
  }

  function Rounds(t: nat, u: nat, n: nat): seq<Choice>
    decreases n
  {
    if n == 0 then [] else DuelRound(t, u) + Rounds(u, t, n - 1)
  }

  lemma {:induction false} RoundsLength(t: nat, u: nat, n: nat)
    ensures |Rounds(t, u, n)| == 6 * n
    decreases n
  {
    if n > 0 {
      RoundsLength(u, t, n - 1);
      RunThree(Init(0, 0), Choice(u, TryPop, 0));
      RunThree(Init(0, 0), Choice(t, TryPop, 0));
    }
  }

  /** `n` rounds later both operations are still running and nothing has been observed. */
  lemma {:induction false} Starve(s: State, t: nat, u: nat, d: Addr, next: CountedPtr, n: nat)
    requires Duel(s, t, u, d, next) && d < POINTER_SPAN && s.heap[d].internal > n + 1
    ensures var s' := Run(s, Rounds(t, u, n));
      && s'.hist == s.hist && |s'.threads| == 2 && s'.threads[0] != Idle && s'.threads[1] != Idle
      && d in s'.heap && s'.heap[d].internal == s.heap[d].internal - n
    decreases n
  {
    hide Step, DuelRound;
    if n > 0 {
      OneRound(s, t, u, d, next);
      var s1 := Run(s, DuelRound(t, u));
      Starve(s1, u, t, d, next, n - 1);
      RunAppend(s, DuelRound(t, u), Rounds(u, t, n - 1));
    }
  }

  /** Two threads; the counted words and the dummy's successor spelled out. */
  ghost predicate Pair(s: State, l0: Local, l1: Local, head: CountedPtr, tail: CountedPtr, chain: seq<Addr>) {
    && s.threads == [l0, l1] && !s.fault && s.head == head && s.tail == tail
    && s.chain == chain && |s.items| == |chain| - 1
  }

  /** Thread 0 pushes one element. */
  lemma DuelPush(s: State, d: Addr, c: Choice)
    requires Pair(s, Idle, Idle, CountedPtr(d, 1), CountedPtr(d, 1), [d]) && NodeAt(s, d, 2 * ONE_COUNTER, NULL)
    requires c.t == 0 && c.op.Push? && 0 < c.addr < POINTER_SPAN && c.addr != d && c.addr !in s.heap
    ensures var s' := Run(s, Repeat(c, 7)); var n := CountedPtr(c.addr, 1);
      Pair(s', Idle, Idle, CountedPtr(d, 1), n, [d, c.addr]) && NodeAt(s', d, ONE_COUNTER, n)
  {
    var n, v := c.addr, c.op.v;
    var h, tl, tl' := CountedPtr(d, 1), CountedPtr(d, 1), CountedPtr(d, 2);
    var s1 := Step(s, c);
    assert Pair(s1, PushLoadTail(v, n), Idle, h, tl, [d]) && NodeAt(s1, d, 2 * ONE_COUNTER, NULL) && n in s1.heap;
    var s2 := Step(s1, c);
    assert Pair(s2, PushAcquire(v, n, tl), Idle, h, tl, [d]);
    var s3 := Step(s2, c);
    assert Pair(s3, PushLink(v, n, tl'), Idle, h, tl', [d]) && NodeAt(s3, d, 2 * ONE_COUNTER, NULL) && n in s3.heap;
    DuelPushLinks(s3, d, c);
    hide Step, Pair, NodeAt;
    RepeatRuns(s, c, 0);
    RepeatRuns(s, c, 1);
    RepeatRuns(s, c, 2);
    RepeatRuns(s, c, 3);
    RepeatRuns(s, c, 4);
    RepeatRuns(s, c, 5);
    RepeatRuns(s, c, 6);
  }

  lemma DuelPushLinks(s: State, d: Addr, c: Choice)
    requires c.t == 0 && c.op.Push? && c.addr != d && c.addr in s.heap
    requires Pair(s, PushLink(c.op.v, c.addr, CountedPtr(d, 2)), Idle, CountedPtr(d, 1), CountedPtr(d, 2), [d])
    requires NodeAt(s, d, 2 * ONE_COUNTER, NULL)
    ensures var s' := Step(Step(Step(Step(s, c), c), c), c); var n := CountedPtr(c.addr, 1);
      Pair(s', Idle, Idle, CountedPtr(d, 1), n, [d, c.addr]) && NodeAt(s', d, ONE_COUNTER, n)
  {
    var n, v := c.addr, c.op.v;
    var h, tl, nx := CountedPtr(d, 1), CountedPtr(d, 2), CountedPtr(n, 1);
    var s4 := Step(s, c);
    assert Pair(s4, PushSwing(v, n, tl), Idle, h, tl, [d, n]) && NodeAt(s4, d, 2 * ONE_COUNTER, nx);
    var s5 := Step(s4, c);
    assert Pair(s5, Detach(tl, 0, Finish(Push(v), Pushed)), Idle, h, nx, [d, n]);
    var s6 := Step(s5, c);
    assert Pair(s6, Exit(Push(v), Pushed), Idle, h, nx, [d, n]);
  }

  const P0 := Choice(0, TryPop, 0)
  const P1 := Choice(1, TryPop, 0)

  const ENTER: seq<Choice> := [P0] + [P0] + [P1] + [P1] + [P0] + [P0] + [P0] + [P1]

  lemma EnterRuns(s: State)
    ensures Run(s, ENTER) == Step(Step(Step(Step(Step(Step(Step(Step(s, P0), P0), P1), P1), P0), P0), P0), P1)
  {
    hide Step;
    assert [] + [P0] == [P0];
    RunStep(s, [], P0);
    RunStep(s, [P0], P0);
    RunStep(s, [P0] + [P0], P1);
    RunStep(s, [P0] + [P0] + [P1], P1);
    RunStep(s, [P0] + [P0] + [P1] + [P1], P0);
    RunStep(s, [P0] + [P0] + [P1] + [P1] + [P0], P0);
    RunStep(s, [P0] + [P0] + [P1] + [P1] + [P0] + [P0], P0);
    RunStep(s, [P0] + [P0] + [P1] + [P1] + [P0] + [P0] + [P0], P1);
  }

  lemma DuelEnters(s: State, d: Addr, n: CountedPtr)
    requires Pair(s, Idle, Idle, CountedPtr(d, 1), n, [d, n.ptr]) && NodeAt(s, d, ONE_COUNTER, n)
    ensures var s' := Step(Step(Step(Step(s, P0), P0), P1), P1); var h := CountedPtr(d, 1);
      Pair(s', PopAcquire(h), PopAcquire(h), h, n, [d, n.ptr]) && NodeAt(s', d, ONE_COUNTER, n)
  {
    var h := CountedPtr(d, 1);
    var s1 := Step(s, P0);
    assert Pair(s1, PopLoadHead, Idle, h, n, [d, n.ptr]) && NodeAt(s1, d, ONE_COUNTER, n);
    var s2 := Step(s1, P0);
    assert Pair(s2, PopAcquire(h), Idle, h, n, [d, n.ptr]) && NodeAt(s2, d, ONE_COUNTER, n);
    var s3 := Step(s2, P1);
    assert Pair(s3, PopAcquire(h), PopLoadHead, h, n, [d, n.ptr]) && NodeAt(s3, d, ONE_COUNTER, n);
  }

  /** Both threads enter `TryPop`; thread 0 gets as far as its swing, thread 1 to its acquisition. */
  lemma DuelStarts(s: State, d: Addr, n: CountedPtr)
    requires Pair(s, Idle, Idle, CountedPtr(d, 1), n, [d, n.ptr]) && NodeAt(s, d, ONE_COUNTER, n) && n.ptr != 0 && n.ptr != d
    ensures var s' := Run(s, ENTER); Duel(s', 0, 1, d, n) && s'.heap[d].internal == ONE_COUNTER
  {
    DuelEnters(s, d, n);
    var s4 := Step(Step(Step(Step(s, P0), P0), P1), P1);
    var s5 := Step(s4, P0);
    var h := CountedPtr(d, 2);
    assert Pair(s5, PopLoadTail(h), PopAcquire(CountedPtr(d, 1)), h, n, [d, n.ptr]) && NodeAt(s5, d, ONE_COUNTER, n);
    hide Step;
    DuelStarted(s5, d, n);
    EnterRuns(s);
  }

  lemma DuelStarted(s: State, d: Addr, n: CountedPtr)
    requires Pair(s, PopLoadTail(CountedPtr(d, 2)), PopAcquire(CountedPtr(d, 1)), CountedPtr(d, 2), n, [d, n.ptr])
    requires NodeAt(s, d, ONE_COUNTER, n) && n.ptr != 0 && n.ptr != d
    ensures var s' := Step(Step(Step(s, P0), P0), P1);
      Duel(s', 0, 1, d, n) && s'.heap[d].internal == ONE_COUNTER
  {
    var h := CountedPtr(d, 2);
    var s1 := Step(s, P0);
    assert Pair(s1, PopLoadNext(h, n), PopAcquire(CountedPtr(d, 1)), h, n, [d, n.ptr]) && NodeAt(s1, d, ONE_COUNTER, n);
    var s2 := Step(s1, P0);
    assert Pair(s2, PopSwing(h, n), PopAcquire(CountedPtr(d, 1)), h, n, [d, n.ptr]);
  }

  /**
   The queue is not lock-free: after a 15-step opening, two `TryPop` calls on a queue holding one
   element can be scheduled without either of them (or anything else) returning, for as long as the node they
   fight over has references left to give back: each round costs one of its 2^60.
   */
  lemma NotLockFree(dummy: Addr, node: Addr, v: Item, n: nat) returns (opening: seq<Choice>)
    requires 0 < dummy < POINTER_SPAN && 0 < node < POINTER_SPAN && node != dummy && n < ONE_COUNTER - 1
    ensures |opening| == 15 && |Rounds(0, 1, n)| == 6 * n
    ensures var s, s' := Run(Init(2, dummy), opening), Run(Init(2, dummy), opening + Rounds(0, 1, n));
      && s'.hist == s.hist && |s'.threads| == 2 && s'.threads[0] != Idle && s'.threads[1] != Idle
      && dummy in s'.heap && s'.heap[dummy].internal == ONE_COUNTER - n
  {
    var push := Choice(0, Push(v), node);
    opening := Repeat(push, 7) + ENTER;
    var s0 := Init(2, dummy);
    assert s0.threads == [Idle, Idle];
    DuelPush(s0, dummy, push);
    DuelStarts(Run(s0, Repeat(push, 7)), dummy, CountedPtr(node, 1));
    hide Step, Pair, Init, Rounds;
    RunAppend(s0, Repeat(push, 7), ENTER);
    Starve(Run(s0, opening), 0, 1, dummy, CountedPtr(node, 1), n);
    RunAppend(s0, opening, Rounds(0, 1, n));
    RoundsLength(0, 1, n);
    RepeatAppend(push, 0, 7);
  }

  // ---------------------------------------------------------------- what a lost exchange costs

  datatype Word = Head | Tail

  function Content(s: State, w: Word): CountedPtr {
    if w.Head? then s.head else s.tail
  }

  /** What the thread will expect to find in a word at its next exchange there. */
  function Expected(l: Local, w: Word): Option<CountedPtr> {
    match l
    case PopAcquire(p) => if w.Head? then Some(p) else None
    case PopLoadTail(h) => if w.Head? then Some(h) else None
    case PopLoadNext(h, tl) => Some(if w.Head? then h else tl)
    case PopHelp(_, tl, _) => if w.Tail? then Some(tl) else None
    case PopSwing(h, _) => if w.Head? then Some(h) else None
    case PushAcquire(_, _, p) => if w.Tail? then Some(p) else None
    case PushLink(_, _, p) => if w.Tail? then Some(p) else None
    case PushSwing(_, _, p) => if w.Tail? then Some(p) else None
    case PushLoadNext(_, _, p) => if w.Tail? then Some(p) else None
    case PushHelp(_, _, p, _) => if w.Tail? then Some(p) else None
    case _ => None
  }

  /** The step is an exchange on the word that succeeds: an acquisition, or a swing to another node. */
  predicate Wins(s: State, c: Choice, w: Word) {
    c.t < |s.threads| &&
    match s.threads[c.t]
    case PopAcquire(p) => w.Head? && s.head == p
    case PopSwing(h, _) => w.Head? && s.head == h
    case PushAcquire(_, _, p) => w.Tail? && s.tail == p
    case PushSwing(_, _, p) => w.Tail? && s.tail == p
    case PushHelp(_, _, p, next) => w.Tail? && s.tail == p && next.ptr != 0
    case PopHelp(_, tl, _) => w.Tail? && s.tail == tl
    case _ => false
  }

  /** Nothing else changes a word, and whoever changed it expects something else there from then on. */
  lemma OnlyWinsChange(s: State, c: Choice, w: Word)
    ensures !Wins(s, c, w) ==> Content(Step(s, c), w) == Content(s, w)
    ensures Wins(s, c, w) && Content(s, w).Fits() ==> Expected(Step(s, c).threads[c.t], w) != Some(Content(s, w)) || Step(s, c).fault
  {
  }

  /**
   An exchange on `head_` or `tail_` fails only because another thread's succeeded: if thread `t` has read
   `p` from the word, still expects it there, and would not find it any more, then in between another
   thread acquired the word's node or swung the word.
   */
  lemma {:induction false} LostToAnother(s: State, schedule: seq<Choice>, t: nat, w: Word, p: CountedPtr) returns (k: nat)
    requires t < |s.threads| && p.Fits() && Content(s, w) == p && !Run(s, schedule).fault
    requires forall i {:trigger schedule[..i]} | 0 <= i <= |schedule| ::
      var si := Run(s, schedule[..i]); !si.fault && t < |si.threads| && Expected(si.threads[t], w) == Some(p)
    requires Content(Run(s, schedule), w) != p
    ensures k < |schedule| && schedule[k].t != t && Wins(Run(s, schedule[..k]), schedule[k], w)
    decreases |schedule|
  {
    hide Step, Expected, Wins, Content;
    assert schedule[..|schedule|] == schedule && schedule != [];
    var n := |schedule| - 1;
    var before := Run(s, schedule[..n]);
    if Content(before, w) != p {
      assert forall i | 0 <= i <= n :: schedule[..n][..i] == schedule[..i];
      k := LostToAnother(s, schedule[..n], t, w, p);
    } else {
      k := n;
      OnlyWinsChange(before, schedule[n], w);
      assert Run(s, schedule) == Step(before, schedule[n]);
    }
  }
}
