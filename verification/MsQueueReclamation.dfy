/**
 When the Michael-Scott queue gives memory back.

 The design promises that a node is deleted as soon as nothing refers to it (queue.hpp:14-20).  That
 holds exactly for the nodes none of whose 16-bit external counters ever overflowed; a node that was
 acquired 65535 times through one counter is never deleted, and polling an empty queue is enough.
 */
module MsQueueReclamation {
  import opened Basics
  import opened Histories
  import opened CountedPointers
  import opened MsQueue
  import opened MsQueueInvariant
  import opened MsQueueSteps
  import opened MsQueueTheorems

  ghost predicate Quiescent(s: State) {
    forall t | 0 <= t < |s.threads| :: s.threads[t] == Idle
  }

  /** With every operation finished, the allocated nodes are the list and the nodes a counter overflow lost. */
  lemma QuiescentHeap(s: State, a: Addr)
    requires Good(s) && Quiescent(s) && a in s.heap
    ensures a in s.chain || (s.heap[a].wraps > 0 && s.heap[a].internal == -COUNT_SPAN * s.heap[a].wraps)
  {
    assert a != 0;
    assert Balanced(s, a);
    AllIdleTotals(s.threads, Refs, a);
    AllIdleTotals(s.threads, Units, a);
    AllIdleTotals(s.threads, Counts, a);
    AllIdleTotals(s.threads, Dooms, a);
  }

  lemma OnlyUnwrappedDie(s: State, t: nat)
    requires Good(s) && Modest(s) && t < |s.threads| && s.threads[t].Delete?
    ensures s.threads[t].node in s.heap && s.heap[s.threads[t].node].wraps == 0
  {
    var a := s.threads[t].node;
    assert LocalOk(s, s.threads[t]);
    DoomedIsFree(s, t);
    assert Balanced(s, a);
    ZeroMeansFree(s, a);
  }

  ghost predicate Retains(s: State, s': State, a: Addr)
    requires a in s.heap
  {
    a in s'.heap && s'.heap[a].wraps >= s.heap[a].wraps
  }

  lemma PushRetains(s: State, c: Choice, a: Addr)
    requires a in s.heap && c.t < |s.threads|
    requires var l := s.threads[c.t];
      l.PushLoadTail? || l.PushAcquire? || l.PushLink? || l.PushSwing? || l.PushLoadNext? || l.PushHelp?
    ensures Retains(s, Step(s, c), a)
  {
  }

  lemma PopRetains(s: State, c: Choice, a: Addr)
    requires a in s.heap && c.t < |s.threads|
    requires var l := s.threads[c.t];
      l.PopLoadHead? || l.PopAcquire? || l.PopLoadTail? || l.PopLoadNext? || l.PopHelp? || l.PopSwing? || l.PopTake?
    ensures Retains(s, Step(s, c), a)
  {
  }

  lemma OtherRetains(s: State, c: Choice, a: Addr)
    requires a in s.heap && c.t < |s.threads|
    requires var l := s.threads[c.t]; l.Idle? || l.Detach? || l.Release? || (l.Delete? && l.node != a) || l.Exit?
    ensures Retains(s, Step(s, c), a)
  {
  }

  /** Only the deletion step removes a node, and the overflow tally of a node never shrinks. */
  lemma HeapStays(s: State, c: Choice, a: Addr)
    requires a in s.heap
    requires c.t < |s.threads| && s.threads[c.t].Delete? ==> s.threads[c.t].node != a
    ensures Retains(s, Step(s, c), a)
  {
    if c.t < |s.threads| {
      hide Step;
      match s.threads[c.t] {
        case Idle | Detach(_, _, _) | Release(_, _) | Delete(_, _) | Exit(_, _) => OtherRetains(s, c, a);
        case PushLoadTail(_, _) | PushAcquire(_, _, _) | PushLink(_, _, _) | PushSwing(_, _, _)
           | PushLoadNext(_, _, _) | PushHelp(_, _, _, _) => PushRetains(s, c, a);
        case _ => PopRetains(s, c, a);
      }
    }
  }

  /** No step deletes a node whose counter overflowed. */
  lemma OverflowedStays(s: State, c: Choice, a: Addr)
    requires Good(s) && Modest(s) && a in s.heap && s.heap[a].wraps > 0
    ensures a in Step(s, c).heap && Step(s, c).heap[a].wraps > 0
  {
    hide Good, Step;
    if c.t < |s.threads| && s.threads[c.t].Delete? {
      OnlyUnwrappedDie(s, c.t);
    }
    HeapStays(s, c, a);
  }

  lemma {:induction false} OverflowedForever(s: State, schedule: seq<Choice>, a: Addr)
    requires Good(s) && AlwaysModest(s, schedule) && a in s.heap && s.heap[a].wraps > 0
    ensures a in Run(s, schedule).heap && Run(s, schedule).heap[a].wraps > 0
    decreases |schedule|
  {
    hide Good;
    if schedule != [] {
      var front := schedule[..|schedule| - 1];
      assert forall k | 0 <= k <= |front| :: schedule[..k] == front[..k];
      assert AlwaysModest(s, front) && Modest(Run(s, front));
      OverflowedForever(s, front, a);
      RunKeeps(s, front);
      OverflowedStays(Run(s, front), schedule[|schedule| - 1], a);
    }
  }

  /** A run too short to overflow any counter leaves nothing but the list once all operations return. */
  lemma ShortRunsLeakNothing(threads: nat, dummy: Addr, schedule: seq<Choice>)
    requires threads < COUNT_SPAN && 0 < dummy < POINTER_SPAN
    requires |schedule| < COUNT_SPAN - 2
    requires Quiescent(Run(Init(threads, dummy), schedule))
    ensures var s := Run(Init(threads, dummy), schedule); forall a :: a in s.heap <==> a in s.chain
  {
    var s := Run(Init(threads, dummy), schedule);
    InitGood(threads, dummy);
    ShortRunKeeps(Init(threads, dummy), schedule);
    hide Run, Init;
    forall a | a in s.heap ensures a in s.chain {
      assert a != 0;
      QuiescentHeap(s, a);
      assert Balanced(s, a);
      AllIdleTotals(s.threads, Units, a);
      CountsAtLeast(s.threads, a);
    }
  }

  // ---------------------------------------------------------------- the overflow happens

  /** `n` copies of the same choice. */
  function Repeat(c: Choice, n: nat): seq<Choice> {
    if n == 0 then [] else Repeat(c, n - 1) + [c]
  }

  lemma RunStep(s: State, schedule: seq<Choice>, c: Choice)
    ensures Run(s, schedule + [c]) == Step(Run(s, schedule), c)
  {
    assert (schedule + [c])[..|schedule|] == schedule;
  }

  lemma {:induction false} RunAppend(s: State, first: seq<Choice>, second: seq<Choice>)
    ensures Run(s, first + second) == Run(Run(s, first), second)
    decreases |second|
  {
    hide Step;
    if second == [] {
      assert first + second == first;
    } else {
      var n := |second| - 1;
      RunAppend(s, first, second[..n]);
      assert (first + second)[..|first + second| - 1] == first + second[..n];
    }
  }

  /** One thread, at `l`, and an empty queue whose dummy is `d`. */
  ghost predicate EmptyQueue(s: State, l: Local, d: Addr, count: nat, internal: int, wraps: nat) {
    && s.threads == [l] && s.chain == [d] && s.items == [] && !s.fault
    && s.head == CountedPtr(d, count) && s.tail == CountedPtr(d, 1)
    && s.heap.Keys == {d}
    && s.heap[d].internal == internal && s.heap[d].next == NULL && s.heap[d].wraps == wraps
  }

  const POLL := Choice(0, TryPop, 0)

  const EMPTY_HANDED := Finish(TryPop, Popped(None))

  /** The thread enters `TryPop` and reads the head. */
  lemma PollEnters(s: State, d: Addr, count: nat, internal: int, wraps: nat)
    requires EmptyQueue(s, Idle, d, count, internal, wraps)
    ensures EmptyQueue(Step(Step(s, POLL), POLL), PopAcquire(CountedPtr(d, count)), d, count, internal, wraps)
  {
    assert EmptyQueue(Step(s, POLL), PopLoadHead, d, count, internal, wraps);
  }

  function Overflowed(count: nat, wraps: nat): nat {
    if count + 1 == COUNT_SPAN then wraps + 1 else wraps
  }

  lemma PollAcquires(s: State, d: Addr, count: nat, internal: int, wraps: nat)
    requires EmptyQueue(s, PopAcquire(CountedPtr(d, count)), d, count, internal, wraps)
    ensures var h := CountedPtr(d, count).Increased();
      EmptyQueue(Step(s, POLL), PopLoadTail(h), d, h.count, internal, Overflowed(count, wraps))
  {
  }

  lemma PollFindsNothing(s: State, h: CountedPtr, internal: int, wraps: nat)
    requires EmptyQueue(s, PopLoadTail(h), h.ptr, h.count, internal, wraps)
    ensures EmptyQueue(Step(Step(s, POLL), POLL), Release(h.ptr, EMPTY_HANDED), h.ptr, h.count, internal, wraps)
  {
    assert EmptyQueue(Step(s, POLL), PopLoadNext(h, CountedPtr(h.ptr, 1)), h.ptr, h.count, internal, wraps);
  }

  lemma PollLeaves(s: State, d: Addr, count: nat, internal: int, wraps: nat)
    requires EmptyQueue(s, Release(d, EMPTY_HANDED), d, count, internal, wraps) && internal != 1
    ensures EmptyQueue(Step(Step(s, POLL), POLL), Idle, d, count, internal - 1, wraps)
  {
    assert EmptyQueue(Step(s, POLL), Exit(TryPop, Popped(None)), d, count, internal - 1, wraps);
  }

  /** Seven steps: a `TryPop` that finds nothing adds one to the count in `head`. */
  lemma OnePoll(s: State, d: Addr, count: nat, internal: int, wraps: nat)
    requires EmptyQueue(s, Idle, d, count, internal, wraps) && internal != 1
    ensures EmptyQueue(Run(s, Repeat(POLL, 7)), Idle, d, (count + 1) % COUNT_SPAN, internal - 1, Overflowed(count, wraps))
  {
    hide EmptyQueue, Step, Overflowed;
    PollEnters(s, d, count, internal, wraps);
    var s2 := Step(Step(s, POLL), POLL);
    PollAcquires(s2, d, count, internal, wraps);
    var s3 := Step(s2, POLL);
    PollFindsNothing(s3, CountedPtr(d, count).Increased(), internal, Overflowed(count, wraps));
    var s5 := Step(Step(s3, POLL), POLL);
    PollLeaves(s5, d, (count + 1) % COUNT_SPAN, internal, Overflowed(count, wraps));
    RepeatRuns(s, POLL, 0);
    RepeatRuns(s, POLL, 1);
    RepeatRuns(s, POLL, 2);
    RepeatRuns(s, POLL, 3);
    RepeatRuns(s, POLL, 4);
    RepeatRuns(s, POLL, 5);
    RepeatRuns(s, POLL, 6);
  }

  lemma RepeatRuns(s: State, c: Choice, n: nat)
    ensures Run(s, Repeat(c, 0)) == s
    ensures Run(s, Repeat(c, n + 1)) == Step(Run(s, Repeat(c, n)), c)
  {
    RunStep(s, Repeat(c, n), c);
  }

  lemma {:induction false} RepeatAppend(c: Choice, m: nat, n: nat)
    ensures Repeat(c, m + n) == Repeat(c, m) + Repeat(c, n) && |Repeat(c, n)| == n
  {
    if n == 0 {
      assert Repeat(c, m) + [] == Repeat(c, m);
    } else {
      RepeatAppend(c, m, n - 1);
      assert Repeat(c, m) + (Repeat(c, n - 1) + [c]) == (Repeat(c, m) + Repeat(c, n - 1)) + [c];
    }
  }

  /** The fresh queue after `n` polls, fewer than it takes to overflow twice. */
  ghost predicate Polled(s: State, d: Addr, n: nat) {
    EmptyQueue(s, Idle, d, (n + 1) % COUNT_SPAN, 2 * ONE_COUNTER - n, if n + 1 == COUNT_SPAN then 1 else 0)
  }

  lemma PollAgain(s: State, d: Addr, n: nat)
    requires Polled(s, d, n) && n + 1 < COUNT_SPAN
    ensures Polled(Run(s, Repeat(POLL, 7)), d, n + 1)
  {
    hide EmptyQueue, Run, Repeat;
    OnePoll(s, d, n + 1, 2 * ONE_COUNTER - n, 0);
  }

  lemma {:induction false} Polls(s: State, d: Addr, n: nat, steps: nat)
    requires Polled(s, d, 0) && n < COUNT_SPAN && steps == 7 * n
    ensures Polled(Run(s, Repeat(POLL, steps)), d, n)
    decreases n
  {
    hide Polled, Step, Run, Repeat;
    if n == 0 {
      RepeatRuns(s, POLL, 0);
    } else {
      var before := Repeat(POLL, steps - 7);
      Polls(s, d, n - 1, steps - 7);
      PollAgain(Run(s, before), d, n - 1);
      RepeatAppend(POLL, steps - 7, 7);
      RunAppend(s, before, Repeat(POLL, 7));
    }
  }

  lemma FreshIsPolled(dummy: Addr)
    ensures Polled(Init(1, dummy), dummy, 0)
  {
    assert Init(1, dummy).threads == [Idle];
  }

  lemma PolledOut(s: State, d: Addr)
    requires Polled(s, d, COUNT_SPAN - 1)
    ensures d in s.heap && s.heap[d].wraps == 1
  {
  }

  const POLLING: seq<Choice> := Repeat(POLL, 7 * 65535)

  lemma PollingOverflows(dummy: Addr)
    ensures Polled(Run(Init(1, dummy), POLLING), dummy, 65535) && |POLLING| == 7 * 65535
  {
    hide Polled, Run, Repeat;
    FreshIsPolled(dummy);
    Polls(Init(1, dummy), dummy, 65535, 7 * 65535);
    RepeatAppend(POLL, 0, 7 * 65535);
  }

  /**
   The promise fails: once a single thread has polled a fresh queue 65535 times, the dummy node is
   never deleted, whatever any continuation does.
   */
  lemma PollingLeaks(dummy: Addr, later: seq<Choice>)
    requires 0 < dummy < POINTER_SPAN && AlwaysModest(Run(Init(1, dummy), POLLING), later)
    ensures dummy in Run(Init(1, dummy), POLLING + later).heap
  {
    var s0 := Init(1, dummy);
    hide Polled, Step, Run, Repeat, Good, Init;
    InitGood(1, dummy);
    PollingOverflows(dummy);
    ShortRunKeeps(s0, POLLING);
    PolledOut(Run(s0, POLLING), dummy);
    OverflowedForever(Run(s0, POLLING), later, dummy);
    RunAppend(s0, POLLING, later);
  }

  // ---------------------------------------------------------------- and the node is garbage

  /** One thread at `l`; the list, the two counted words and the internal counts, spelled out. */
  ghost predicate Solo(s: State, l: Local, head: CountedPtr, tail: CountedPtr, chain: seq<Addr>, items: seq<Item>) {
    s.threads == [l] && s.head == head && s.tail == tail && s.chain == chain && s.items == items
  }

  /** Node `a` with the given internal count and successor. */
  ghost predicate NodeAt(s: State, a: Addr, internal: int, next: CountedPtr) {
    a in s.heap && s.heap[a].internal == internal && s.heap[a].next == next
  }

  /** Seven steps of `Push(v)` into node `n` on the polled queue. */
  lemma PushAfterPolling(s: State, d: Addr, c: Choice)
    requires Polled(s, d, 65535) && c.t == 0 && c.op.Push? && 0 < c.addr < POINTER_SPAN && c.addr != d
    ensures var s' := Run(s, Repeat(c, 7));
      && Solo(s', Idle, CountedPtr(d, 0), CountedPtr(c.addr, 1), [d, c.addr], [c.op.v])
      && NodeAt(s', d, ONE_COUNTER - 65535, CountedPtr(c.addr, 1))
      && NodeAt(s', c.addr, 2 * ONE_COUNTER, NULL) && s'.heap[c.addr].value == Some(c.op.v)
  {
    var n, v := c.addr, c.op.v;
    var h, old1, old2 := CountedPtr(d, 0), CountedPtr(d, 1), CountedPtr(d, 2);
    var s1 := Step(s, c);
    assert Solo(s1, PushLoadTail(v, n), h, old1, [d], []);
    var s2 := Step(s1, c);
    assert Solo(s2, PushAcquire(v, n, old1), h, old1, [d], []);
    var s3 := Step(s2, c);
    assert Solo(s3, PushLink(v, n, old2), h, old2, [d], []);
    assert NodeAt(s3, d, 2 * ONE_COUNTER - 65535, NULL);
    PushLinks(s3, d, c);
    RepeatRuns(s, c, 0);
    RepeatRuns(s, c, 1);
    RepeatRuns(s, c, 2);
    RepeatRuns(s, c, 3);
    RepeatRuns(s, c, 4);
    RepeatRuns(s, c, 5);
    RepeatRuns(s, c, 6);
  }

  lemma PushLinks(s3: State, d: Addr, c: Choice)
    requires c.t == 0 && c.op.Push? && 0 < c.addr < POINTER_SPAN && c.addr != d
    requires Solo(s3, PushLink(c.op.v, c.addr, CountedPtr(d, 2)), CountedPtr(d, 0), CountedPtr(d, 2), [d], [])
    requires NodeAt(s3, d, 2 * ONE_COUNTER - 65535, NULL)
    requires NodeAt(s3, c.addr, 2 * ONE_COUNTER, NULL) && s3.heap[c.addr].value == Some(c.op.v)
    ensures var s' := Step(Step(Step(Step(s3, c), c), c), c);
      && Solo(s', Idle, CountedPtr(d, 0), CountedPtr(c.addr, 1), [d, c.addr], [c.op.v])
      && NodeAt(s', d, ONE_COUNTER - 65535, CountedPtr(c.addr, 1))
      && NodeAt(s', c.addr, 2 * ONE_COUNTER, NULL) && s'.heap[c.addr].value == Some(c.op.v)
  {
    var n, v := c.addr, c.op.v;
    var h, old2, k := CountedPtr(d, 0), CountedPtr(d, 2), Finish(Push(v), Pushed);
    var s4 := Step(s3, c);
    assert Solo(s4, PushSwing(v, n, old2), h, old2, [d, n], [v]);
    var s5 := Step(s4, c);
    assert Solo(s5, Detach(old2, 0, k), h, CountedPtr(n, 1), [d, n], [v]);
    var s6 := Step(s5, c);
    assert Solo(s6, Exit(Push(v), Pushed), h, CountedPtr(n, 1), [d, n], [v]);
  }

  /** Its first five steps, up to the compare-exchange on the head. */
  lemma PopReachesSwing(s: State, d: Addr, n: Addr, v: Item)
    requires d != n && Solo(s, Idle, CountedPtr(d, 0), CountedPtr(n, 1), [d, n], [v])
    requires NodeAt(s, d, ONE_COUNTER - 65535, CountedPtr(n, 1))
    requires NodeAt(s, n, 2 * ONE_COUNTER, NULL) && s.heap[n].value == Some(v)
    ensures var s5 := Step(Step(Step(Step(Step(s, POLL), POLL), POLL), POLL), POLL);
      && Solo(s5, PopSwing(CountedPtr(d, 1), CountedPtr(n, 1)), CountedPtr(d, 1), CountedPtr(n, 1), [d, n], [v])
      && NodeAt(s5, d, ONE_COUNTER - 65535, CountedPtr(n, 1))
      && NodeAt(s5, n, 2 * ONE_COUNTER, NULL) && s5.heap[n].value == Some(v)
  {
    var h, h', tl := CountedPtr(d, 0), CountedPtr(d, 1), CountedPtr(n, 1);
    var s1 := Step(s, POLL);
    assert Solo(s1, PopLoadHead, h, tl, [d, n], [v]);
    var s2 := Step(s1, POLL);
    assert Solo(s2, PopAcquire(h), h, tl, [d, n], [v]);
    var s3 := Step(s2, POLL);
    assert Solo(s3, PopLoadTail(h'), h', tl, [d, n], [v]);
    var s4 := Step(s3, POLL);
    assert Solo(s4, PopLoadNext(h', tl), h', tl, [d, n], [v]);
  }

  /** Ten steps of `TryPop` take the element and unlink the polled dummy without deleting it. */
  lemma PopAfterPolling(s: State, d: Addr, n: Addr, v: Item)
    requires d != n && Solo(s, Idle, CountedPtr(d, 0), CountedPtr(n, 1), [d, n], [v])
    requires NodeAt(s, d, ONE_COUNTER - 65535, CountedPtr(n, 1))
    requires NodeAt(s, n, 2 * ONE_COUNTER, NULL) && s.heap[n].value == Some(v)
    ensures Solo(Run(s, Repeat(POLL, 10)), Idle, CountedPtr(n, 2), CountedPtr(n, 1), [n], [])
  {
    hide Step, Solo, Run, Repeat;
    PopReachesSwing(s, d, n, v);
    PopSwings(Step(Step(Step(Step(Step(s, POLL), POLL), POLL), POLL), POLL), d, n, v);
    hide NodeAt;
    RunFive(s);
    RunFive(Step(Step(Step(Step(Step(s, POLL), POLL), POLL), POLL), POLL));
    RepeatAppend(POLL, 5, 5);
    RunAppend(s, Repeat(POLL, 5), Repeat(POLL, 5));
  }

  lemma RunFive(s: State)
    ensures Run(s, Repeat(POLL, 5)) == Step(Step(Step(Step(Step(s, POLL), POLL), POLL), POLL), POLL)
  {
    hide Step;
    RepeatRuns(s, POLL, 0);
    RepeatRuns(s, POLL, 1);
    RepeatRuns(s, POLL, 2);
    RepeatRuns(s, POLL, 3);
    RepeatRuns(s, POLL, 4);
  }

  lemma PopSwings(s5: State, d: Addr, n: Addr, v: Item)
    requires d != n && Solo(s5, PopSwing(CountedPtr(d, 1), CountedPtr(n, 1)), CountedPtr(d, 1), CountedPtr(n, 1), [d, n], [v])
    requires NodeAt(s5, d, ONE_COUNTER - 65535, CountedPtr(n, 1))
    requires NodeAt(s5, n, 2 * ONE_COUNTER, NULL) && s5.heap[n].value == Some(v)
    ensures Solo(Step(Step(Step(Step(Step(s5, POLL), POLL), POLL), POLL), POLL), Idle, CountedPtr(n, 2), CountedPtr(n, 1), [n], [])
  {
    var h, hn, tl := CountedPtr(d, 1), CountedPtr(n, 2), CountedPtr(n, 1);
    var s6 := Step(s5, POLL);
    assert Solo(s6, PopTake(h, tl, v), hn, tl, [n], []);
    var s7 := Step(s6, POLL);
    assert Solo(s7, Detach(h, 0, ReleaseNext(n, v)), hn, tl, [n], []);
    var s8 := Step(s7, POLL);
    assert Solo(s8, Release(n, Finish(TryPop, Popped(Some(v)))), hn, tl, [n], []);
    var s9 := Step(s8, POLL);
    assert Solo(s9, Exit(TryPop, Popped(Some(v))), hn, tl, [n], []);
  }

  /** A complete witness: poll 65535 times, push once, pop once; the dummy is out of the queue and still allocated. */
  lemma LeakedGarbage(dummy: Addr, node: Addr, v: Item)
    requires 0 < dummy < POINTER_SPAN && 0 < node < POINTER_SPAN && node != dummy
    ensures var s := Run(Init(1, dummy), POLLING + (Repeat(Choice(0, Push(v), node), 7) + Repeat(POLL, 10)));
      Quiescent(s) && s.chain == [node] && dummy in s.heap
  {
    var s0 := Init(1, dummy);
    var push := Repeat(Choice(0, Push(v), node), 7);
    var pop := Repeat(POLL, 10);
    hide Polled, Step, Run, Repeat, Good, Init, NodeAt;
    PollingOverflows(dummy);
    var s1 := Run(s0, POLLING);
    PushAfterPolling(s1, dummy, Choice(0, Push(v), node));
    PopAfterPolling(Run(s1, push), dummy, node, v);
    RepeatAppend(Choice(0, Push(v), node), 0, 7);
    RepeatAppend(POLL, 0, 10);
    RunAppend(s1, push, pop);
    RunAppend(s0, POLLING, push + pop);
    InitGood(1, dummy);
    ShortRunKeeps(s0, POLLING);
    ShortRunKeeps(s1, push + pop);
    PollingLeaks(dummy, push + pop);
  }
}
