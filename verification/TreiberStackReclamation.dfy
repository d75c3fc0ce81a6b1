/**
 When the Treiber stack gives memory back.

 As in the queue, a node none of whose acquisition counts overflowed is deleted as soon as nothing refers
 to it, and a node acquired 65535 times while it was on top is never deleted.  Two calls of `TryPop` that
 keep failing each other's exchange are enough.
 */
module TreiberStackReclamation {
  import opened Basics
  import opened Histories
  import opened CountedPointers
  import opened TreiberStack
  import opened TreiberStackInvariant
  import opened TreiberStackSteps
  import opened TreiberStackTheorems

  ghost predicate Retains(s: State, s': State, a: Addr)
    requires a in s.heap
  {
    a in s'.heap && s'.heap[a].wraps >= s.heap[a].wraps
  }

  lemma AcquireRetains(s: State, c: Choice, a: Addr)
    requires a in s.heap && c.t < |s.threads|
    requires var l := s.threads[c.t]; l.PopLoad? || l.PopAcquire? || l.PopReadNext? || l.PopSwing? || l.PopTake?
    ensures Retains(s, Step(s, c), a)
  {
  }

  lemma OtherRetains(s: State, c: Choice, a: Addr)
    requires a in s.heap && c.t < |s.threads|
    requires var l := s.threads[c.t];
      l.Idle? || l.PushLoad? || l.PushSwing? || l.Detach? || l.Release? || (l.Delete? && l.node != a) || l.Exit?
    ensures Retains(s, Step(s, c), a)
  {
  }

  /** Only the deletion step removes a node, and the overflow tally of a node never shrinks. */
  lemma HeapStays(s: State, c: Choice, a: Addr)
    requires a in s.heap
    requires c.t < |s.threads| && s.threads[c.t].Delete? ==> s.threads[c.t].node != a
    ensures Retains(s, Step(s, c), a)
  {
    if c.t < |s.threads| {
      hide Step;
      var l := s.threads[c.t];
      if l.PopLoad? || l.PopAcquire? || l.PopReadNext? || l.PopSwing? || l.PopTake? {
        AcquireRetains(s, c, a);
      } else {
        OtherRetains(s, c, a);
      }
    }
  }

  /** No step deletes a node whose counter overflowed. */
  lemma OverflowedStays(s: State, c: Choice, a: Addr)
    requires Inv(s) && a in s.heap && s.heap[a].wraps > 0
    ensures a in Step(s, c).heap && Step(s, c).heap[a].wraps > 0
  {
    hide Inv, Step;
    if c.t < |s.threads| && s.threads[c.t].Delete? {
      OnlyUnwrappedDie(s, c.t);
    }
    HeapStays(s, c, a);
  }

  lemma {:induction false} OverflowedForever(s: State, schedule: seq<Choice>, a: Addr)
    requires Inv(s) && a in s.heap && s.heap[a].wraps > 0
    ensures a in Run(s, schedule).heap && Run(s, schedule).heap[a].wraps > 0
    decreases |schedule|
  {
    hide Inv;
    if schedule != [] {
      var front := schedule[..|schedule| - 1];
      OverflowedForever(s, front, a);
      RunKeeps(s, front);
      OverflowedStays(Run(s, front), schedule[|schedule| - 1], a);
    }
  }

  /** A run too short to overflow any counter leaves nothing but the stack once all operations return. */
  lemma ShortRunsLeakNothing(threads: nat, schedule: seq<Choice>)
    requires threads < COUNT_SPAN && |schedule| < COUNT_SPAN
    requires Quiescent(Run(Init(threads), schedule))
    ensures var s := Run(Init(threads), schedule); forall a :: a in s.heap <==> a in s.chain
  {
    var s := Run(Init(threads), schedule);
    InitKeeps(threads);
    RunKeeps(Init(threads), schedule);
    hide Run, Init, Total, HistoryOk, WordsFit;
    forall a | a in s.heap ensures a in s.chain {
      QuiescentHeap(s, a);
      if a !in s.chain {
        NotAttached(s, a);
      }
    }
  }

  lemma NotAttached(s: State, a: Addr)
    requires Inv(s) && Quiescent(s) && a in s.heap && a !in s.chain
    ensures COUNT_SPAN * s.heap[a].wraps <= s.clock
  {
    hide Total, HistoryOk, WordsFit;
    assert a != 0;
    assert Balanced(s, a);
    AttachedInChain(s, a);
    hide ChainOk, AllBalanced, LocalsOk;
    AllIdleTotals(s.threads, Counts, a);
  }

  // ---------------------------------------------------------------- the overflow happens

  /** `n` copies of the same choice. */
  function Repeat(c: Choice, n: nat): seq<Choice> {
    if n == 0 then [] else Repeat(c, n - 1) + [c]
  }

  lemma RunStep(s: State, schedule: seq<Choice>, c: Choice)
    ensures Run(s, schedule + [c]) == Step(Run(s, schedule), c)
  {
    assert (schedule + [c])[..|schedule|] == schedule;
  }

  lemma {:induction false} RunAppend(s: State, first: seq<Choice>, second: seq<Choice>)
    ensures Run(s, first + second) == Run(Run(s, first), second)
    decreases |second|
  {
    hide Step;
    if second == [] {
      assert first + second == first;
    } else {
      var n := |second| - 1;
      RunAppend(s, first, second[..n]);
      assert (first + second)[..|first + second| - 1] == first + second[..n];
    }
  }

  lemma RunTwo(s: State, c: Choice, d: Choice)
    ensures Run(s, [c] + [d]) == Step(Step(s, c), d)
  {
    assert [] + [c] == [c];
    RunStep(s, [], c);
    RunStep(s, [c], d);
  }

  /** Two threads and at most the one node `a` that was pushed. */
  ghost predicate Pair(s: State, l0: Local, l1: Local, head: CountedPtr, chain: seq<Addr>, a: Addr, internal: int, wraps: nat) {
    && s.threads == [l0, l1] && !s.fault && s.head == head && s.chain == chain && |s.items| == |chain|
    && s.heap.Keys == {a} && a != 0 && s.heap[a].next == NULL
    && s.heap[a].internal == internal && s.heap[a].wraps == wraps
    && (forall b | b in chain :: b == a && b in s.attached)
    && (forall i | 0 <= i < |chain| :: s.heap[a].value == Some(s.items[i]))
  }

  const P0 := Choice(0, TryPop, 0, false)
  const P1 := Choice(1, TryPop, 0, false)

  /** Thread 0 pushes one element. */
  lemma PushOne(a: Addr, v: Item)
    requires 0 < a < POINTER_SPAN
    ensures var c := Choice(0, Push(v), a, false);
      Pair(Run(Init(2), [c] + [c] + ([c] + [c])), Idle, Idle, CountedPtr(a, 1), [a], a, 0, 0)
  {
    var c := Choice(0, Push(v), a, false);
    var s := Init(2);
    assert s.threads == [Idle, Idle];
    var s1 := Step(s, c);
    assert s1.threads == [PushLoad(v, a), Idle] && s1.heap == map[a := Node(Some(v), 0, NULL, false, 0)];
    var s2 := Step(s1, c);
    assert s2.threads == [PushSwing(v, a), Idle] && s2.heap == map[a := Node(Some(v), 0, NULL, false, 0)];
    var s3 := Step(s2, c);
    assert Pair(s3, Exit(Push(v), Pushed), Idle, CountedPtr(a, 1), [a], a, 0, 0);
    hide Step, Init;
    RunTwo(s, c, c);
    RunTwo(s2, c, c);
    RunAppend(s, [c] + [c], [c] + [c]);
  }

  /**
   Both threads are in `TryPop` on the only node: `t` is about to swing the head, the other one to acquire it.
   */
  ghost predicate Duel(s: State, t: nat, a: Addr, count: nat, internal: int, wraps: nat) {
    var h := CountedPtr(a, count);
    Pair(s, if t == 0 then PopSwing(h, NULL) else PopAcquire(h), if t == 0 then PopAcquire(h) else PopSwing(h, NULL),
         h, [a], a, internal, wraps)
  }

  function Poll(t: nat): Choice {
    Choice(t, TryPop, 0, false)
  }

  lemma BothEnter(s: State, a: Addr)
    requires Pair(s, Idle, Idle, CountedPtr(a, 1), [a], a, 0, 0)
    ensures var s' := Step(Step(Step(Step(s, P0), P0), P1), P0);
      Pair(s', PopReadNext(CountedPtr(a, 2)), PopLoad, CountedPtr(a, 2), [a], a, 0, 0)
  {
    var s1 := Step(s, P0);
    assert Pair(s1, PopLoad, Idle, CountedPtr(a, 1), [a], a, 0, 0);
    var s2 := Step(s1, P0);
    assert Pair(s2, PopAcquire(CountedPtr(a, 1)), Idle, CountedPtr(a, 1), [a], a, 0, 0);
    var s3 := Step(s2, P1);
    assert Pair(s3, PopAcquire(CountedPtr(a, 1)), PopLoad, CountedPtr(a, 1), [a], a, 0, 0);
  }

  lemma DuelStarts(s: State, a: Addr)
    requires Pair(s, Idle, Idle, CountedPtr(a, 1), [a], a, 0, 0)
    ensures Duel(Run(s, [P0] + [P0] + ([P1] + [P0]) + ([P0] + [P1])), 0, a, 2, 0, 0)
  {
    BothEnter(s, a);
    var s2 := Step(Step(s, P0), P0);
    var s4 := Step(Step(s2, P1), P0);
    var s5 := Step(s4, P0);
    assert Pair(s5, PopSwing(CountedPtr(a, 2), NULL), PopLoad, CountedPtr(a, 2), [a], a, 0, 0);
    assert Duel(Step(s5, P1), 0, a, 2, 0, 0);
    hide Step, Duel, Pair;
    RunTwo(s, P0, P0);
    RunTwo(s2, P1, P0);
    RunTwo(s4, P0, P1);
    RunAppend(s, [P0] + [P0], [P1] + [P0]);
    RunAppend(s, [P0] + [P0] + ([P1] + [P0]), [P0] + [P1]);
  }

  function Counted(count: nat, wraps: nat): nat {
    if count + 1 == COUNT_SPAN then wraps + 1 else wraps
  }

  /** The other thread acquires, which changes the count that `t` is about to compare. */
  lemma DuelAcquires(s: State, t: nat, a: Addr, count: nat, internal: int, wraps: nat)
    requires Duel(s, t, a, count, internal, wraps) && t < 2 && count < COUNT_SPAN
    ensures var h, up := CountedPtr(a, count), CountedPtr(a, (count + 1) % COUNT_SPAN);
      Pair(Step(Step(s, Poll(1 - t)), Poll(1 - t)), PopSwing(if t == 0 then h else up, NULL), PopSwing(if t == 0 then up else h, NULL),
           up, [a], a, internal, Counted(count, wraps))
  {
    var h, up := CountedPtr(a, count), CountedPtr(a, (count + 1) % COUNT_SPAN);
    var s1 := Step(s, Poll(1 - t));
    assert Pair(s1, if t == 0 then PopSwing(h, NULL) else PopReadNext(up), if t == 0 then PopReadNext(up) else PopSwing(h, NULL),
                up, [a], a, internal, Counted(count, wraps));
  }

  /** So `t` fails its exchange and gives its reference back: the roles have changed. */
  lemma DuelMisses(s: State, t: nat, a: Addr, h: CountedPtr, up: CountedPtr, internal: int, wraps: nat)
    requires t < 2 && internal != 1 && h != up && h.ptr == up.ptr == a
    requires Pair(s, PopSwing(if t == 0 then h else up, NULL), PopSwing(if t == 0 then up else h, NULL), up, [a], a, internal, wraps)
    ensures Duel(Step(Step(s, Poll(t)), Poll(t)), 1 - t, a, up.count, internal - 1, wraps)
  {
    var s1 := Step(s, Poll(t));
    assert Pair(s1, if t == 0 then Release(a, up) else PopSwing(up, NULL), if t == 0 then PopSwing(up, NULL) else Release(a, up),
                up, [a], a, internal, wraps);
  }

  function Round(t: nat): seq<Choice> {
    var u := if t == 0 then 1 else 0;
    [Poll(u)] + [Poll(u)] + ([Poll(t)] + [Poll(t)])
  }

  lemma OneRound(s: State, t: nat, a: Addr, count: nat, internal: int, wraps: nat)
    requires Duel(s, t, a, count, internal, wraps) && t < 2 && count < COUNT_SPAN && internal != 1
    ensures Duel(Run(s, Round(t)), 1 - t, a, (count + 1) % COUNT_SPAN, internal - 1, Counted(count, wraps))
  {
    var u := 1 - t;
    DuelAcquires(s, t, a, count, internal, wraps);
    hide Step, Duel, Counted, Pair;
    DuelMisses(Step(Step(s, Poll(u)), Poll(u)), t, a, CountedPtr(a, count), CountedPtr(a, (count + 1) % COUNT_SPAN), internal, Counted(count, wraps));
    RunTwo(s, Poll(u), Poll(u));
    RunTwo(Step(Step(s, Poll(u)), Poll(u)), Poll(t), Poll(t));
    RunAppend(s, [Poll(u)] + [Poll(u)], [Poll(t)] + [Poll(t)]);
  }

  function Rounds(n: nat): seq<Choice> {
    if n == 0 then [] else Rounds(n - 1) + Round((n - 1) % 2)
  }

  lemma {:induction false} Fight(s: State, a: Addr, n: nat)
    requires Duel(s, 0, a, 2, 0, 0) && n + 2 < COUNT_SPAN
    ensures Duel(Run(s, Rounds(n)), n % 2, a, n + 2, 0 - n as int, 0)
  {
    hide Step, Run, Duel, Round;
    if n == 0 {
      RunNone(s);
    } else {
      Fight(s, a, n - 1);
      OneRound(Run(s, Rounds(n - 1)), (n - 1) % 2, a, n + 1, 1 - n, 0);
      RunAppend(s, Rounds(n - 1), Round((n - 1) % 2));
    }
  }

  lemma RunNone(s: State)
    ensures Run(s, []) == s
  {
  }

  /** The round that overflows the count. */
  lemma LastRound(s: State, a: Addr)
    requires Duel(s, 0, a, 2, 0, 0)
    ensures Duel(Run(s, Rounds(65534)), 0, a, 0, -65534, 1)
  {
    hide Step, Run, Duel, Round;
    Fight(s, a, 65533);
    OneRound(Run(s, Rounds(65533)), 1, a, 65535, -65533, 0);
    RunAppend(s, Rounds(65533), Round(1));
  }

  /** Both operations return: thread 0 with the element, thread 1 with nothing. */
  const LEAVE: seq<Choice> := [P0] + [P0] + ([P0] + [P0]) + ([P1] + [P1]) + [P1]

  lemma FirstLeaves(s: State, a: Addr)
    requires Duel(s, 0, a, 0, -65534, 1)
    ensures var s' := Step(Step(Step(Step(s, P0), P0), P0), P0);
      Pair(s', Idle, PopAcquire(CountedPtr(a, 0)), NULL, [], a, -COUNT_SPAN, 1)
  {
    var h := CountedPtr(a, 0);
    var s1 := Step(s, P0);
    var v := s.items[0];
    assert s1.threads == [PopTake(h, v), PopAcquire(h)] && s1.heap == s.heap && s1.head == NULL && s1.chain == [];
    var s2 := Step(s1, P0);
    assert s2.threads == [Detach(h, v), PopAcquire(h)] && s2.heap[a].internal == -65534;
    var s3 := Step(s2, P0);
    assert s3.threads == [Exit(TryPop, Popped(Some(v))), PopAcquire(h)] && s3.heap[a].internal == -COUNT_SPAN;
  }

  lemma SecondLeaves(s: State, a: Addr)
    requires Pair(s, Idle, PopAcquire(CountedPtr(a, 0)), NULL, [], a, -COUNT_SPAN, 1)
    ensures var s' := Step(Step(Step(s, P1), P1), P1); s'.threads == [Idle, Idle] && s'.chain == [] && a in s'.heap && s'.heap[a].wraps == 1
  {
    var s1 := Step(s, P1);
    assert Pair(s1, Idle, PopAcquire(NULL), NULL, [], a, -COUNT_SPAN, 1);
    var s2 := Step(s1, P1);
    assert s2.threads == [Idle, Exit(TryPop, Popped(None))] && s2.heap == s1.heap && s2.chain == [];
  }

  lemma DuelLeaves(s: State, a: Addr)
    requires Duel(s, 0, a, 0, -65534, 1)
    ensures var s' := Run(s, LEAVE); s'.threads == [Idle, Idle] && s'.chain == [] && a in s'.heap && s'.heap[a].wraps == 1
  {
    FirstLeaves(s, a);
    var s2 := Step(Step(s, P0), P0);
    var s4 := Step(Step(s2, P0), P0);
    SecondLeaves(s4, a);
    var s6 := Step(Step(s4, P1), P1);
    hide Step, Duel, Pair;
    RunTwo(s, P0, P0);
    RunTwo(s2, P0, P0);
    RunTwo(s4, P1, P1);
    RunAppend(s, [P0] + [P0], [P0] + [P0]);
    RunAppend(s, [P0] + [P0] + ([P0] + [P0]), [P1] + [P1]);
    RunStep(s, [P0] + [P0] + ([P0] + [P0]) + ([P1] + [P1]), P1);
  }

  function Pushing(a: Addr, v: Item): seq<Choice> {
    var c := Choice(0, Push(v), a, false);
    [c] + [c] + ([c] + [c])
  }

  const ENTER: seq<Choice> := [P0] + [P0] + ([P1] + [P0]) + ([P0] + [P1])

  /** One push, then two calls of `TryPop` that fail each other's exchange 65534 times before they return. */
  function Leaking(a: Addr, v: Item): seq<Choice> {
    Pushing(a, v) + ENTER + Rounds(65534) + LEAVE
  }

  lemma FightOver(a: Addr, v: Item)
    requires 0 < a < POINTER_SPAN
    ensures Duel(Run(Init(2), Pushing(a, v) + ENTER + Rounds(65534)), 0, a, 0, -65534, 1)
  {
    hide Step, Duel, Pair, Rounds, Init, Run;
    PushOne(a, v);
    var s0 := Init(2);
    var s1 := Run(s0, Pushing(a, v));
    DuelStarts(s1, a);
    LastRound(Run(s1, ENTER), a);
    RunAppend(s0, Pushing(a, v), ENTER);
    RunAppend(s0, Pushing(a, v) + ENTER, Rounds(65534));
  }

  lemma LeakingEnds(a: Addr, v: Item)
    requires 0 < a < POINTER_SPAN
    ensures var s := Run(Init(2), Leaking(a, v));
      Quiescent(s) && s.chain == [] && a in s.heap && s.heap[a].wraps == 1
  {
    hide Step, Duel, Pair, Rounds, Init, Run, Pushing, ENTER, LEAVE;
    FightOver(a, v);
    DuelLeaves(Run(Init(2), Pushing(a, v) + ENTER + Rounds(65534)), a);
    RunAppend(Init(2), Pushing(a, v) + ENTER + Rounds(65534), LEAVE);
  }

  /**
   The promise fails for the stack too: a run after which every operation has returned and the stack is
   empty, but its one node is still allocated, and stays so whatever any continuation does.
   */
  lemma LeakedGarbage(a: Addr, v: Item, later: seq<Choice>)
    requires 0 < a < POINTER_SPAN
    ensures var s := Run(Init(2), Leaking(a, v));
      Quiescent(s) && s.chain == [] && a in s.heap && a in Run(s, later).heap
  {
    hide Step, Inv, Init, Run, Leaking;
    LeakingEnds(a, v);
    InitKeeps(2);
    RunKeeps(Init(2), Leaking(a, v));
    OverflowedForever(Run(Init(2), Leaking(a, v)), later, a);
  }
}
