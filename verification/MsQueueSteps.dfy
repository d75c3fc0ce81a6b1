/** Every atomic step of the Michael-Scott queue keeps the invariant. */
module MsQueueSteps {
  import opened Basics
  import opened Histories
  import opened CountedPointers
  import opened MsQueue
  import opened MsQueueInvariant

  // ---------------------------------------------------------------- shared arguments

  ghost predicate Moves(s: State, s': State, t: nat, l: Local) {
    && t < |s.threads|
    && s'.threads == s.threads[t := l]
    && s'.clock == s.clock + 1
    && s'.fault == s.fault
  }

  function Gain(before: Local, after: Local, k: Kind, a: Addr): int {
    Share(after, k, a) - Share(before, k, a)
  }

  /** The reclamation law of one address survives a step whose local changes cancel out. */
  lemma BalanceMoves(s: State, s': State, t: nat, l: Local, a: Addr)
    requires |s.chain| > 0 && |s'.chain| > 0 && a != 0
    requires Balanced(s, a) && Moves(s, s', t, l)
    requires a in s.heap <==> a in s'.heap
    requires a in s.heap ==>
      var was, now := s.heap[a], s'.heap[a];
      var units := Gain(s.threads[t], l, Units, a) + Attached(s', a) - Attached(s, a);
      var debt := Gain(s.threads[t], l, Counts, a) + AttachedCount(s', a) - AttachedCount(s, a)
                  + COUNT_SPAN * (now.wraps - was.wraps);
      && units <= 0 && debt <= 1
      && now.internal - was.internal == Gain(s.threads[t], l, Refs, a) + ONE_COUNTER * units - debt
      && Gain(s.threads[t], l, Dooms, a) == (if now.internal == 0 then 1 else 0) - (if was.internal == 0 then 1 else 0)
    requires a !in s.heap ==>
      Gain(s.threads[t], l, Refs, a) == Gain(s.threads[t], l, Units, a) == Gain(s.threads[t], l, Dooms, a) == 0
    ensures Balanced(s', a)
  {
    hide Total;
    TotalUpdate(s.threads, t, l, Refs, a);
    TotalUpdate(s.threads, t, l, Units, a);
    TotalUpdate(s.threads, t, l, Counts, a);
    TotalUpdate(s.threads, t, l, Dooms, a);
  }

  /** Only counts may differ. */
  ghost predicate SameShape(s: State, s': State) {
    && s'.head.ptr == s.head.ptr && s'.tail.ptr == s.tail.ptr
    && s'.chain == s.chain && s'.items == s.items
    && s'.heap.Keys == s.heap.Keys
    && (forall a | a in s.heap :: a in s'.heap && s'.heap[a].value == s.heap[a].value
                                 && s'.heap[a].next == s.heap[a].next && s'.heap[a].linked == s.heap[a].linked)
  }

  lemma ShapeKept(s: State, s': State, t: nat, l: Local)
    requires Inv(s) && Moves(s, s', t, l) && SameShape(s, s')
    requires LocalOk(s, l) && !l.PopTake?
    ensures ChainOk(s') && LocalsOk(s') && TakersDiffer(s')
  {
    hide AllBalanced, HistoryOk;
    forall u | 0 <= u < |s'.threads| ensures LocalOk(s', s'.threads[u]) {
      assert LocalOk(s, if u == t then l else s.threads[u]);
    }
  }

  lemma HistoryQuiet(s: State, s': State, t: nat, l: Local)
    requires HistoryOk(s) && Moves(s, s', t, l)
    requires s'.hist == s.hist && s'.items == s.items && PhaseAt(l) == PhaseAt(s.threads[t])
    ensures HistoryOk(s')
  {
  }

  lemma HistoryGrows(s: State, s': State, t: nat, l: Local, e: Event<Op, Res>)
    requires HistoryOk(s) && Moves(s, s', t, l)
    requires e.t == t && s'.hist == s.hist + [e]
    requires PhaseAt(l) == Advance(PhaseAt(s.threads[t]), e)
    requires if e.Effect? then Fifo(s.items, e.op, e.res) == Some(s'.items) else s'.items == s.items
    ensures HistoryOk(s')
  {
    Appended(Fifo, [], s.hist, e);
  }

  /** No token moves and no word changes. */
  lemma LoadBalances(s: State, s': State, t: nat, l: Local)
    requires |s.chain| > 0 && AllBalanced(s) && Moves(s, s', t, l)
    requires TokensOf(l) == TokensOf(s.threads[t])
    requires s'.head == s.head && s'.tail == s.tail && s'.heap == s.heap && s'.chain == s.chain
    ensures AllBalanced(s')
  {
    forall a: Addr | a != 0 ensures Balanced(s', a) {
      assert Balanced(s, a);
      hide TokensOf, Balanced;
      BalanceMoves(s, s', t, l, a);
    }
  }

  lemma TakersKept(s: State, s': State, t: nat, l: Local)
    requires TakersDiffer(s) && Moves(s, s', t, l) && !l.PopTake?
    ensures TakersDiffer(s')
  {
  }

  /** Steps that only load. */
  lemma LoadKeeps(s: State, s': State, t: nat, l: Local)
    requires Inv(s) && t < |s.threads| && s' == Go(s, t, l)
    requires LocalOk(s, l) && !l.PopTake?
    requires TokensOf(l) == TokensOf(s.threads[t]) && PhaseAt(l) == PhaseAt(s.threads[t])
    ensures Inv(s')
  {
    hide TokensOf, PhaseAt, KnowsOk, AllBalanced, HistoryOk, LocalsOk, TakersDiffer;
    ShapeKept(s, s', t, l);
    HistoryQuiet(s, s', t, l);
    LoadBalances(s, s', t, l);
  }

  // ---------------------------------------------------------------- loads

  lemma PushLoadTailKeeps(s: State, t: nat)
    requires Inv(s) && t < |s.threads| && s.threads[t].PushLoadTail?
    ensures Inv(StepPushLoadTail(s, t))
  {
    var l := s.threads[t];
    assert LocalOk(s, l);
    LoadKeeps(s, StepPushLoadTail(s, t), t, PushAcquire(l.v, l.node, s.tail));
  }

  lemma PushLoadNextKeeps(s: State, t: nat)
    requires Inv(s) && t < |s.threads| && s.threads[t].PushLoadNext?
    ensures Inv(StepPushLoadNext(s, t))
  {
    var l := s.threads[t];
    assert LocalOk(s, l);
    LoadKeeps(s, StepPushLoadNext(s, t), t, PushHelp(l.v, l.node, l.seen, s.heap[l.seen.ptr].next));
  }

  lemma PopLoadHeadKeeps(s: State, t: nat)
    requires Inv(s) && t < |s.threads| && s.threads[t].PopLoadHead?
    ensures Inv(StepPopLoadHead(s, t))
  {
    assert LocalOk(s, s.threads[t]);
    LoadKeeps(s, StepPopLoadHead(s, t), t, PopAcquire(s.head));
  }

  lemma PopLoadTailKeeps(s: State, t: nat)
    requires Inv(s) && t < |s.threads| && s.threads[t].PopLoadTail?
    ensures Inv(StepPopLoadTail(s, t))
  {
    var l := s.threads[t];
    assert LocalOk(s, l);
    LoadKeeps(s, StepPopLoadTail(s, t), t, PopLoadNext(l.head, s.tail));
  }

  /** A null successor of a held head: the queue is empty at this very load. */
  lemma PopFindsEmpty(s: State, t: nat)
    requires Inv(s) && t < |s.threads| && s.threads[t].PopLoadNext?
    requires LocalOk(s, s.threads[t]) && s.threads[t].head.ptr == s.threads[t].tail.ptr
    requires s.heap[s.threads[t].head.ptr].next.ptr == 0
    ensures s.items == [] && Inv(StepPopLoadNext(s, t))
  {
    var l := s.threads[t];
    var s' := StepPopLoadNext(s, t);
    assert s.items == [];
    var l' := Release(l.head.ptr, Finish(TryPop, Popped(None)));
    assert TokensOf(l') == TokensOf(l) && PhaseAt(l) == Called(TryPop) && LocalOk(s, l');
    hide TokensOf, KnowsOk, AllBalanced, HistoryOk, LocalsOk, TakersDiffer;
    ShapeKept(s, s', t, l');
    HistoryGrows(s, s', t, l', Effect(t, TryPop, Popped(None)));
    LoadBalances(s, s', t, l');
  }

  lemma PopLoadNextKeeps(s: State, t: nat)
    requires Inv(s) && t < |s.threads| && s.threads[t].PopLoadNext?
    ensures Inv(StepPopLoadNext(s, t))
  {
    var l := s.threads[t];
    var s' := StepPopLoadNext(s, t);
    assert LocalOk(s, l);
    var next := s.heap[l.head.ptr].next;
    hide Inv;
    if l.head.ptr != l.tail.ptr {
      LoadKeeps(s, s', t, PopSwing(l.head, next));
    } else if next.ptr != 0 {
      LoadKeeps(s, s', t, PopHelp(l.head, l.tail, next));
    } else {
      PopFindsEmpty(s, t);
    }
  }

  // ---------------------------------------------------------------- acquisitions

  lemma PushAcquireBalances(s: State, t: nat, a: Addr)
    requires |s.chain| > 0 && a != 0 && Balanced(s, a)
    requires t < |s.threads| && s.threads[t].PushAcquire? && s.tail == s.threads[t].seen
    requires s.tail.Fits() && s.tail.ptr in s.heap
    ensures Balanced(StepPushAcquire(s, t), a)
  {
    hide Total;
    var l := s.threads[t];
    BalanceMoves(s, StepPushAcquire(s, t), t, PushLink(l.v, l.node, l.seen.Increased()), a);
  }

  lemma PushAcquireKeeps(s: State, t: nat)
    requires Inv(s) && t < |s.threads| && s.threads[t].PushAcquire?
    requires s.tail.Fits()
    ensures Inv(StepPushAcquire(s, t))
  {
    var l := s.threads[t];
    var s' := StepPushAcquire(s, t);
    assert LocalOk(s, l);
    if s.tail == l.seen {
      var l' := PushLink(l.v, l.node, l.seen.Increased());
      ShapeKept(s, s', t, l');
      HistoryQuiet(s, s', t, l');
        forall a: Addr | a != 0 ensures Balanced(s', a) {
        assert Balanced(s, a);
        PushAcquireBalances(s, t, a);
      }
    } else {
      LoadKeeps(s, s', t, PushAcquire(l.v, l.node, s.tail));
    }
  }

  lemma PopAcquireBalances(s: State, t: nat, a: Addr)
    requires |s.chain| > 0 && a != 0 && Balanced(s, a)
    requires t < |s.threads| && s.threads[t].PopAcquire? && s.head == s.threads[t].seen
    requires s.head.Fits() && s.head.ptr in s.heap
    ensures Balanced(StepPopAcquire(s, t), a)
  {
    hide Total;
    var l := s.threads[t];
    BalanceMoves(s, StepPopAcquire(s, t), t, PopLoadTail(l.seen.Increased()), a);
  }

  lemma PopAcquireKeeps(s: State, t: nat)
    requires Inv(s) && t < |s.threads| && s.threads[t].PopAcquire?
    requires s.head.Fits()
    ensures Inv(StepPopAcquire(s, t))
  {
    var l := s.threads[t];
    var s' := StepPopAcquire(s, t);
    assert LocalOk(s, l);
    if s.head == l.seen {
      var l' := PopLoadTail(l.seen.Increased());
      ShapeKept(s, s', t, l');
      HistoryQuiet(s, s', t, l');
        forall a: Addr | a != 0 ensures Balanced(s', a) {
        assert Balanced(s, a);
        PopAcquireBalances(s, t, a);
      }
    } else {
      LoadKeeps(s, s', t, PopAcquire(s.head));
    }
  }

  // ---------------------------------------------------------------- releases

  /** Before a thread with a reference or a pending counter touches it, a node's internal count is not zero. */
  lemma NotYetZero(s: State, t: nat, a: Addr)
    requires Inv(s) && Modest(s) && t < |s.threads| && a != 0 && a in s.heap
    requires Share(s.threads[t], Refs, a) > 0 || Share(s.threads[t], Units, a) > 0
    ensures s.heap[a].internal != 0
  {
    assert Balanced(s, a);
    TotalNonNegative(s.threads, Refs, a);
    TotalNonNegative(s.threads, Units, a);
    TotalCovers(s.threads, t, t, Refs, a);
    TotalCovers(s.threads, t, t, Units, a);
    FewRefs(s, a);
    if OpenUnits(s, a) == 0 {
      NoUnitsNoCounts(s.threads, a);
    }
  }

  /** Whatever follows a release is justified by what the releasing thread still holds. */
  lemma ResumeOk(s: State, l: Local, k: Then)
    requires LocalOk(s, l) && (l.Detach? || l.Release? || l.Delete?) && l.k == k
    requires ChainOk(s)
    ensures LocalOk(s, Resume(k))
    ensures !Resume(k).PopTake? && PhaseAt(Resume(k)) == PhaseAt(l)
    ensures forall n | n != 0 :: LocalOk(s, Delete(n, k)) && PhaseAt(Delete(n, k)) == PhaseAt(l)
  {
    assert OwnValue(Resume(k)) == OwnValue(l);
    assert forall n :: OwnValue(Delete(n, k)) == OwnValue(l);
  }

  /** Resuming keeps the private node and hands the kept reference on. */
  lemma TokensAfter(k: Then)
    ensures TokensOf(Resume(k)).own == ThenOwn(k)
    ensures TokensOf(Resume(k)).ref1 == ThenRef(k) && TokensOf(Resume(k)).ref2 == 0
    ensures TokensOf(Resume(k)).pending == NULL && TokensOf(Resume(k)).doomed == 0
    ensures forall n :: TokensOf(Delete(n, k)) == Tokens(ThenOwn(k), 0, ThenRef(k), NULL, n)
  {
  }

  lemma DetachBalances(s: State, t: nat, a: Addr)
    requires |s.chain| > 0 && a != 0 && Balanced(s, a)
    requires t < |s.threads| && s.threads[t].Detach? && s.threads[t].counter.ptr in s.heap
    requires s.heap[s.threads[t].counter.ptr].internal != 0
    requires s.threads[t].inc == 0 || s.threads[t].inc == 1
    ensures Balanced(StepDetach(s, t), a)
  {
    var l := s.threads[t];
    var increase := l.counter.count - 2 - ONE_COUNTER + l.inc;
    var l' := if s.heap[l.counter.ptr].internal == -increase then Delete(l.counter.ptr, l.k) else Resume(l.k);
    assert TokensOf(l) == Tokens(ThenOwn(l.k), if l.inc == 0 then l.counter.ptr else 0, ThenRef(l.k), l.counter, 0);
    TokensAfter(l.k);
    var s' := StepDetach(s, t);
    assert s'.chain == s.chain && s'.head == s.head && s'.tail == s.tail;
    assert Moves(s, s', t, l');
    assert a in s.heap ==> a in s'.heap && s'.heap[a].internal - s.heap[a].internal == (if a == l.counter.ptr then increase else 0) && s'.heap[a].wraps == s.heap[a].wraps;
    assert Attached(s', a) == Attached(s, a) && AttachedCount(s', a) == AttachedCount(s, a);
    hide Total, TokensOf, Resume, ThenOwn, ThenRef, StepDetach, Attached, AttachedCount, Moves, Balanced;
    BalanceMoves(s, s', t, l', a);
  }

  lemma DetachKeeps(s: State, t: nat)
    requires Inv(s) && Modest(s) && t < |s.threads| && s.threads[t].Detach?
    ensures Inv(StepDetach(s, t))
  {
    hide Modest;
    hide Balanced, PhaseOf, Replay;
    var l := s.threads[t];
    var p := l.counter.ptr;
    var s' := StepDetach(s, t);
    assert LocalOk(s, l);
    NotYetZero(s, t, p);
    var increase := l.counter.count - 2 - ONE_COUNTER + l.inc;
    var l' := if s.heap[p].internal == -increase then Delete(p, l.k) else Resume(l.k);
    ResumeOk(s, l, l.k);
    ShapeKept(s, s', t, l');
    HistoryQuiet(s, s', t, l');
    forall a: Addr | a != 0 ensures Balanced(s', a) {
      assert Balanced(s, a);
      DetachBalances(s, t, a);
    }
  }

  lemma ReleaseBalances(s: State, t: nat, a: Addr)
    requires |s.chain| > 0 && a != 0 && Balanced(s, a)
    requires t < |s.threads| && s.threads[t].Release? && s.threads[t].node in s.heap
    requires s.heap[s.threads[t].node].internal != 0
    ensures Balanced(StepRelease(s, t), a)
  {
    var l := s.threads[t];
    var l' := if s.heap[l.node].internal == 1 then Delete(l.node, l.k) else Resume(l.k);
    var s' := StepRelease(s, t);
    TokensAfter(l.k);
    assert TokensOf(l) == Tokens(ThenOwn(l.k), l.node, ThenRef(l.k), NULL, 0);
    assert Moves(s, s', t, l');
    assert Attached(s', a) == Attached(s, a) && AttachedCount(s', a) == AttachedCount(s, a);
    hide Total, TokensOf, Resume, ThenOwn, ThenRef, Attached, AttachedCount, Moves, Balanced;
    BalanceMoves(s, s', t, l', a);
  }

  lemma ReleaseKeeps(s: State, t: nat)
    requires Inv(s) && Modest(s) && t < |s.threads| && s.threads[t].Release?
    ensures Inv(StepRelease(s, t))
  {
    hide Modest;
    var l := s.threads[t];
    var p := l.node;
    var s' := StepRelease(s, t);
    assert LocalOk(s, l);
    NotYetZero(s, t, p);
    var l' := if s.heap[p].internal == 1 then Delete(p, l.k) else Resume(l.k);
    ResumeOk(s, l, l.k);
    ShapeKept(s, s', t, l');
    HistoryQuiet(s, s', t, l');
    forall a: Addr | a != 0 ensures Balanced(s', a) {
      assert Balanced(s, a);
      ReleaseBalances(s, t, a);
    }
  }

  // ---------------------------------------------------------------- starting and returning

  predicate Allocates(s: State, c: Choice) {
    c.op.Push? && 0 < c.addr < POINTER_SPAN && c.addr !in s.heap
  }

  lemma AllocatedBalances(s: State, t: nat, c: Choice)
    requires ChainOk(s) && Balanced(s, c.addr)
    requires t < |s.threads| && s.threads[t].Idle? && Allocates(s, c)
    ensures StepIdle(s, t, c).chain == s.chain && Balanced(StepIdle(s, t, c), c.addr)
  {
    hide Total;
    var s' := StepIdle(s, t, c);
    var l := PushLoadTail(c.op.v, c.addr);
    NoUnitsNoCounts(s.threads, c.addr);
    assert Attached(s', c.addr) == 0 && AttachedCount(s', c.addr) == 0;
    TotalUpdate(s.threads, t, l, Refs, c.addr);
    TotalUpdate(s.threads, t, l, Units, c.addr);
    TotalUpdate(s.threads, t, l, Counts, c.addr);
    TotalUpdate(s.threads, t, l, Dooms, c.addr);
  }

  lemma AllocateBalances(s: State, t: nat, c: Choice, a: Addr)
    requires ChainOk(s) && a != 0 && a != c.addr && Balanced(s, a)
    requires t < |s.threads| && s.threads[t].Idle? && Allocates(s, c)
    ensures StepIdle(s, t, c).chain == s.chain && Balanced(StepIdle(s, t, c), a)
  {
    var s' := StepIdle(s, t, c);
    var l := PushLoadTail(c.op.v, c.addr);
    assert Moves(s, s', t, l);
    assert a in s.heap <==> a in s'.heap;
    assert a in s.heap ==> s'.heap[a] == s.heap[a];
    assert Attached(s', a) == Attached(s, a) && AttachedCount(s', a) == AttachedCount(s, a);
    hide Total, StepIdle, Attached, AttachedCount, Moves, Balanced, ChainOk;
    BalanceMoves(s, s', t, l, a);
  }

  lemma PopStarts(s: State, t: nat)
    requires Inv(s) && t < |s.threads| && s.threads[t].Idle?
    ensures Inv(Go(s.(hist := s.hist + [Call(t, TryPop)]), t, PopLoadHead))
  {
    var s' := Go(s.(hist := s.hist + [Call(t, TryPop)]), t, PopLoadHead);
    assert LocalOk(s, s.threads[t]);
    ShapeKept(s, s', t, PopLoadHead);
    HistoryGrows(s, s', t, PopLoadHead, Call(t, TryPop));
    forall a: Addr | a != 0 ensures Balanced(s', a) {
      assert Balanced(s, a);
      BalanceMoves(s, s', t, PopLoadHead, a);
    }
  }

  lemma AllocateKeepsLocal(s: State, t: nat, c: Choice, u: nat)
    requires ChainOk(s) && LocalsOk(s) && u < |s.threads|
    requires t < |s.threads| && s.threads[t].Idle? && Allocates(s, c)
    ensures LocalOk(StepIdle(s, t, c), StepIdle(s, t, c).threads[u])
  {
    assert LocalOk(s, s.threads[u]);
  }

  lemma IdleKeeps(s: State, t: nat, c: Choice)
    requires Inv(s) && t < |s.threads| && s.threads[t].Idle?
    ensures Inv(StepIdle(s, t, c))
  {
    var s' := StepIdle(s, t, c);
    if c.op.TryPop? {
      PopStarts(s, t);
    } else if !Allocates(s, c) {
      assert LocalOk(s, s.threads[t]);
      LoadKeeps(s, s', t, Idle);
    } else {
      HistoryGrows(s, s', t, PushLoadTail(c.op.v, c.addr), Call(t, c.op));
      forall u | 0 <= u < |s'.threads| ensures LocalOk(s', s'.threads[u]) {
        AllocateKeepsLocal(s, t, c, u);
      }
      forall a: Addr | a != 0 ensures Balanced(s', a) {
        assert Balanced(s, a);
        if a == c.addr {
          AllocatedBalances(s, t, c);
        } else {
          AllocateBalances(s, t, c, a);
        }
      }
    }
  }

  lemma ExitKeeps(s: State, t: nat)
    requires Inv(s) && t < |s.threads| && s.threads[t].Exit?
    ensures Inv(StepExit(s, t))
  {
    var s' := StepExit(s, t);
    assert LocalOk(s, s.threads[t]);
    ShapeKept(s, s', t, Idle);
    HistoryGrows(s, s', t, Idle, Return(t, s.threads[t].res));
    forall a: Addr | a != 0 ensures Balanced(s', a) {
      assert Balanced(s, a);
      BalanceMoves(s, s', t, Idle, a);
    }
  }

  // ---------------------------------------------------------------- linking a node

  ghost predicate Links(s: State, t: nat) {
    && t < |s.threads| && s.threads[t].PushLink?
    && s.threads[t].seen.ptr in s.heap && s.threads[t].node in s.heap
    && s.heap[s.threads[t].seen.ptr].next == NULL
  }

  lemma LinkExtends(s: State, t: nat)
    requires ChainOk(s) && Links(s, t) && LocalOk(s, s.threads[t])
    ensures s.threads[t].seen.ptr == Last(s) == s.tail.ptr
    ensures ChainOk(StepPushLink(s, t))
  {
    var l := s.threads[t];
    var s' := StepPushLink(s, t);
    assert s'.chain[..|s.chain|] == s.chain;
    assert l.node !in s.chain;
    assert Last(s') == l.node;
    forall i | 0 <= i < |s'.items|
      ensures s'.heap[s'.chain[i + 1]].value == Some(s'.items[i])
    {
      if i < |s.items| {
        assert s'.chain[i + 1] == s.chain[i + 1];
      }
    }
  }

  lemma LinkBalances(s: State, t: nat, a: Addr)
    requires ChainOk(s) && Links(s, t) && LocalOk(s, s.threads[t]) && a != 0 && Balanced(s, a)
    ensures StepPushLink(s, t).chain != [] && Balanced(StepPushLink(s, t), a)
  {
    hide Total;
    var l := s.threads[t];
    var s' := StepPushLink(s, t);
    LinkExtends(s, t);
    assert a in s'.chain <==> a in s.chain || a == l.node;
    assert l.node !in s.chain;
    BalanceMoves(s, s', t, PushSwing(l.v, l.node, l.seen), a);
  }

  lemma LinkKeepsLocal(s: State, t: nat, u: nat)
    requires Inv(s) && Links(s, t) && u < |s.threads|
    ensures LocalOk(StepPushLink(s, t), StepPushLink(s, t).threads[u])
  {
    assert LocalOk(s, s.threads[u]);
    assert LocalOk(s, s.threads[t]);
    LinkExtends(s, t);
    if u != t {
      PrivateIsMine(s, t, u);
    }
  }

  lemma PushLinkKeeps(s: State, t: nat)
    requires Inv(s) && t < |s.threads| && s.threads[t].PushLink?
    ensures Inv(StepPushLink(s, t))
  {
    var l := s.threads[t];
    var s' := StepPushLink(s, t);
    assert LocalOk(s, l);
    if s.heap[l.seen.ptr].next == NULL {
      var l' := PushSwing(l.v, l.node, l.seen);
      LinkExtends(s, t);
      HistoryGrows(s, s', t, l', Effect(t, Push(l.v), Pushed));
      forall u | 0 <= u < |s'.threads| ensures LocalOk(s', s'.threads[u]) {
        LinkKeepsLocal(s, t, u);
      }
      forall a: Addr | a != 0 ensures Balanced(s', a) {
        assert Balanced(s, a);
        LinkBalances(s, t, a);
      }
    } else {
      LoadKeeps(s, s', t, PushLoadNext(l.v, l.node, l.seen));
    }
  }

  // ---------------------------------------------------------------- moving the tail

  /** `s'` is `s` with `tail` moved from `p` to its successor, which is the last node. */
  ghost predicate TailMoves(s: State, s': State, p: Addr, next: CountedPtr) {
    && ChainOk(s)
    && s.tail.ptr == p && p in s.heap && s.heap[p].next == next && next.ptr != 0
    && s'.tail == next && s'.head == s.head
    && s'.heap == s.heap && s'.chain == s.chain && s'.items == s.items
  }

  lemma TailReachesLast(s: State, s': State, p: Addr, next: CountedPtr)
    requires TailMoves(s, s', p, next)
    ensures p != Last(s) && next == CountedPtr(Last(s), 1)
    ensures ChainOk(s')
  {
    assert s.chain[|s.chain| - 2] == p;
  }

  lemma TailMoveBalances(s: State, s': State, t: nat, p: Addr, next: CountedPtr, l: Local, a: Addr)
    requires TailMoves(s, s', p, next) && Moves(s, s', t, l) && a != 0 && Balanced(s, a)
    requires forall k: Kind | !k.Units? && !k.Counts? :: Gain(s.threads[t], l, k, a) == 0
    requires Gain(s.threads[t], l, Units, a) == if a == p then 1 else 0
    requires Gain(s.threads[t], l, Counts, a) == if a == p then s.tail.count - 1 else 0
    ensures s'.chain != [] && Balanced(s', a)
  {
    hide Total;
    TailReachesLast(s, s', p, next);
    BalanceMoves(s, s', t, l, a);
  }

  lemma TailMoveKeepsLocal(s: State, s': State, p: Addr, next: CountedPtr, l: Local)
    requires TailMoves(s, s', p, next) && LocalOk(s, l)
    ensures LocalOk(s', l)
  {
    TailReachesLast(s, s', p, next);
  }

  lemma TailMoveKeeps(s: State, s': State, t: nat, p: CountedPtr, next: CountedPtr, inc: int, k: Then)
    requires Inv(s) && TailMoves(s, s', p.ptr, next) && s.tail == p
    requires var l := Detach(p, inc, k);
      && Moves(s, s', t, l) && s'.hist == s.hist
      && LocalOk(s, l) && PhaseAt(l) == PhaseAt(s.threads[t])
      && TokensOf(l).own == TokensOf(s.threads[t]).own
      && TokensOf(s.threads[t]).pending == NULL && TokensOf(s.threads[t]).doomed == 0
      && (forall a: Addr | a != 0 :: Share(l, Refs, a) == Share(s.threads[t], Refs, a))
    ensures Inv(s')
  {
    var l := Detach(p, inc, k);
    TailReachesLast(s, s', p.ptr, next);
    HistoryQuiet(s, s', t, l);
    forall u | 0 <= u < |s'.threads| ensures LocalOk(s', s'.threads[u]) {
      assert LocalOk(s, if u == t then l else s.threads[u]);
      TailMoveKeepsLocal(s, s', p.ptr, next, s'.threads[u]);
    }
    forall a: Addr | a != 0 ensures Balanced(s', a) {
      assert Balanced(s, a);
      TailMoveBalances(s, s', t, p.ptr, next, l, a);
    }
  }

  lemma PushSwingKeeps(s: State, t: nat)
    requires Inv(s) && t < |s.threads| && s.threads[t].PushSwing?
    ensures Inv(StepPushSwing(s, t))
  {
    var l := s.threads[t];
    var s' := StepPushSwing(s, t);
    assert LocalOk(s, l);
    if s.tail == l.seen {
      TailMoveKeeps(s, s', t, l.seen, CountedPtr(l.node, 1), 0, Finish(Push(l.v), Pushed));
    } else {
      LoadKeeps(s, s', t, Release(l.seen.ptr, Finish(Push(l.v), Pushed)));
    }
  }

  lemma PushHelpKeeps(s: State, t: nat)
    requires Inv(s) && t < |s.threads| && s.threads[t].PushHelp?
    ensures Inv(StepPushHelp(s, t))
  {
    var l := s.threads[t];
    var s' := StepPushHelp(s, t);
    var k := PushAgain(l.v, l.node, l.seen);
    assert LocalOk(s, l);
    if s.tail == l.seen {
      TailMoveKeeps(s, s', t, l.seen, l.next, 0, k);
    } else {
      LoadKeeps(s, s', t, Release(l.seen.ptr, k));
    }
  }

  lemma PopHelpKeeps(s: State, t: nat)
    requires Inv(s) && t < |s.threads| && s.threads[t].PopHelp?
    ensures Inv(StepPopHelp(s, t))
  {
    var l := s.threads[t];
    var s' := StepPopHelp(s, t);
    assert LocalOk(s, l);
    if s.tail == l.tail {
      TailMoveKeeps(s, s', t, l.tail, l.next, 1, ReleaseHead(l.head));
    } else {
      LoadKeeps(s, s', t, Release(l.head.ptr, PopAgain(l.head)));
    }
  }

  // ---------------------------------------------------------------- moving the head

  ghost predicate HeadMoves(s: State, t: nat) {
    && ChainOk(s) && t < |s.threads| && s.threads[t].PopSwing?
    && LocalOk(s, s.threads[t]) && s.head == s.threads[t].head
  }

  lemma HeadAdvances(s: State, t: nat)
    requires HeadMoves(s, t)
    ensures |s.chain| >= 2 && s.threads[t].next == CountedPtr(s.chain[1], 1)
    ensures s.tail.ptr in s.chain[1..] && s.tail.ptr != s.chain[0]
    ensures ChainOk(StepPopSwing(s, t))
  {
    var s' := StepPopSwing(s, t);
    assert |s.chain| >= 2;
    assert s.heap[s.chain[0]].next == CountedPtr(s.chain[1], 1);
    assert Last(s') == Last(s);
    forall i | 0 <= i < |s'.chain| - 1
      ensures s'.heap[s'.chain[i]].next == CountedPtr(s'.chain[i + 1], 1)
    {
      assert s.heap[s.chain[i + 1]].next == CountedPtr(s.chain[i + 2], 1);
    }
    forall i | 0 <= i < |s'.items|
      ensures s'.heap[s'.chain[i + 1]].value == Some(s'.items[i])
    {
      assert s.heap[s.chain[i + 2]].value == Some(s.items[i + 1]);
    }
  }

  lemma HeadMoveMembers(s: State, t: nat, a: Addr)
    requires HeadMoves(s, t)
    ensures StepPopSwing(s, t).chain != [] && Last(StepPopSwing(s, t)) == Last(s) != s.chain[0]
    ensures s.chain[0] == s.threads[t].head.ptr
    ensures a in StepPopSwing(s, t).chain <==> a in s.chain && a != s.chain[0]
  {
    HeadAdvances(s, t);
    assert s.chain == [s.chain[0]] + s.chain[1..];
  }

  /** The old head loses its list counter (now in the thread's hand); the new one gains an acquisition. */
  lemma HeadMoveCounters(s: State, t: nat, a: Addr)
    requires HeadMoves(s, t) && a != 0
    ensures var s', l := StepPopSwing(s, t), s.threads[t];
      && s'.chain != []
      && Attached(s', a) - Attached(s, a) == (if a == l.head.ptr then -1 else 0)
      && AttachedCount(s', a) - AttachedCount(s, a)
         == (if a == l.next.ptr then 1 else 0) - (if a == l.head.ptr then l.head.count - 1 else 0)
  {
    HeadMoveMembers(s, t, a);
    HeadAdvances(s, t);
    var s' := StepPopSwing(s, t);
    assert s'.tail == s.tail && s'.head == s.threads[t].next.Increased() && s.head == s.threads[t].head;
    assert s'.head.count == 2;
    hide ChainOk, LocalOk, HeadMoves, StepPopSwing, Last;
  }

  lemma HeadMoveMoves(s: State, t: nat)
    requires HeadMoves(s, t)
    ensures s.items != [] && s.chain != [] && s.threads[t].head.ptr in s.heap && s.threads[t].next.ptr in s.heap
    ensures s.threads[t].head.ptr != s.threads[t].next.ptr && s.threads[t].head == s.head
    ensures var l, s' := s.threads[t], StepPopSwing(s, t);
      Moves(s, s', t, PopTake(l.head, l.next, s.items[0])) && s'.heap == s.heap
  {
    HeadAdvances(s, t);
  }

  lemma HeadMoveBalances(s: State, t: nat, a: Addr)
    requires HeadMoves(s, t) && a != 0 && Balanced(s, a)
    ensures StepPopSwing(s, t).chain != [] && Balanced(StepPopSwing(s, t), a)
  {
    assert t < |s.threads| && s.threads[t].PopSwing?;
    hide Total, Balanced, StepPopSwing, Attached, AttachedCount, Moves, ChainOk, LocalOk, HeadMoves;
    var l := s.threads[t];
    HeadMoveCounters(s, t, a);
    HeadMoveMoves(s, t);
    BalanceMoves(s, StepPopSwing(s, t), t, PopTake(l.head, l.next, s.items[0]), a);
  }

  lemma HeadMoveKeepsLocal(s: State, t: nat, u: nat)
    requires HeadMoves(s, t) && u < |s.threads| && LocalOk(s, s.threads[u])
    ensures LocalOk(StepPopSwing(s, t), StepPopSwing(s, t).threads[u])
  {
    HeadAdvances(s, t);
  }

  lemma HeadMoveKeepsTakers(s: State, t: nat)
    requires HeadMoves(s, t) && LocalsOk(s) && TakersDiffer(s)
    ensures TakersDiffer(StepPopSwing(s, t))
  {
    HeadAdvances(s, t);
    forall u | 0 <= u < |s.threads| && u != t && s.threads[u].PopTake?
      ensures s.threads[u].next.ptr != s.chain[1]
    {
      assert LocalOk(s, s.threads[u]);
    }
  }

  lemma HeadMoveKeepsAll(s: State, t: nat)
    requires HeadMoves(s, t) && LocalsOk(s) && AllBalanced(s)
    ensures StepPopSwing(s, t).chain != [] && LocalsOk(StepPopSwing(s, t)) && AllBalanced(StepPopSwing(s, t))
  {
    var s' := StepPopSwing(s, t);
    HeadAdvances(s, t);
    forall u | 0 <= u < |s'.threads| ensures LocalOk(s', s'.threads[u]) {
      assert LocalOk(s, s.threads[u]);
      HeadMoveKeepsLocal(s, t, u);
    }
    forall a: Addr | a != 0 ensures Balanced(s', a) {
      assert Balanced(s, a);
      HeadMoveBalances(s, t, a);
    }
  }

  lemma PopSwingKeeps(s: State, t: nat)
    requires Inv(s) && t < |s.threads| && s.threads[t].PopSwing?
    ensures Inv(StepPopSwing(s, t))
  {
    var l := s.threads[t];
    var s' := StepPopSwing(s, t);
    assert LocalOk(s, l);
    if s.head == l.head {
      HeadAdvances(s, t);
      HeadMoveKeepsTakers(s, t);
      HeadMoveKeepsAll(s, t);
      hide LocalsOk, AllBalanced, HistoryOk, TakersDiffer, LocalOk;
      HistoryGrows(s, s', t, PopTake(l.head, l.next, s.items[0]), Effect(t, TryPop, Popped(Some(s.items[0]))));
    } else {
      LoadKeeps(s, s', t, Release(l.head.ptr, PopAgain(l.head)));
    }
  }

  // ---------------------------------------------------------------- taking the element, deleting a node

  lemma TakeKeepsLocal(s: State, t: nat, u: nat)
    requires Inv(s) && t < |s.threads| && s.threads[t].PopTake? && u < |s.threads|
    ensures LocalOk(StepPopTake(s, t), StepPopTake(s, t).threads[u])
  {
    assert LocalOk(s, s.threads[t]);
    assert LocalOk(s, s.threads[u]);
  }

  lemma TakeBalances(s: State, t: nat, a: Addr)
    requires ChainOk(s) && a != 0 && Balanced(s, a)
    requires t < |s.threads| && s.threads[t].PopTake? && LocalOk(s, s.threads[t])
    ensures Balanced(StepPopTake(s, t), a)
  {
    hide Total;
    var l := s.threads[t];
    BalanceMoves(s, StepPopTake(s, t), t, Detach(l.head, 0, ReleaseNext(l.next.ptr, l.expected)), a);
  }

  lemma PopTakeKeeps(s: State, t: nat)
    requires Inv(s) && t < |s.threads| && s.threads[t].PopTake?
    ensures Inv(StepPopTake(s, t))
  {
    var l := s.threads[t];
    var s' := StepPopTake(s, t);
    assert LocalOk(s, l);
    var l' := Detach(l.head, 0, ReleaseNext(l.next.ptr, l.expected));
    HistoryQuiet(s, s', t, l');
    forall u | 0 <= u < |s'.threads| ensures LocalOk(s', s'.threads[u]) {
      TakeKeepsLocal(s, t, u);
    }
    forall a: Addr | a != 0 ensures Balanced(s', a) {
      assert Balanced(s, a);
      TakeBalances(s, t, a);
    }
  }

  /** A doomed node is out of everybody's reach. */
  lemma DoomedIsFree(s: State, t: nat)
    requires Inv(s) && Modest(s) && t < |s.threads| && s.threads[t].Delete?
    requires s.threads[t].node != 0
    ensures var a := s.threads[t].node;
      && a in s.heap && a !in s.chain && a != s.tail.ptr
      && Total(s.threads, Refs, a) == 0 && Total(s.threads, Units, a) == 0 && Total(s.threads, Dooms, a) == 1
  {
    var a := s.threads[t].node;
    TotalCovers(s.threads, t, t, Dooms, a);
    assert Balanced(s, a);
    ZeroMeansFree(s, a);
    TotalNonNegative(s.threads, Units, a);
  }

  lemma DeleteBalances(s: State, t: nat, a: Addr)
    requires ChainOk(s) && a != 0 && Balanced(s, a)
    requires t < |s.threads| && s.threads[t].Delete?
    requires var n := s.threads[t].node;
      && n != 0 && n in s.heap && n !in s.chain && n != s.tail.ptr
      && Total(s.threads, Refs, n) == 0 && Total(s.threads, Units, n) == 0 && Total(s.threads, Dooms, n) == 1
    ensures Balanced(StepDelete(s, t), a)
  {
    var l := s.threads[t];
    var s' := StepDelete(s, t);
    TokensAfter(l.k);
    if a == l.node {
      hide Total;
      TotalUpdate(s.threads, t, Resume(l.k), Refs, a);
      TotalUpdate(s.threads, t, Resume(l.k), Units, a);
      TotalUpdate(s.threads, t, Resume(l.k), Dooms, a);
      TotalCovers(s.threads, t, t, Refs, a);
      TotalCovers(s.threads, t, t, Units, a);
    } else {
      assert Moves(s, s', t, Resume(l.k));
      assert a in s.heap <==> a in s'.heap;
      assert Attached(s', a) == Attached(s, a) && AttachedCount(s', a) == AttachedCount(s, a);
      hide Total, StepDelete, Attached, AttachedCount, Moves, Balanced, ChainOk, Resume;
      BalanceMoves(s, s', t, Resume(l.k), a);
    }
  }

  /** `l` holds nothing of node `a`. */
  predicate Ignores(l: Local, a: Addr) {
    var x := TokensOf(l);
    x.own != a && x.ref1 != a && x.ref2 != a && x.pending.ptr != a
  }

  lemma DeleteKeepsLocal(s: State, t: nat, l: Local)
    requires ChainOk(s) && t < |s.threads| && s.threads[t].Delete? && s.threads[t].node in s.heap
    requires LocalOk(s, l) && Ignores(l, s.threads[t].node)
    ensures LocalOk(StepDelete(s, t), l)
  {
  }

  lemma DeleteKeepsChain(s: State, t: nat)
    requires ChainOk(s) && t < |s.threads| && s.threads[t].Delete?
    requires s.threads[t].node in s.heap && s.threads[t].node !in s.chain
    ensures ChainOk(StepDelete(s, t))
  {
  }

  lemma DeleteKeepsLocals(s: State, t: nat)
    requires Inv(s) && Modest(s) && t < |s.threads| && s.threads[t].Delete?
    requires s.threads[t].node in s.heap && LocalOk(s, s.threads[t])
    ensures LocalsOk(StepDelete(s, t))
  {
    var l := s.threads[t];
    var s' := StepDelete(s, t);
    DoomedIsFree(s, t);
    ResumeOk(s, l, l.k);
    forall u | 0 <= u < |s'.threads| ensures LocalOk(s', s'.threads[u]) {
      assert LocalOk(s, s.threads[u]);
      TotalCovers(s.threads, u, u, Refs, l.node);
      TotalCovers(s.threads, u, u, Units, l.node);
      hide Inv, ChainOk, LocalOk, Total;
      assert Ignores(s.threads[u], l.node);
      TokensAfter(l.k);
      DeleteKeepsLocal(s, t, s'.threads[u]);
    }
  }

  lemma DeleteKeeps(s: State, t: nat)
    requires Inv(s) && Modest(s) && t < |s.threads| && s.threads[t].Delete?
    ensures Inv(StepDelete(s, t))
  {
    var l := s.threads[t];
    var s' := StepDelete(s, t);
    assert LocalOk(s, l);
    DoomedIsFree(s, t);
    DeleteKeepsChain(s, t);
    DeleteKeepsLocals(s, t);
    ResumeOk(s, l, l.k);
    hide ChainOk, LocalsOk, HistoryOk, LocalOk, TakersDiffer;
    HistoryQuiet(s, s', t, Resume(l.k));
    forall a: Addr | a != 0 ensures Balanced(s', a) {
      assert Balanced(s, a);
      hide StepDelete, Balanced;
      DeleteBalances(s, t, a);
    }
    assert TakersDiffer(s') by {
      TakersKept(s, s', t, Resume(l.k));
    }
  }
}
