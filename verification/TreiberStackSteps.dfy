/** Every atomic step of the Treiber stack keeps the invariant. */
module TreiberStackSteps {
  import opened Basics
  import opened Histories
  import opened CountedPointers
  import opened TreiberStack
  import opened TreiberStackInvariant

  // ---------------------------------------------------------------- loads

  lemma PopLoadKeeps(s: State, t: nat)
    requires Inv(s) && t < |s.threads| && s.threads[t].PopLoad?
    ensures Inv(StepPopLoad(s, t))
  {
    NextsFit(s);
    hide Inv;
    LoadKeeps(s, StepPopLoad(s, t), t, PopAcquire(s.head));
  }

  lemma PopReadNextKeeps(s: State, t: nat)
    requires Inv(s) && t < |s.threads| && s.threads[t].PopReadNext?
    ensures Inv(StepPopReadNext(s, t))
  {
    assert LocalOk(s, s.threads[t]) && LocalFits(s.threads[t]);
    NextsFit(s);
    hide Inv;
    var h := s.threads[t].head;
    LoadKeeps(s, StepPopReadNext(s, t), t, PopSwing(h, s.heap[h.ptr].next));
  }

  // ---------------------------------------------------------------- starting and returning

  predicate Allocates(s: State, c: Choice) {
    c.op.Push? && 0 < c.addr < POINTER_SPAN && c.addr !in s.heap
  }

  lemma PopStarts(s: State, t: nat)
    requires Inv(s) && t < |s.threads| && s.threads[t].Idle?
    ensures Inv(Go(s.(hist := s.hist + [Call(t, TryPop)]), t, PopLoad))
  {
    var s' := Go(s.(hist := s.hist + [Call(t, TryPop)]), t, PopLoad);
    hide HistoryOk, Total, WordsFit;
    HistoryGrows(s, s', t, PopLoad, Call(t, TryPop));
    NextsFit(s);
    WordsMove(s, s', t, PopLoad);
    ShapeKeeps(s, s', t, PopLoad);
  }

  /** Memory unchanged, no token moved. */
  lemma ShapeKeeps(s: State, s': State, t: nat, l: Local)
    requires ChainOk(s) && LocalsOk(s) && AllBalanced(s) && Moves(s, s', t, l) && LocalOk(s, l)
    requires TokensOf(l) == TokensOf(s.threads[t])
    requires s'.heap == s.heap && s'.chain == s.chain && s'.items == s.items && s'.attached == s.attached
    requires s'.head == s.head || (s.chain == [] && s'.head.ptr == 0)
    ensures ChainOk(s') && LocalsOk(s') && AllBalanced(s')
  {
    hide TokensOf, Total;
    forall u | 0 <= u < |s'.threads| ensures LocalOk(s', s'.threads[u]) {
      assert LocalOk(s, if u == t then l else s.threads[u]);
    }
    forall a: Addr | a != 0 ensures Balanced(s', a) {
      assert Balanced(s, a);
      hide Balanced, LocalOk, ChainOk;
      BalanceMoves(s, s', t, l, a);
    }
  }

  lemma AllocatedBalances(s: State, t: nat, c: Choice)
    requires ChainOk(s) && Balanced(s, c.addr)
    requires t < |s.threads| && s.threads[t].Idle? && Allocates(s, c)
    ensures Balanced(StepIdle(s, t, c), c.addr)
  {
    hide Total;
    var l := PushLoad(c.op.v, c.addr);
    NoUnitsNoCounts(s.threads, c.addr);
    TotalUpdate(s.threads, t, l, Refs, c.addr);
    TotalUpdate(s.threads, t, l, Units, c.addr);
    TotalUpdate(s.threads, t, l, Counts, c.addr);
    TotalUpdate(s.threads, t, l, Dooms, c.addr);
  }

  lemma AllocateKeepsShape(s: State, t: nat, c: Choice)
    requires ChainOk(s) && LocalsOk(s) && t < |s.threads| && s.threads[t].Idle? && Allocates(s, c)
    ensures ChainOk(StepIdle(s, t, c)) && LocalsOk(StepIdle(s, t, c))
  {
    var s' := StepIdle(s, t, c);
    forall u | 0 <= u < |s'.threads| ensures LocalOk(s', s'.threads[u]) {
      assert LocalOk(s, s.threads[u]);
    }
  }

  lemma PushStarts(s: State, t: nat, c: Choice)
    requires Inv(s) && t < |s.threads| && s.threads[t].Idle? && Allocates(s, c)
    ensures Inv(StepIdle(s, t, c))
  {
    hide HistoryOk, Total, WordsFit, LocalsOk;
    var s' := StepIdle(s, t, c);
    var l := PushLoad(c.op.v, c.addr);
    AllocateKeepsShape(s, t, c);
    HistoryGrows(s, s', t, l, Call(t, c.op));
    NextsFit(s);
    WordsMove(s, s', t, l);
    forall a: Addr | a != 0 ensures Balanced(s', a) {
      assert Balanced(s, a);
      if a == c.addr {
        AllocatedBalances(s, t, c);
      } else {
        hide Balanced, ChainOk;
        BalanceMoves(s, s', t, l, a);
      }
    }
  }

  lemma IdleKeeps(s: State, t: nat, c: Choice)
    requires Inv(s) && t < |s.threads| && s.threads[t].Idle?
    ensures Inv(StepIdle(s, t, c))
  {
    hide Inv;
    if c.op.TryPop? {
      PopStarts(s, t);
    } else if Allocates(s, c) {
      PushStarts(s, t, c);
    } else {
      LoadKeeps(s, StepIdle(s, t, c), t, Idle);
    }
  }

  lemma ExitKeeps(s: State, t: nat)
    requires Inv(s) && t < |s.threads| && s.threads[t].Exit?
    ensures Inv(StepExit(s, t))
  {
    hide HistoryOk, Total, WordsFit;
    var s' := StepExit(s, t);
    HistoryGrows(s, s', t, Idle, Return(t, s.threads[t].res));
    NextsFit(s);
    WordsMove(s, s', t, Idle);
    ShapeKeeps(s, s', t, Idle);
  }

  // ---------------------------------------------------------------- push

  /** Writing the expected head into the private node. */
  lemma PrivateWriteKeeps(s: State, s': State, t: nat, n: Addr, v: Item)
    requires Inv(s) && Moves(s, s', t, PushSwing(v, n)) && LocalOk(s, PushSwing(v, n))
    requires s.threads[t] == PushLoad(v, n) || s.threads[t] == PushSwing(v, n)
    requires s'.heap == s.heap[n := s.heap[n].(next := s.head)]
    requires s'.head == s.head && s'.chain == s.chain && s'.items == s.items && s'.attached == s.attached && s'.hist == s.hist
    ensures Inv(s')
  {
    hide HistoryOk, Total, WordsFit, AllBalanced;
    var l := PushSwing(v, n);
    HistoryQuiet(s, s', t, l);
    assert LocalFits(l) by {
      PrivateFits(s, t, n);
    }
    NextsFit(s);
    WordsMove(s, s', t, l);
    assert n !in s.chain;
    forall u | 0 <= u < |s'.threads| ensures LocalOk(s', s'.threads[u]) {
      assert LocalOk(s, if u == t then l else s.threads[u]);
    }
    PrivateBalances(s, s', t, n, v);
  }

  lemma PrivateBalances(s: State, s': State, t: nat, n: Addr, v: Item)
    requires AllBalanced(s) && Moves(s, s', t, PushSwing(v, n)) && n in s.heap
    requires s.threads[t] == PushLoad(v, n) || s.threads[t] == PushSwing(v, n)
    requires s'.heap == s.heap[n := s.heap[n].(next := s.head)]
    requires s'.head == s.head && s'.chain == s.chain && s'.attached == s.attached
    ensures AllBalanced(s')
  {
    hide Total;
    forall a: Addr | a != 0 ensures Balanced(s', a) {
      assert Balanced(s, a);
      hide Balanced;
      BalanceMoves(s, s', t, PushSwing(v, n), a);
    }
  }

  lemma PrivateFits(s: State, t: nat, n: Addr)
    requires WordsFit(s) && t < |s.threads| && TokensOf(s.threads[t]).own == n != 0
    ensures n < POINTER_SPAN
  {
    assert LocalFits(s.threads[t]);
  }

  lemma PushLoadKeeps(s: State, t: nat)
    requires Inv(s) && t < |s.threads| && s.threads[t].PushLoad?
    ensures Inv(StepPushLoad(s, t))
  {
    var l := s.threads[t];
    assert LocalOk(s, l);
    hide Inv;
    PrivateWriteKeeps(s, StepPushLoad(s, t), t, l.node, l.v);
  }

  ghost predicate Links(s: State, t: nat) {
    && ChainOk(s) && t < |s.threads| && s.threads[t].PushSwing? && LocalOk(s, s.threads[t])
    && s.head == s.heap[s.threads[t].node].next
  }

  lemma LinkExtends(s: State, t: nat)
    requires Links(s, t)
    ensures s.threads[t].node !in s.attached && ChainOk(StepPushSwing(s, t, false))
  {
    var s' := StepPushSwing(s, t, false);
    var n := s.threads[t].node;
    assert n !in s.attached;
    assert s'.attached.Keys == s.attached.Keys + {n};
    assert s'.chain[1..] == s.chain;
    forall i | 0 <= i < |s'.chain| - 1
      ensures s'.heap[s'.chain[i]].next == CountedPtr(s'.chain[i + 1], s'.attached[s'.chain[i + 1]])
    {
      if i > 0 {
        assert s.heap[s.chain[i - 1]].next == CountedPtr(s.chain[i], s.attached[s.chain[i]]);
      }
    }
  }

  lemma LinkBalances(s: State, t: nat, a: Addr)
    requires Links(s, t) && a != 0 && Balanced(s, a)
    ensures Balanced(StepPushSwing(s, t, false), a)
  {
    hide Total;
    LinkExtends(s, t);
    var l := s.threads[t];
    assert l.node !in s.attached;
    hide ChainOk, Balanced;
    BalanceMoves(s, StepPushSwing(s, t, false), t, Exit(Push(l.v), Pushed), a);
  }

  lemma PrivateIsMine(s: State, t: nat, u: nat)
    requires AllBalanced(s) && t < |s.threads| && u < |s.threads| && t != u
    requires var n := TokensOf(s.threads[t]).own; n != 0 && n in s.heap
    ensures TokensOf(s.threads[u]).own != TokensOf(s.threads[t]).own
  {
    var a := TokensOf(s.threads[t]).own;
    assert Balanced(s, a);
    TotalCovers(s.threads, t, u, Units, a);
  }

  lemma LinkKeepsLocals(s: State, t: nat)
    requires Links(s, t) && LocalsOk(s) && AllBalanced(s)
    ensures LocalsOk(StepPushSwing(s, t, false))
  {
    hide Total;
    var s' := StepPushSwing(s, t, false);
    forall u | 0 <= u < |s'.threads| ensures LocalOk(s', s'.threads[u]) {
      assert LocalOk(s, s.threads[u]);
      if u != t {
        PrivateIsMine(s, t, u);
      }
    }
  }

  lemma PushLinkKeeps(s: State, t: nat)
    requires Inv(s) && Links(s, t)
    ensures Inv(StepPushSwing(s, t, false))
  {
    hide HistoryOk, Total, WordsFit, LocalsOk;
    var l := s.threads[t];
    var s' := StepPushSwing(s, t, false);
    LinkExtends(s, t);
    LinkKeepsLocals(s, t);
    HistoryGrows(s, s', t, Exit(Push(l.v), Pushed), Effect(t, Push(l.v), Pushed));
    PrivateFits(s, t, l.node);
    NextsFit(s);
    WordsMove(s, s', t, Exit(Push(l.v), Pushed));
    forall a: Addr | a != 0 ensures Balanced(s', a) {
      assert Balanced(s, a);
      hide Balanced, ChainOk, LocalOk;
      LinkBalances(s, t, a);
    }
  }

  lemma PushSwingKeeps(s: State, t: nat, spurious: bool)
    requires Inv(s) && t < |s.threads| && s.threads[t].PushSwing?
    ensures Inv(StepPushSwing(s, t, spurious))
  {
    var l := s.threads[t];
    assert LocalOk(s, l) && ChainOk(s);
    hide Inv, ChainOk;
    if s.head == s.heap[l.node].next && !spurious {
      PushLinkKeeps(s, t);
    } else {
      PrivateWriteKeeps(s, StepPushSwing(s, t, spurious), t, l.node, l.v);
    }
  }

  // ---------------------------------------------------------------- acquisition

  lemma EmptyAcquireKeeps(s: State, t: nat)
    requires Inv(s) && t < |s.threads| && s.threads[t] == PopAcquire(s.head) && s.head.ptr == 0
    ensures Inv(StepPopAcquire(s, t))
  {
    var s' := StepPopAcquire(s, t);
    assert s.chain == [];
    hide HistoryOk, Total, WordsFit;
    var l := Exit(TryPop, Popped(None));
    HistoryGrows(s, s', t, l, Effect(t, TryPop, Popped(None)));
    NextsFit(s);
    WordsMove(s, s', t, l);
    ShapeKeeps(s, s', t, l);
  }

  lemma TopNode(s: State)
    requires ChainOk(s) && s.head.ptr != 0
    ensures s.chain != [] && s.chain[0] == s.head.ptr && s.head.ptr in s.heap && s.head.ptr in s.attached
    ensures s.attached[s.head.ptr] == s.head.count && s.heap[s.head.ptr].linked
  {
  }

  lemma AcquireKeepsChain(s: State, t: nat)
    requires ChainOk(s) && t < |s.threads| && s.threads[t] == PopAcquire(s.head) && s.head.ptr != 0
    ensures ChainOk(StepPopAcquire(s, t))
  {
    TopNode(s);
    assert StepPopAcquire(s, t).attached.Keys == s.attached.Keys;
  }

  lemma AcquireKeepsShape(s: State, t: nat)
    requires ChainOk(s) && LocalsOk(s) && t < |s.threads| && s.threads[t] == PopAcquire(s.head) && s.head.ptr != 0
    ensures ChainOk(StepPopAcquire(s, t)) && LocalsOk(StepPopAcquire(s, t))
  {
    var s' := StepPopAcquire(s, t);
    AcquireKeepsChain(s, t);
    TopNode(s);
    hide ChainOk;
    forall u | 0 <= u < |s'.threads| ensures LocalOk(s', s'.threads[u]) {
      assert LocalOk(s, s.threads[u]);
    }
  }

  lemma AcquireBalances(s: State, t: nat, a: Addr)
    requires ChainOk(s) && a != 0 && Balanced(s, a) && s.head.Fits()
    requires t < |s.threads| && s.threads[t] == PopAcquire(s.head) && s.head.ptr != 0
    ensures Balanced(StepPopAcquire(s, t), a)
  {
    hide Total;
    TotalRange(s.threads, Units, a);
    TopNode(s);
    hide ChainOk;
    BalanceMoves(s, StepPopAcquire(s, t), t, PopReadNext(s.head.Increased()), a);
  }

  lemma NodeAcquireKeeps(s: State, t: nat)
    requires Inv(s) && t < |s.threads| && s.threads[t] == PopAcquire(s.head) && s.head.ptr != 0
    ensures Inv(StepPopAcquire(s, t))
  {
    hide HistoryOk, Total, WordsFit, LocalsOk;
    var s' := StepPopAcquire(s, t);
    var l := PopReadNext(s.head.Increased());
    TopNode(s);
    AcquireKeepsShape(s, t);
    HistoryQuiet(s, s', t, l);
    NextsFit(s);
    WordsMove(s, s', t, l);
    forall a: Addr | a != 0 ensures Balanced(s', a) {
      assert Balanced(s, a);
      hide Balanced, ChainOk;
      AcquireBalances(s, t, a);
    }
  }

  lemma PopAcquireKeeps(s: State, t: nat)
    requires Inv(s) && t < |s.threads| && s.threads[t].PopAcquire?
    ensures Inv(StepPopAcquire(s, t))
  {
    NextsFit(s);
    hide Inv;
    if s.threads[t].seen != s.head {
      LoadKeeps(s, StepPopAcquire(s, t), t, PopAcquire(s.head));
    } else if s.head.ptr == 0 {
      EmptyAcquireKeeps(s, t);
    } else {
      NodeAcquireKeeps(s, t);
    }
  }

  // ---------------------------------------------------------------- removal

  ghost predicate HeadMoves(s: State, t: nat) {
    && ChainOk(s) && t < |s.threads| && s.threads[t].PopSwing?
    && LocalOk(s, s.threads[t]) && s.head == s.threads[t].head
  }

  lemma HeadAdvances(s: State, t: nat)
    requires HeadMoves(s, t)
    ensures s.chain != [] && s.items != [] && s.chain[0] == s.head.ptr && s.head.ptr in s.attached
    ensures s.attached[s.head.ptr] == s.head.count && s.heap[s.head.ptr].value == Some(s.items[0])
    ensures ChainOk(StepPopSwing(s, t))
  {
    TopNode(s);
    var s' := StepPopSwing(s, t);
    assert s'.attached.Keys == s.attached.Keys - {s.chain[0]};
    forall i | 0 <= i < |s'.chain| - 1
      ensures s'.heap[s'.chain[i]].next == CountedPtr(s'.chain[i + 1], s'.attached[s'.chain[i + 1]])
    {
      assert s.heap[s.chain[i + 1]].next == CountedPtr(s.chain[i + 2], s.attached[s.chain[i + 2]]);
    }
    if |s.chain| > 1 {
      assert s.heap[s.chain[0]].next == CountedPtr(s.chain[1], s.attached[s.chain[1]]);
    }
  }

  lemma HeadMoveBalances(s: State, t: nat, a: Addr)
    requires HeadMoves(s, t) && a != 0 && Balanced(s, a)
    ensures Balanced(StepPopSwing(s, t), a)
  {
    hide Total;
    HeadAdvances(s, t);
    var l := PopTake(s.head, s.items[0]);
    var s' := StepPopSwing(s, t);
    assert Moves(s, s', t, l) && s'.heap == s.heap;
    hide ChainOk, LocalOk, Balanced;
    BalanceMoves(s, s', t, l, a);
  }

  lemma HeadMoveKeepsLocals(s: State, t: nat)
    requires HeadMoves(s, t) && LocalsOk(s)
    ensures LocalsOk(StepPopSwing(s, t))
  {
    var s' := StepPopSwing(s, t);
    HeadAdvances(s, t);
    forall u | 0 <= u < |s'.threads| ensures LocalOk(s', s'.threads[u]) {
      assert LocalOk(s, s.threads[u]);
    }
  }

  lemma PopRemoveKeeps(s: State, t: nat)
    requires Inv(s) && HeadMoves(s, t)
    ensures Inv(StepPopSwing(s, t))
  {
    hide HistoryOk, Total, WordsFit, LocalsOk;
    var s' := StepPopSwing(s, t);
    HeadAdvances(s, t);
    HeadMoveKeepsLocals(s, t);
    var l := PopTake(s.head, s.items[0]);
    HistoryGrows(s, s', t, l, Effect(t, TryPop, Popped(Some(s.items[0]))));
    NextsFit(s);
    WordsMove(s, s', t, l);
    forall a: Addr | a != 0 ensures Balanced(s', a) {
      assert Balanced(s, a);
      hide Balanced, ChainOk, LocalOk;
      HeadMoveBalances(s, t, a);
    }
  }

  lemma PopSwingKeeps(s: State, t: nat)
    requires Inv(s) && t < |s.threads| && s.threads[t].PopSwing?
    ensures Inv(StepPopSwing(s, t))
  {
    var l := s.threads[t];
    assert LocalOk(s, l) && ChainOk(s);
    NextsFit(s);
    hide Inv, ChainOk;
    if s.head == l.head {
      PopRemoveKeeps(s, t);
    } else {
      LoadKeeps(s, StepPopSwing(s, t), t, Release(l.head.ptr, s.head));
    }
  }

  /** A node whose counter is in one thread's hand is in no chain and in no other thread's hand. */
  lemma PendingIsMine(s: State, t: nat, u: nat)
    requires AllBalanced(s) && t < |s.threads| && u < |s.threads|
    requires var p := TokensOf(s.threads[t]).pending.ptr; p != 0 && p in s.heap
    ensures TokensOf(s.threads[t]).pending.ptr !in s.attached
    ensures u != t ==> TokensOf(s.threads[u]).pending.ptr != TokensOf(s.threads[t]).pending.ptr
    ensures u != t ==> TokensOf(s.threads[u]).own != TokensOf(s.threads[t]).pending.ptr
  {
    var p := TokensOf(s.threads[t]).pending.ptr;
    assert Balanced(s, p);
    TotalCovers(s.threads, t, u, Units, p);
  }

  lemma TakeKeepsShape(s: State, t: nat)
    requires ChainOk(s) && LocalsOk(s) && AllBalanced(s) && t < |s.threads| && s.threads[t].PopTake? && LocalOk(s, s.threads[t])
    ensures ChainOk(StepPopTake(s, t)) && LocalsOk(StepPopTake(s, t))
  {
    hide Total;
    var s' := StepPopTake(s, t);
    var p := s.threads[t].head.ptr;
    PendingIsMine(s, t, t);
    hide AllBalanced;
    forall u | 0 <= u < |s'.threads| ensures LocalOk(s', s'.threads[u]) {
      assert LocalOk(s, s.threads[u]);
      PendingIsMine(s, t, u);
    }
  }

  lemma PopTakeKeeps(s: State, t: nat)
    requires Inv(s) && t < |s.threads| && s.threads[t].PopTake?
    ensures Inv(StepPopTake(s, t))
  {
    hide HistoryOk, Total, WordsFit;
    assert LocalOk(s, s.threads[t]);
    TakeKeepsShape(s, t);
    var s' := StepPopTake(s, t);
    var l := Detach(s.threads[t].head, s.threads[t].expected);
    HistoryQuiet(s, s', t, l);
    NextsFit(s);
    assert LocalFits(l) by {
      RegisterFits(s, t);
    }
    WordsMove(s, s', t, l);
    forall a: Addr | a != 0 ensures Balanced(s', a) {
      assert Balanced(s, a);
      hide Balanced, ChainOk, LocalsOk;
      BalanceMoves(s, s', t, l, a);
    }
  }

  lemma RegisterFits(s: State, t: nat)
    requires WordsFit(s) && t < |s.threads|
    ensures LocalFits(s.threads[t])
  {
  }

  // ---------------------------------------------------------------- releases

  /** A referenced or pending node is settled only together with its last reference. */
  lemma NotYetDue(s: State, t: nat, a: Addr)
    requires Balanced(s, a) && |s.threads| < COUNT_SPAN && t < |s.threads| && a != 0 && a in s.heap
    requires Share(s.threads[t], Refs, a) == 1
    ensures Due(OpenUnits(s, a), s.heap[a].internal) == 0
    ensures OpenUnits(s, a) == 1 ==> s.heap[a].internal <= 0
    ensures OpenUnits(s, a) == 0 || OpenUnits(s, a) == 1
  {
    hide Total;
    TotalRange(s.threads, Refs, a);
    TotalRange(s.threads, Units, a);
    TotalCovers(s.threads, t, t, Refs, a);
    if OpenUnits(s, a) == 0 {
      NoUnitsNoCounts(s.threads, a);
    }
  }

  lemma DetachBalances(s: State, t: nat, a: Addr)
    requires a != 0 && Balanced(s, a) && |s.threads| < COUNT_SPAN
    requires t < |s.threads| && s.threads[t].Detach? && s.threads[t].counter.ptr in s.heap
    ensures Balanced(StepDetach(s, t), a)
  {
    hide Total;
    var l := s.threads[t];
    var k := Finish(Popped(Some(l.r)));
    var p := l.counter.ptr;
    var l' := if s.heap[p].internal == -(l.counter.count - 2) then Delete(p, k) else Resume(k);
    if a == p {
      NotYetDue(s, t, a);
      TotalCovers(s.threads, t, t, Units, a);
    }
    var s' := StepDetach(s, t);
    assert Moves(s, s', t, l');
    hide Balanced, Moves;
    BalanceMoves(s, s', t, l', a);
  }

  lemma ReleaseBalances(s: State, t: nat, a: Addr)
    requires a != 0 && Balanced(s, a) && |s.threads| < COUNT_SPAN
    requires t < |s.threads| && s.threads[t].Release? && s.threads[t].node in s.heap
    ensures Balanced(StepRelease(s, t), a)
  {
    hide Total;
    var l := s.threads[t];
    var l' := if s.heap[l.node].internal == 1 then Delete(l.node, PopAgain(l.seen)) else Resume(PopAgain(l.seen));
    if a == l.node {
      NotYetDue(s, t, a);
    }
    var s' := StepRelease(s, t);
    assert Moves(s, s', t, l');
    hide Balanced, Moves;
    BalanceMoves(s, s', t, l', a);
  }

  /** Only internal counts change. */
  lemma CountKeepsShape(s: State, s': State, t: nat, l: Local)
    requires ChainOk(s) && LocalsOk(s) && Moves(s, s', t, l) && LocalOk(s, l)
    requires s'.chain == s.chain && s'.items == s.items && s'.attached == s.attached && s'.head == s.head
    requires s'.heap.Keys == s.heap.Keys
    requires forall a | a in s.heap :: s'.heap[a].(internal := 0) == s.heap[a].(internal := 0)
    ensures ChainOk(s') && LocalsOk(s')
  {
    assert forall a | a in s.heap :: s'.heap[a].next == s.heap[a].next && s'.heap[a].value == s.heap[a].value
                                     && s'.heap[a].linked == s.heap[a].linked;
    forall u | 0 <= u < |s'.threads| ensures LocalOk(s', s'.threads[u]) {
      assert LocalOk(s, if u == t then l else s.threads[u]);
    }
  }

  lemma DetachKeeps(s: State, t: nat)
    requires Inv(s) && t < |s.threads| && s.threads[t].Detach?
    ensures Inv(StepDetach(s, t))
  {
    hide HistoryOk, Total, WordsFit;
    var l := s.threads[t];
    assert LocalOk(s, l);
    var k := Finish(Popped(Some(l.r)));
    var l' := if s.heap[l.counter.ptr].internal == -(l.counter.count - 2) then Delete(l.counter.ptr, k) else Resume(k);
    var s' := StepDetach(s, t);
    CountKeepsShape(s, s', t, l');
    HistoryQuiet(s, s', t, l');
    NextsFit(s);
    WordsMove(s, s', t, l');
    forall a: Addr | a != 0 ensures Balanced(s', a) {
      assert Balanced(s, a);
      hide Balanced, ChainOk, LocalsOk, LocalOk;
      DetachBalances(s, t, a);
    }
  }

  lemma ReleaseKeeps(s: State, t: nat)
    requires Inv(s) && t < |s.threads| && s.threads[t].Release?
    ensures Inv(StepRelease(s, t))
  {
    hide HistoryOk, Total, WordsFit;
    var l := s.threads[t];
    assert LocalOk(s, l);
    var k := PopAgain(l.seen);
    var l' := if s.heap[l.node].internal == 1 then Delete(l.node, k) else Resume(k);
    var s' := StepRelease(s, t);
    CountKeepsShape(s, s', t, l');
    HistoryQuiet(s, s', t, l');
    NextsFit(s);
    RegisterFits(s, t);
    WordsMove(s, s', t, l');
    forall a: Addr | a != 0 ensures Balanced(s', a) {
      assert Balanced(s, a);
      hide Balanced, ChainOk, LocalsOk, LocalOk;
      ReleaseBalances(s, t, a);
    }
  }

  // ---------------------------------------------------------------- deletion

  /** A doomed node is allocated, out of the chain and out of everybody's reach; its counter never overflowed. */
  lemma DoomedIsFree(s: State, t: nat)
    requires AllBalanced(s) && |s.threads| < COUNT_SPAN && t < |s.threads| && s.threads[t].Delete? && s.threads[t].node != 0
    ensures var a := s.threads[t].node;
      && a in s.heap && a !in s.attached && s.heap[a].wraps == 0
      && Total(s.threads, Refs, a) == 0 && Total(s.threads, Units, a) == 0 && Total(s.threads, Dooms, a) == 1
  {
    hide Total;
    var a := s.threads[t].node;
    TotalCovers(s.threads, t, t, Dooms, a);
    assert Balanced(s, a);
    TotalRange(s.threads, Units, a);
    TotalRange(s.threads, Refs, a);
    NoUnitsNoCounts(s.threads, a);
  }

  lemma DeleteBalances(s: State, t: nat, a: Addr)
    requires a != 0 && Balanced(s, a) && t < |s.threads| && s.threads[t].Delete?
    requires var n := s.threads[t].node;
      && n != 0 && n in s.heap && n !in s.attached
      && Total(s.threads, Refs, n) == 0 && Total(s.threads, Units, n) == 0 && Total(s.threads, Dooms, n) == 1
    ensures Balanced(StepDelete(s, t), a)
  {
    hide Total;
    var l := s.threads[t];
    var l' := Resume(l.k);
    if a == l.node {
      TotalUpdate(s.threads, t, l', Refs, a);
      TotalUpdate(s.threads, t, l', Units, a);
      TotalUpdate(s.threads, t, l', Dooms, a);
    } else {
      var s' := StepDelete(s, t);
      assert Moves(s, s', t, l');
      hide Balanced, Moves;
      BalanceMoves(s, s', t, l', a);
    }
  }

  lemma DeleteKeepsShape(s: State, t: nat)
    requires ChainOk(s) && LocalsOk(s) && t < |s.threads| && s.threads[t].Delete?
    requires var n := s.threads[t].node;
      n != 0 && n in s.heap && n !in s.attached && Total(s.threads, Refs, n) == 0 && Total(s.threads, Units, n) == 0
    ensures ChainOk(StepDelete(s, t)) && LocalsOk(StepDelete(s, t))
  {
    hide Total;
    var n := s.threads[t].node;
    var s' := StepDelete(s, t);
    forall u | 0 <= u < |s'.threads| ensures LocalOk(s', s'.threads[u]) {
      assert LocalOk(s, s.threads[u]);
      TotalCovers(s.threads, u, u, Refs, n);
      TotalCovers(s.threads, u, u, Units, n);
    }
  }

  lemma DeleteKeeps(s: State, t: nat)
    requires Inv(s) && t < |s.threads| && s.threads[t].Delete?
    ensures Inv(StepDelete(s, t))
  {
    hide HistoryOk, Total, WordsFit;
    var l := s.threads[t];
    assert LocalOk(s, l);
    DoomedIsFree(s, t);
    DeleteKeepsShape(s, t);
    var s' := StepDelete(s, t);
    HistoryQuiet(s, s', t, Resume(l.k));
    NextsFit(s);
    RegisterFits(s, t);
    WordsMove(s, s', t, Resume(l.k));
    forall a: Addr | a != 0 ensures Balanced(s', a) {
      assert Balanced(s, a);
      hide Balanced, ChainOk, LocalsOk, LocalOk;
      DeleteBalances(s, t, a);
    }
  }
}
