/**
 The inductive invariant of the Michael-Scott queue machine.

 Every thread is summarised by the tokens it holds: a private node, references it must release, a
 detached external counter it must settle, a node it must delete.  Summing tokens over the threads
 turns the reclamation scheme into one equation per node (`Balanced`).
 */
module MsQueueInvariant {
  import opened Basics
  import opened Histories
  import opened CountedPointers
  import opened MsQueue

  datatype Tokens = Tokens(own: Addr, ref1: Addr, ref2: Addr, pending: CountedPtr, doomed: Addr)

  function ThenOwn(k: Then): Addr {
    if k.PushAgain? then k.node else 0
  }

  function ThenRef(k: Then): Addr {
    match k
    case ReleaseHead(h) => h.ptr
    case ReleaseNext(n, _) => n
    case _ => 0
  }

  function TokensOf(l: Local): Tokens {
    match l
    case Idle => Tokens(0, 0, 0, NULL, 0)
    case PushLoadTail(_, n) => Tokens(n, 0, 0, NULL, 0)
    case PushAcquire(_, n, _) => Tokens(n, 0, 0, NULL, 0)
    case PushLink(_, n, p) => Tokens(n, p.ptr, 0, NULL, 0)
    case PushSwing(_, _, p) => Tokens(0, p.ptr, 0, NULL, 0)
    case PushLoadNext(_, n, p) => Tokens(n, p.ptr, 0, NULL, 0)
    case PushHelp(_, n, p, _) => Tokens(n, p.ptr, 0, NULL, 0)
    case PopLoadHead => Tokens(0, 0, 0, NULL, 0)
    case PopAcquire(_) => Tokens(0, 0, 0, NULL, 0)
    case PopLoadTail(h) => Tokens(0, h.ptr, 0, NULL, 0)
    case PopLoadNext(h, _) => Tokens(0, h.ptr, 0, NULL, 0)
    case PopHelp(h, _, _) => Tokens(0, h.ptr, 0, NULL, 0)
    case PopSwing(h, _) => Tokens(0, h.ptr, 0, NULL, 0)
    case PopTake(h, n, _) => Tokens(0, h.ptr, n.ptr, h, 0)
    case Detach(c, inc, k) => Tokens(ThenOwn(k), if inc == 0 then c.ptr else 0, ThenRef(k), c, 0)
    case Release(n, k) => Tokens(ThenOwn(k), n, ThenRef(k), NULL, 0)
    case Delete(n, k) => Tokens(ThenOwn(k), 0, ThenRef(k), NULL, n)
    case Exit(_, _) => Tokens(0, 0, 0, NULL, 0)
  }

  /** References held, external counters not settled, acquisitions they stand for, deletions owed. */
  datatype Kind = Refs | Units | Counts | Dooms

  function Share(l: Local, k: Kind, a: Addr): int {
    var x := TokensOf(l);
    match k
    case Refs => (if x.ref1 == a then 1 else 0) + (if x.ref2 == a then 1 else 0)
    case Units => (if x.own == a then 2 else 0) + (if x.pending.ptr == a then 1 else 0)
    case Counts => if x.pending.ptr == a then x.pending.count - 1 else 0
    case Dooms => if x.doomed == a then 1 else 0
  }

  function Total(threads: seq<Local>, k: Kind, a: Addr): int {
    if threads == [] then 0
    else Total(threads[..|threads| - 1], k, a) + Share(threads[|threads| - 1], k, a)
  }

  lemma {:induction false} TotalUpdate(threads: seq<Local>, t: nat, l: Local, k: Kind, a: Addr)
    requires t < |threads|
    ensures Total(threads[t := l], k, a) == Total(threads, k, a) - Share(threads[t], k, a) + Share(l, k, a)
  {
    var n := |threads| - 1;
    if t == n {
      assert threads[t := l][..n] == threads[..n];
    } else {
      assert threads[t := l][..n] == threads[..n][t := l];
      TotalUpdate(threads[..n], t, l, k, a);
    }
  }

  lemma {:induction false} TotalNonNegative(threads: seq<Local>, k: Kind, a: Addr)
    requires !k.Counts?
    ensures Total(threads, k, a) >= 0
  {
    if threads != [] {
      TotalNonNegative(threads[..|threads| - 1], k, a);
    }
  }

  /** One thread's share, or two different threads' shares, never exceed the total. */
  lemma TotalCovers(threads: seq<Local>, t: nat, u: nat, k: Kind, a: Addr)
    requires t < |threads| && u < |threads| && !k.Counts? && a != 0
    ensures Total(threads, k, a) >= Share(threads[t], k, a) >= 0
    ensures t != u ==> Total(threads, k, a) >= Share(threads[t], k, a) + Share(threads[u], k, a)
  {
    TotalUpdate(threads, t, Idle, k, a);
    var rest := threads[t := Idle];
    TotalUpdate(rest, u, Idle, k, a);
    TotalNonNegative(rest, k, a);
    TotalNonNegative(rest[u := Idle], k, a);
  }

  lemma {:induction false} TotalBound(threads: seq<Local>, a: Addr)
    requires forall t | 0 <= t < |threads| :: Share(threads[t], Refs, a) <= 1
    ensures Total(threads, Refs, a) <= |threads|
  {
    if threads != [] {
      TotalBound(threads[..|threads| - 1], a);
    }
  }

  lemma {:induction false} NoUnitsNoCounts(threads: seq<Local>, a: Addr)
    requires Total(threads, Units, a) == 0
    ensures Total(threads, Counts, a) == 0
  {
    if threads != [] {
      var front := threads[..|threads| - 1];
      TotalNonNegative(front, Units, a);
      NoUnitsNoCounts(front, a);
    }
  }

  lemma {:induction false} AllIdleTotals(threads: seq<Local>, k: Kind, a: Addr)
    requires a != 0 && forall t | 0 <= t < |threads| :: threads[t] == Idle
    ensures Total(threads, k, a) == 0
  {
    if threads != [] {
      AllIdleTotals(threads[..|threads| - 1], k, a);
    }
  }

  // ---------------------------------------------------------------- invariant

  function Last(s: State): Addr
    requires |s.chain| > 0
  {
    s.chain[|s.chain| - 1]
  }

  /** From `head` along `next` runs a list of distinct live nodes; `tail` is its last node or the one before. */
  ghost predicate ChainOk(s: State) {
    && |s.chain| > 0
    && |s.items| == |s.chain| - 1
    && 0 !in s.heap
    && (forall i | 0 <= i < |s.chain| :: s.chain[i] in s.heap && s.heap[s.chain[i]].linked)
    && (forall i, j | 0 <= i < j < |s.chain| :: s.chain[i] != s.chain[j])
    && (forall i | 0 <= i < |s.chain| - 1 :: s.heap[s.chain[i]].next == CountedPtr(s.chain[i + 1], 1))
    && (forall i | 0 <= i < |s.items| :: s.heap[s.chain[i + 1]].value == Some(s.items[i]))
    && s.heap[Last(s)].next == NULL
    && (forall a | a in s.heap && s.heap[a].linked && a != Last(s) :: s.heap[a].next.ptr != 0)
    && s.head.ptr == s.chain[0]
    && (s.tail.ptr == Last(s) || (|s.chain| >= 2 && s.tail.ptr == s.chain[|s.chain| - 2]))
  }

  /** How many external counters of `a` are attached: by `head` or a predecessor, and by `tail` now or later. */
  function Attached(s: State, a: Addr): int
    requires |s.chain| > 0
  {
    (if a in s.chain then 1 else 0) + (if a == s.tail.ptr || a == Last(s) then 1 else 0)
  }

  /** The acquisitions recorded in the attached counters. */
  function AttachedCount(s: State, a: Addr): int {
    (if a == s.head.ptr then s.head.count - 1 else 0) + (if a == s.tail.ptr then s.tail.count - 1 else 0)
  }

  function OpenUnits(s: State, a: Addr): int
    requires |s.chain| > 0
  {
    Total(s.threads, Units, a) + Attached(s, a)
  }

  function Debt(s: State, a: Addr): int
    requires a in s.heap
  {
    Total(s.threads, Counts, a) + AttachedCount(s, a) + COUNT_SPAN * s.heap[a].wraps
  }

  /** No node carries 2^60 acquisitions in its unsettled counters. */
  ghost predicate Modest(s: State) {
    forall a | a in s.heap :: Debt(s, a) < ONE_COUNTER
  }

  /**
   The reclamation law of one address.  A live node's internal count is the references held, plus
   2^60 for each unsettled external counter, minus the acquisitions those counters still carry (or
   lost when they overflowed).
   */
  ghost predicate Balanced(s: State, a: Addr)
    requires |s.chain| > 0
  {
    if a in s.heap then
      && s.heap[a].internal == Total(s.threads, Refs, a) + ONE_COUNTER * OpenUnits(s, a) - Debt(s, a)
      && OpenUnits(s, a) <= 2
      && Debt(s, a) <= s.clock
      && Total(s.threads, Dooms, a) == (if s.heap[a].internal == 0 then 1 else 0)
    else
      && Total(s.threads, Refs, a) == 0
      && Total(s.threads, Units, a) == 0
      && Total(s.threads, Dooms, a) == 0
  }

  ghost predicate AllBalanced(s: State)
    requires |s.chain| > 0
  {
    forall a: Addr | a != 0 :: Balanced(s, a)
  }

  ghost predicate HeldOk(s: State, a: Addr) {
    a != 0 ==> a in s.heap && s.heap[a].linked
  }

  /** The value a thread is still to publish. */
  function OwnValue(l: Local): Option<Item> {
    match l
    case PushLoadTail(v, _) => Some(v)
    case PushAcquire(v, _, _) => Some(v)
    case PushLink(v, _, _) => Some(v)
    case PushLoadNext(v, _, _) => Some(v)
    case PushHelp(v, _, _, _) => Some(v)
    case Detach(_, _, PushAgain(v, _, _)) => Some(v)
    case Release(_, PushAgain(v, _, _)) => Some(v)
    case Delete(_, PushAgain(v, _, _)) => Some(v)
    case _ => None
  }

  /** What a thread knows at its program counter, stable under everybody else's steps. */
  ghost predicate LocalOk(s: State, l: Local) {
    var x := TokensOf(l);
    && (x.own != 0 ==> x.own in s.heap && !s.heap[x.own].linked && s.heap[x.own].next == NULL
                       && s.heap[x.own].value == OwnValue(l))
    && (OwnValue(l).Some? ==> x.own != 0)
    && HeldOk(s, x.ref1) && HeldOk(s, x.ref2)
    && (x.ref1 != 0 ==> x.ref1 != x.ref2)
    && KnowsOk(s, l)
  }

  predicate ThenOk(k: Then) {
    (k.ReleaseHead? || k.ReleaseNext?) ==> ThenRef(k) != 0
  }

  ghost predicate KnowsOk(s: State, l: Local) {
    match l
    case PushLink(_, _, p) =>
      p.ptr in s.heap && (s.heap[p.ptr].next.ptr == 0 ==> s.tail.ptr == p.ptr)
    case PushSwing(_, n, p) =>
      p.ptr in s.heap && n != 0 && s.heap[p.ptr].next == CountedPtr(n, 1)
    case PushLoadNext(_, _, p) =>
      p.ptr in s.heap && s.heap[p.ptr].next.ptr != 0
    case PushHelp(_, _, p, next) =>
      p.ptr in s.heap && s.heap[p.ptr].next == next && next.ptr != 0
    case PopLoadTail(h) =>
      h.ptr in s.heap && (s.heap[h.ptr].next.ptr == 0 ==> s.head.ptr == h.ptr)
    case PopLoadNext(h, tl) =>
      && h.ptr in s.heap
      && (s.heap[h.ptr].next.ptr == 0 ==> s.head.ptr == h.ptr)
      && (tl.ptr != h.ptr ==> s.heap[h.ptr].next.ptr != 0 && s.tail.ptr != h.ptr)
    case PopHelp(h, tl, next) =>
      h.ptr in s.heap && tl.ptr == h.ptr && s.heap[h.ptr].next == next && next.ptr != 0
    case PopSwing(h, next) =>
      h.ptr in s.heap && s.heap[h.ptr].next == next && next.ptr != 0 && s.tail.ptr != h.ptr
    case PopTake(h, next, v) =>
      && h.ptr in s.heap && next.ptr in s.heap
      && s.heap[next.ptr].value == Some(v)
      && (forall i | 1 <= i < |s.chain| :: s.chain[i] != next.ptr)
    case Detach(c, inc, k) =>
      && (inc == 0 || inc == 1) && c.ptr in s.heap && ThenOk(k)
      && (inc == 0 ==> !k.ReleaseHead?)
      && (inc == 1 ==> k.ReleaseHead? && k.head.ptr == c.ptr)
    case Release(n, k) => n in s.heap && !k.ReleaseHead? && ThenOk(k)
    case Delete(n, k) => n != 0 && ThenOk(k)
    case _ => true
  }

  ghost predicate LocalsOk(s: State) {
    forall t | 0 <= t < |s.threads| :: LocalOk(s, s.threads[t])
  }

  /** No two threads are about to move the element out of the same node. */
  ghost predicate TakersDiffer(s: State) {
    forall t, u | 0 <= t < u < |s.threads| && s.threads[t].PopTake? && s.threads[u].PopTake? ::
      s.threads[t].next.ptr != s.threads[u].next.ptr
  }

  function ThenPhase(k: Then): Phase<Op, Res> {
    match k
    case PushAgain(v, _, _) => Called(Push(v))
    case PopAgain(_) => Called(TryPop)
    case ReleaseHead(_) => Called(TryPop)
    case ReleaseNext(_, r) => Done(TryPop, Popped(Some(r)))
    case Finish(op, res) => Done(op, res)
  }

  function PhaseAt(l: Local): Phase<Op, Res> {
    match l
    case Idle => Quiet
    case PushLoadTail(v, _) => Called(Push(v))
    case PushAcquire(v, _, _) => Called(Push(v))
    case PushLink(v, _, _) => Called(Push(v))
    case PushSwing(v, _, _) => Done(Push(v), Pushed)
    case PushLoadNext(v, _, _) => Called(Push(v))
    case PushHelp(v, _, _, _) => Called(Push(v))
    case PopTake(_, _, v) => Done(TryPop, Popped(Some(v)))
    case Detach(_, _, k) => ThenPhase(k)
    case Release(_, k) => ThenPhase(k)
    case Delete(_, k) => ThenPhase(k)
    case Exit(op, res) => Done(op, res)
    case _ => Called(TryPop)
  }

  ghost predicate HistoryOk(s: State) {
    && (forall t: nat :: PhaseOf(s.hist, t) == if t < |s.threads| then PhaseAt(s.threads[t]) else Quiet)
    && Replay(Fifo, [], s.hist) == Some(s.items)
  }

  ghost predicate Inv(s: State) {
    && !s.fault
    && |s.threads| < COUNT_SPAN
    && ChainOk(s)
    && LocalsOk(s)
    && TakersDiffer(s)
    && AllBalanced(s)
    && HistoryOk(s)
  }

  // ---------------------------------------------------------------- consequences

  /** A thread's private node is no other thread's, and no held node is private. */
  lemma PrivateIsMine(s: State, t: nat, u: nat)
    requires Inv(s) && t < |s.threads| && u < |s.threads| && t != u
    requires TokensOf(s.threads[t]).own != 0
    ensures TokensOf(s.threads[u]).own != TokensOf(s.threads[t]).own
  {
    var a := TokensOf(s.threads[t]).own;
    assert Balanced(s, a);
    TotalCovers(s.threads, t, u, Units, a);
  }

  lemma FewRefs(s: State, a: Addr)
    requires LocalsOk(s) && |s.threads| < COUNT_SPAN && a != 0
    ensures Total(s.threads, Refs, a) < COUNT_SPAN
  {
    forall t | 0 <= t < |s.threads| ensures Share(s.threads[t], Refs, a) <= 1 {
      assert LocalOk(s, s.threads[t]);
    }
    TotalBound(s.threads, a);
  }

  /** An internal count of zero means nobody can still reach the node through a token or a counter. */
  lemma ZeroMeansFree(s: State, a: Addr)
    requires Inv(s) && Modest(s) && a in s.heap && s.heap[a].internal == 0
    ensures Total(s.threads, Refs, a) == 0 && OpenUnits(s, a) == 0 && s.heap[a].wraps == 0
  {
    hide Total;
    assert Balanced(s, a);
    FewRefs(s, a);
    hide Inv;
    TotalNonNegative(s.threads, Refs, a);
    TotalNonNegative(s.threads, Units, a);
    if OpenUnits(s, a) == 0 {
      NoUnitsNoCounts(s.threads, a);
    }
  }
}
