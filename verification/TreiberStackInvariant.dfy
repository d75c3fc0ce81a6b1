/** The inductive invariant of the Treiber stack machine, kept by every step. */
module TreiberStackInvariant {
  import opened Basics
  import opened Histories
  import opened CountedPointers
  import opened TreiberStack

  /** A private node, a reference to release, a detached counter to settle, a node to delete. */
  datatype Tokens = Tokens(own: Addr, ref: Addr, pending: CountedPtr, doomed: Addr)

  function TokensOf(l: Local): Tokens {
    match l
    case PushLoad(_, n) => Tokens(n, 0, NULL, 0)
    case PushSwing(_, n) => Tokens(n, 0, NULL, 0)
    case PopReadNext(h) => Tokens(0, h.ptr, NULL, 0)
    case PopSwing(h, _) => Tokens(0, h.ptr, NULL, 0)
    case PopTake(h, _) => Tokens(0, h.ptr, h, 0)
    case Detach(c, _) => Tokens(0, c.ptr, c, 0)
    case Release(n, _) => Tokens(0, n, NULL, 0)
    case Delete(n, _) => Tokens(0, 0, NULL, n)
    case _ => Tokens(0, 0, NULL, 0)
  }

  datatype Kind = Refs | Units | Counts | Dooms

  function Share(l: Local, k: Kind, a: Addr): int {
    var x := TokensOf(l);
    match k
    case Refs => if x.ref == a then 1 else 0
    case Units => (if x.own == a then 1 else 0) + (if x.pending.ptr == a then 1 else 0)
    case Counts => if x.pending.ptr == a then x.pending.count - 1 else 0
    case Dooms => if x.doomed == a then 1 else 0
  }

  function Total(threads: seq<Local>, k: Kind, a: Addr): int {
    if threads == [] then 0
    else Total(threads[..|threads| - 1], k, a) + Share(threads[|threads| - 1], k, a)
  }

  lemma {:induction false} TotalUpdate(threads: seq<Local>, t: nat, l: Local, k: Kind, a: Addr)
    requires t < |threads|
    ensures Total(threads[t := l], k, a) == Total(threads, k, a) - Share(threads[t], k, a) + Share(l, k, a)
  {
    var n := |threads| - 1;
    if t == n {
      assert threads[t := l][..n] == threads[..n];
    } else {
      assert threads[t := l][..n] == threads[..n][t := l];
      TotalUpdate(threads[..n], t, l, k, a);
    }
  }

  lemma {:induction false} TotalRange(threads: seq<Local>, k: Kind, a: Addr)
    requires !k.Counts?
    ensures 0 <= Total(threads, k, a)
    ensures k.Refs? ==> Total(threads, k, a) <= |threads|
  {
    if threads != [] {
      TotalRange(threads[..|threads| - 1], k, a);
    }
  }

  lemma TotalCovers(threads: seq<Local>, t: nat, u: nat, k: Kind, a: Addr)
    requires t < |threads| && u < |threads| && !k.Counts? && a != 0
    ensures Total(threads, k, a) >= Share(threads[t], k, a) >= 0
    ensures t != u ==> Total(threads, k, a) >= Share(threads[t], k, a) + Share(threads[u], k, a)
  {
    TotalUpdate(threads, t, Idle, k, a);
    var rest := threads[t := Idle];
    TotalUpdate(rest, u, Idle, k, a);
    TotalRange(rest, k, a);
    TotalRange(rest[u := Idle], k, a);
  }

  lemma {:induction false} NoUnitsNoCounts(threads: seq<Local>, a: Addr)
    requires Total(threads, Units, a) == 0
    ensures Total(threads, Counts, a) == 0
  {
    if threads != [] {
      var front := threads[..|threads| - 1];
      TotalRange(front, Units, a);
      NoUnitsNoCounts(front, a);
    }
  }

  lemma {:induction false} CountsAtLeast(threads: seq<Local>, a: Addr)
    ensures Total(threads, Counts, a) >= -Total(threads, Units, a)
  {
    if threads != [] {
      CountsAtLeast(threads[..|threads| - 1], a);
    }
  }

  lemma {:induction false} AllIdleTotals(threads: seq<Local>, k: Kind, a: Addr)
    requires a != 0 && forall t | 0 <= t < |threads| :: threads[t] == Idle
    ensures Total(threads, k, a) == 0
  {
    if threads != [] {
      AllIdleTotals(threads[..|threads| - 1], k, a);
    }
  }

  // ---------------------------------------------------------------- invariant

  ghost predicate ChainOk(s: State) {
    && |s.items| == |s.chain|
    && 0 !in s.heap
    && (forall i | 0 <= i < |s.chain| :: s.chain[i] in s.heap && s.chain[i] in s.attached)
    && (forall i | 0 <= i < |s.chain| :: s.heap[s.chain[i]].value == Some(s.items[i]))
    && (forall i, j | 0 <= i < j < |s.chain| :: s.chain[i] != s.chain[j])
    && (forall a | a in s.attached :: a in s.heap && s.heap[a].linked)
    && |s.attached.Keys| == |s.chain|
    && (if s.chain == [] then s.head.ptr == 0 else s.head == CountedPtr(s.chain[0], s.attached[s.chain[0]]))
    && (forall i | 0 <= i < |s.chain| - 1 ::
          s.heap[s.chain[i]].next == CountedPtr(s.chain[i + 1], s.attached[s.chain[i + 1]]))
    && (s.chain != [] ==> s.heap[s.chain[|s.chain| - 1]].next.ptr == 0)
  }

  function OpenUnits(s: State, a: Addr): int {
    Total(s.threads, Units, a) + if a in s.attached then 1 else 0
  }

  function AttachedCount(s: State, a: Addr): int {
    if a in s.attached then (s.attached[a] as int) - 1 else 0
  }

  function Debt(s: State, a: Addr): int
    requires a in s.heap
  {
    Total(s.threads, Counts, a) + AttachedCount(s, a) + COUNT_SPAN * s.heap[a].wraps
  }

  /**
   The reclamation law of one address: the internal count is the references held minus the
   acquisitions its external counter still carries (or lost by overflowing).  It is never positive
   while the counter is unsettled, so no release deletes too early.
   */
  ghost predicate Balanced(s: State, a: Addr) {
    if a in s.heap then
      && s.heap[a].internal == Total(s.threads, Refs, a) - Debt(s, a)
      && OpenUnits(s, a) <= 1
      && (OpenUnits(s, a) == 1 ==> s.heap[a].internal <= 0)
      && Debt(s, a) <= s.clock
      && Total(s.threads, Dooms, a) == (if OpenUnits(s, a) == 0 && s.heap[a].internal == 0 then 1 else 0)
    else
      && Total(s.threads, Refs, a) == 0
      && Total(s.threads, Units, a) == 0
      && Total(s.threads, Dooms, a) == 0
  }

  ghost predicate AllBalanced(s: State) {
    forall a: Addr | a != 0 :: Balanced(s, a)
  }

  ghost predicate LocalOk(s: State, l: Local) {
    match l
    case PushLoad(v, n) => n in s.heap && !s.heap[n].linked && s.heap[n].value == Some(v)
    case PushSwing(v, n) => n in s.heap && !s.heap[n].linked && s.heap[n].value == Some(v)
    case PopReadNext(h) => h.ptr in s.heap && s.heap[h.ptr].linked
    case PopSwing(h, next) => h.ptr in s.heap && s.heap[h.ptr].linked && s.heap[h.ptr].next == next
    case PopTake(h, v) => h.ptr in s.heap && s.heap[h.ptr].linked && s.heap[h.ptr].value == Some(v)
    case Detach(c, _) => c.ptr in s.heap && s.heap[c.ptr].linked
    case Release(n, _) => n in s.heap && s.heap[n].linked
    case Delete(n, _) => n != 0
    case _ => true
  }

  ghost predicate LocalsOk(s: State) {
    forall t | 0 <= t < |s.threads| :: LocalOk(s, s.threads[t])
  }

  function PhaseAt(l: Local): Phase<Op, Res> {
    match l
    case Idle => Quiet
    case PushLoad(v, _) => Called(Push(v))
    case PushSwing(v, _) => Called(Push(v))
    case PopTake(_, v) => Done(TryPop, Popped(Some(v)))
    case Detach(_, r) => Done(TryPop, Popped(Some(r)))
    case Delete(_, Finish(res)) => Done(TryPop, res)
    case Exit(op, res) => Done(op, res)
    case _ => Called(TryPop)
  }

  ghost predicate HistoryOk(s: State) {
    && (forall t: nat :: PhaseOf(s.hist, t) == if t < |s.threads| then PhaseAt(s.threads[t]) else Quiet)
    && Replay(Lifo, [], s.hist) == Some(s.items)
  }

  predicate LocalFits(l: Local) {
    match l
    case PushLoad(_, n) => n < POINTER_SPAN
    case PushSwing(_, n) => n < POINTER_SPAN
    case PopAcquire(p) => p.Fits()
    case PopReadNext(h) => h.Fits()
    case PopSwing(h, next) => h.Fits() && next.Fits()
    case PopTake(h, _) => h.Fits()
    case Detach(c, _) => c.Fits()
    case Release(_, p) => p.Fits()
    case Delete(_, PopAgain(p)) => p.Fits()
    case _ => true
  }

  /** Every counted pointer in memory or in a register fits its word, so comparing pairs is comparing words. */
  ghost predicate WordsFit(s: State) {
    && s.head.Fits()
    && (forall a | a in s.heap :: s.heap[a].next.Fits())
    && (forall t | 0 <= t < |s.threads| :: LocalFits(s.threads[t]))
  }

  ghost predicate Inv(s: State) {
    && !s.fault
    && |s.threads| < COUNT_SPAN
    && ChainOk(s)
    && LocalsOk(s)
    && AllBalanced(s)
    && HistoryOk(s)
    && WordsFit(s)
  }

  // ---------------------------------------------------------------- shared arguments

  ghost predicate Moves(s: State, s': State, t: nat, l: Local) {
    && t < |s.threads|
    && s'.threads == s.threads[t := l]
    && s'.clock == s.clock + 1
    && s'.fault == s.fault
  }

  function Gain(before: Local, after: Local, k: Kind, a: Addr): int {
    Share(after, k, a) - Share(before, k, a)
  }

  /** Whether a node is settled and unreferenced, so that somebody owes its deletion. */
  function Due(open: int, internal: int): int {
    if open == 0 && internal == 0 then 1 else 0
  }

  /** The reclamation law of one address survives a step whose local changes cancel out. */
  lemma BalanceMoves(s: State, s': State, t: nat, l: Local, a: Addr)
    requires a != 0 && Balanced(s, a) && Moves(s, s', t, l)
    requires a in s.heap <==> a in s'.heap
    requires a in s.heap ==>
      var was, now := s.heap[a], s'.heap[a];
      var open := OpenUnits(s, a);
      var units := Gain(s.threads[t], l, Units, a) + (if a in s'.attached then 1 else 0) - (if a in s.attached then 1 else 0);
      var debt := Gain(s.threads[t], l, Counts, a) + AttachedCount(s', a) - AttachedCount(s, a)
                  + COUNT_SPAN * (now.wraps - was.wraps);
      && units <= 0 && debt <= 1
      && (open + units == 1 ==> now.internal <= 0)
      && now.internal - was.internal == Gain(s.threads[t], l, Refs, a) - debt
      && Gain(s.threads[t], l, Dooms, a) == Due(open + units, now.internal) - Due(open, was.internal)
    requires a !in s.heap ==>
      Gain(s.threads[t], l, Refs, a) == Gain(s.threads[t], l, Units, a) == Gain(s.threads[t], l, Dooms, a) == 0
    ensures Balanced(s', a)
  {
    hide Total;
    TotalUpdate(s.threads, t, l, Refs, a);
    TotalUpdate(s.threads, t, l, Units, a);
    TotalUpdate(s.threads, t, l, Counts, a);
    TotalUpdate(s.threads, t, l, Dooms, a);
  }

  lemma HistoryQuiet(s: State, s': State, t: nat, l: Local)
    requires HistoryOk(s) && Moves(s, s', t, l)
    requires s'.hist == s.hist && s'.items == s.items && PhaseAt(l) == PhaseAt(s.threads[t])
    ensures HistoryOk(s')
  {
  }

  lemma HistoryGrows(s: State, s': State, t: nat, l: Local, e: Event<Op, Res>)
    requires HistoryOk(s) && Moves(s, s', t, l)
    requires e.t == t && s'.hist == s.hist + [e]
    requires PhaseAt(l) == Advance(PhaseAt(s.threads[t]), e)
    requires if e.Effect? then Lifo(s.items, e.op, e.res) == Some(s'.items) else s'.items == s.items
    ensures HistoryOk(s')
  {
    Appended(Lifo, [], s.hist, e);
  }

  lemma WordsMove(s: State, s': State, t: nat, l: Local)
    requires WordsFit(s) && Moves(s, s', t, l) && LocalFits(l) && s'.head.Fits()
    requires forall a | a in s'.heap :: s'.heap[a].next.Fits()
    ensures WordsFit(s')
  {
  }

  /** Steps that leave memory and the head alone and move no token. */
  lemma LoadKeeps(s: State, s': State, t: nat, l: Local)
    requires Inv(s) && t < |s.threads| && s' == Go(s, t, l)
    requires LocalOk(s, l) && LocalFits(l)
    requires TokensOf(l) == TokensOf(s.threads[t]) && PhaseAt(l) == PhaseAt(s.threads[t])
    ensures Inv(s')
  {
    hide TokensOf, PhaseAt, HistoryOk, LocalFits, Total, WordsFit;
    HistoryQuiet(s, s', t, l);
    WordsMove(s, s', t, l) by {
      NextsFit(s);
    }
    forall u | 0 <= u < |s'.threads| ensures LocalOk(s', s'.threads[u]) {
      assert LocalOk(s, if u == t then l else s.threads[u]);
    }
    forall a: Addr | a != 0 ensures Balanced(s', a) {
      assert Balanced(s, a);
      hide Balanced, LocalOk, ChainOk;
      BalanceMoves(s, s', t, l, a);
    }
  }

  lemma NextsFit(s: State)
    requires WordsFit(s)
    ensures s.head.Fits() && forall a | a in s.heap :: s.heap[a].next.Fits()
  {
  }
}
