/** What the Treiber stack guarantees in every run. */
module TreiberStackTheorems {
  import opened Basics
  import opened Histories
  import opened CountedPointers
  import opened TreiberStack
  import opened TreiberStackInvariant
  import opened TreiberStackSteps

  lemma InitKeeps(threads: nat)
    requires threads < COUNT_SPAN
    ensures Inv(Init(threads))
  {
    var s := Init(threads);
    forall a: Addr | a != 0 ensures Balanced(s, a) {
      AllIdleTotals(s.threads, Refs, a);
      AllIdleTotals(s.threads, Units, a);
      AllIdleTotals(s.threads, Dooms, a);
    }
  }

  lemma TickKeeps(s: State)
    requires Inv(s)
    ensures Inv(s.(clock := s.clock + 1))
  {
    hide Total;
    var s' := s.(clock := s.clock + 1);
    forall a: Addr | a != 0 ensures Balanced(s', a) {
      assert Balanced(s, a);
    }
    forall t | 0 <= t < |s'.threads| ensures LocalOk(s', s'.threads[t]) {
      assert LocalOk(s, s.threads[t]);
    }
  }

  lemma StepKeeps(s: State, c: Choice)
    requires Inv(s)
    ensures Inv(Step(s, c))
  {
    hide Inv;
    if c.t >= |s.threads| {
      TickKeeps(s);
    } else {
      match s.threads[c.t]
      case Idle => IdleKeeps(s, c.t, c);
      case PushLoad(_, _) => PushLoadKeeps(s, c.t);
      case PushSwing(_, _) => PushSwingKeeps(s, c.t, c.spurious);
      case PopLoad => PopLoadKeeps(s, c.t);
      case PopAcquire(_) => PopAcquireKeeps(s, c.t);
      case PopReadNext(_) => PopReadNextKeeps(s, c.t);
      case PopSwing(_, _) => PopSwingKeeps(s, c.t);
      case PopTake(_, _) => PopTakeKeeps(s, c.t);
      case Detach(_, _) => DetachKeeps(s, c.t);
      case Release(_, _) => ReleaseKeeps(s, c.t);
      case Delete(_, _) => DeleteKeeps(s, c.t);
      case Exit(_, _) => ExitKeeps(s, c.t);
    }
  }

  lemma {:induction false} RunKeeps(s: State, schedule: seq<Choice>)
    requires Inv(s)
    ensures Inv(Run(s, schedule)) && Run(s, schedule).clock == s.clock + |schedule|
    ensures |Run(s, schedule).threads| == |s.threads|
    decreases |schedule|
  {
    hide Inv, Step;
    if schedule != [] {
      RunKeeps(s, schedule[..|schedule| - 1]);
      StepKeeps(Run(s, schedule[..|schedule| - 1]), schedule[|schedule| - 1]);
    }
  }

  lemma HistoryWitness(s: State)
    requires HistoryOk(s)
    ensures Witness(Lifo, [], s.hist)
  {
    forall t: nat ensures !PhaseOf(s.hist, t).Malformed? {
      assert PhaseOf(s.hist, t) == if t < |s.threads| then PhaseAt(s.threads[t]) else Quiet;
    }
  }

  /** Every run of fewer than 2^16 threads is a linearizable LIFO stack. */
  lemma LinearizableStack(threads: nat, schedule: seq<Choice>)
    requires threads < COUNT_SPAN
    ensures Linearizable(Lifo, [], Observed(Run(Init(threads), schedule).hist))
  {
    hide Run;
    InitKeeps(threads);
    RunKeeps(Init(threads), schedule);
    hide ChainOk, LocalsOk, AllBalanced, WordsFit, HistoryOk;
    HistoryWitness(Run(Init(threads), schedule));
  }

  /** The address the thread's next step dereferences, 0 when it touches none. */
  function Dereferences(l: Local): Addr {
    match l
    case PushLoad(_, n) => n
    case PushSwing(_, n) => n
    case PopReadNext(h) => h.ptr
    case PopTake(h, _) => h.ptr
    case Detach(c, _) => c.ptr
    case Release(n, _) => n
    case Delete(n, _) => n
    case _ => 0
  }

  lemma LocalSafe(s: State, t: nat)
    requires Inv(s) && t < |s.threads|
    ensures Dereferences(s.threads[t]) != 0 ==> Dereferences(s.threads[t]) in s.heap
    ensures s.threads[t].PopTake? ==> s.heap[s.threads[t].head.ptr].value == Some(s.threads[t].expected)
  {
    hide Total, HistoryOk, WordsFit;
    assert LocalOk(s, s.threads[t]);
    if s.threads[t].Delete? {
      DoomedIsFree(s, t);
    }
  }

  /** A node about to be deleted is out of every other thread's reach. */
  lemma DeletedAlone(s: State, t: nat, u: nat)
    requires Inv(s) && t < |s.threads| && u < |s.threads| && t != u && s.threads[t].Delete?
    ensures s.threads[t].node !in s.chain
    ensures Dereferences(s.threads[u]) != s.threads[t].node && TokensOf(s.threads[u]).ref != s.threads[t].node
  {
    hide Total, HistoryOk, WordsFit;
    var a := s.threads[t].node;
    assert LocalOk(s, s.threads[t]) && LocalOk(s, s.threads[u]);
    DoomedIsFree(s, t);
    TotalCovers(s.threads, u, u, Refs, a);
    TotalCovers(s.threads, u, u, Units, a);
    TotalCovers(s.threads, t, u, Dooms, a);
  }

  /** No run touches an unallocated node, and deletions and element moves happen once each. */
  lemma MemorySafe(threads: nat, schedule: seq<Choice>, t: nat)
    requires threads < COUNT_SPAN && t < threads
    ensures var s := Run(Init(threads), schedule);
      && !s.fault && |s.threads| == threads
      && (Dereferences(s.threads[t]) != 0 ==> Dereferences(s.threads[t]) in s.heap)
      && (s.threads[t].Delete? ==>
            && s.threads[t].node !in s.chain
            && forall u | 0 <= u < threads && u != t ::
                 Dereferences(s.threads[u]) != s.threads[t].node && TokensOf(s.threads[u]).ref != s.threads[t].node)
      && (s.threads[t].PopTake? ==>
            && s.threads[t].head.ptr in s.heap
            && s.heap[s.threads[t].head.ptr].value == Some(s.threads[t].expected))
  {
    hide Run, HistoryOk, WordsFit, AllBalanced;
    InitKeeps(threads);
    RunKeeps(Init(threads), schedule);
    var s := Run(Init(threads), schedule);
    LocalSafe(s, t);
    if s.threads[t].Delete? {
      assert s.threads[t].node !in s.chain by {
        DeletedUnlinked(s, t);
      }
      forall u | 0 <= u < threads && u != t
        ensures Dereferences(s.threads[u]) != s.threads[t].node && TokensOf(s.threads[u]).ref != s.threads[t].node
      {
        DeletedAlone(s, t, u);
      }
    }
    assert LocalOk(s, s.threads[t]);
  }

  lemma DeletedUnlinked(s: State, t: nat)
    requires Inv(s) && t < |s.threads| && s.threads[t].Delete?
    ensures s.threads[t].node !in s.chain
  {
    hide Total, HistoryOk, WordsFit;
    assert LocalOk(s, s.threads[t]);
    DoomedIsFree(s, t);
  }

  /** The signed 64-bit `internal_count` stays in range for the first 2^63 steps. */
  lemma CountsFit(s: State, a: Addr)
    requires Inv(s) && s.clock <= 0x8000_0000_0000_0000 && a in s.heap
    ensures -0x8000_0000_0000_0000 <= s.heap[a].internal < 0x8000_0000_0000_0000
  {
    hide Total, HistoryOk, WordsFit, LocalsOk;
    assert a != 0;
    assert Balanced(s, a);
    hide Inv;
    TotalRange(s.threads, Refs, a);
    TotalRange(s.threads, Units, a);
    if OpenUnits(s, a) == 0 {
      NoUnitsNoCounts(s.threads, a);
    }
  }

  ghost predicate Quiescent(s: State) {
    forall t | 0 <= t < |s.threads| :: s.threads[t] == Idle
  }

  /** The words of the list point to the nodes of the list and to nothing else. */
  lemma AttachedInChain(s: State, a: Addr)
    requires ChainOk(s)
    ensures a in s.attached <==> a in s.chain
  {
    var listed := Members(s.chain);
    ChainSize(s.chain);
    assert listed <= s.attached.Keys;
    SubsetFull(listed, s.attached.Keys);
  }

  lemma SubsetFull(a: set<Addr>, b: set<Addr>)
    requires a <= b && |a| == |b|
    ensures a == b
  {
    assert |b - a| == 0;
  }

  function Members(chain: seq<Addr>): set<Addr> {
    set x | x in chain
  }

  lemma {:induction false} ChainSize(chain: seq<Addr>)
    requires forall i, j | 0 <= i < j < |chain| :: chain[i] != chain[j]
    ensures |Members(chain)| == |chain|
  {
    if chain == [] {
      assert Members(chain) == {};
    } else {
      var rest := chain[1..];
      ChainSize(rest);
      assert chain[0] !in Members(rest);
      assert Members(chain) == Members(rest) + {chain[0]};
    }
  }

  /**
   With every operation finished, an allocated node is either in the stack or lost to an overflow of
   its external counter, and then its internal count shows it can never be deleted any more.
   */
  lemma QuiescentHeap(s: State, a: Addr)
    requires Inv(s) && Quiescent(s) && a in s.heap
    ensures a in s.chain || (s.heap[a].wraps > 0 && s.heap[a].internal == -COUNT_SPAN * s.heap[a].wraps)
  {
    hide Total, HistoryOk, WordsFit;
    assert a != 0;
    assert Balanced(s, a);
    AttachedInChain(s, a);
    hide ChainOk, AllBalanced, LocalsOk;
    AllIdleTotals(s.threads, Refs, a);
    AllIdleTotals(s.threads, Units, a);
    AllIdleTotals(s.threads, Counts, a);
    AllIdleTotals(s.threads, Dooms, a);
  }

  /** What is deleted never had an overflow. */
  lemma OnlyUnwrappedDie(s: State, t: nat)
    requires Inv(s) && t < |s.threads| && s.threads[t].Delete?
    ensures s.threads[t].node in s.heap && s.heap[s.threads[t].node].wraps == 0
  {
    hide Total, HistoryOk, WordsFit;
    assert LocalOk(s, s.threads[t]);
    DoomedIsFree(s, t);
  }
}
