/** What the thread pool guarantees in every run before `Stop`. */
module ThreadPoolTheorems {
  import opened Basics
  import opened ThreadPool
  import RingQueue

  // ---------------------------------------------------------------- sums

  lemma {:induction false} RingUpdate(rings: seq<seq<Task>>, i: nat, r: seq<Task>, k: Count)
    requires i < |rings|
    ensures InRings(rings[i := r], k) == InRings(rings, k) - Weigh(rings[i], k) + Weigh(r, k)
  {
    hide Weigh;
    var n := |rings| - 1;
    if i == n {
      assert rings[i := r][..n] == rings[..n];
    } else {
      assert rings[i := r][..n] == rings[..n][i := r];
      RingUpdate(rings[..n], i, r, k);
    }
  }

  lemma {:induction false} SlotUpdate(slots: seq<Option<Task>>, i: nat, x: Option<Task>, k: Count)
    requires i < |slots|
    ensures InSlots(slots[i := x], k) == InSlots(slots, k) - Weigh(Listed(slots[i]), k) + Weigh(Listed(x), k)
  {
    hide Weigh, Listed;
    var n := |slots| - 1;
    if i == n {
      assert slots[i := x][..n] == slots[..n];
    } else {
      assert slots[i := x][..n] == slots[..n][i := x];
      SlotUpdate(slots[..n], i, x, k);
    }
  }

  lemma {:induction false} HandUpdate(threads: seq<Local>, t: nat, l: Local, k: Count)
    requires t < |threads|
    ensures InHands(threads[t := l], k) == InHands(threads, k) - Weigh(Held(threads[t]), k) + Weigh(Held(l), k)
  {
    hide Weigh, Held;
    var n := |threads| - 1;
    if t == n {
      assert threads[t := l][..n] == threads[..n];
    } else {
      assert threads[t := l][..n] == threads[..n][t := l];
      HandUpdate(threads[..n], t, l, k);
    }
  }

  lemma {:induction false} DebtUpdate(threads: seq<Local>, t: nat, l: Local)
    requires t < |threads|
    ensures Debts(threads[t := l]) == Debts(threads) - Debt(threads[t]) + Debt(l)
    ensures Unannounced(threads[t := l]) ==
            Unannounced(threads) - (if threads[t].Returned? then 1 else 0) + if l.Returned? then 1 else 0
  {
    hide Debt;
    var n := |threads| - 1;
    if t == n {
      assert threads[t := l][..n] == threads[..n];
    } else {
      assert threads[t := l][..n] == threads[..n][t := l];
      DebtUpdate(threads[..n], t, l);
    }
  }

  lemma WeighSum(a: seq<Task>, b: seq<Task>, k: Count)
    ensures Weigh(a + b, k) == Weigh(a, k) + Weigh(b, k)
  {
  }

  lemma WeighEmpty(k: Count)
    ensures Weigh([], k) == 0
  {
  }

  lemma WeighSplit(a: seq<Task>, n: nat, k: Count)
    requires n <= |a|
    ensures Weigh(a, k) == Weigh(a[..n], k) + Weigh(a[n..], k)
  {
    assert a == a[..n] + a[n..];
  }

  // ---------------------------------------------------------------- what a step may do to the sums

  /** One thread moves; tasks go between its hands, the global queue, ring `i` and slot `i`. */
  ghost predicate Moves(s: State, s': State, t: nat, i: nat) {
    && Sized(s) && Sized(s') && s'.workers == s.workers
    && t < |s.threads| == |s'.threads| && s'.threads == s.threads[t := s'.threads[t]]
    && (i < s.workers ==> s'.rings == s.rings[i := s'.rings[i]] && s'.slots == s.slots[i := s'.slots[i]])
    && (i >= s.workers ==> s'.rings == s.rings && s'.slots == s.slots)
  }

  /** The weight of ring `i` and slot `i`. */
  function Nearby(s: State, i: nat, k: Count): nat
    requires Sized(s)
  {
    if i < s.workers then Weigh(s.rings[i], k) + Weigh(Listed(s.slots[i]), k) else 0
  }

  lemma MoveSums(s: State, s': State, t: nat, i: nat, k: Count)
    requires Moves(s, s', t, i)
    ensures InRings(s'.rings, k) + InSlots(s'.slots, k) == InRings(s.rings, k) + InSlots(s.slots, k) - Nearby(s, i, k) + Nearby(s', i, k)
    ensures InHands(s'.threads, k) == InHands(s.threads, k) - Weigh(Held(s.threads[t]), k) + Weigh(Held(s'.threads[t]), k)
    ensures Debts(s'.threads) == Debts(s.threads) - Debt(s.threads[t]) + Debt(s'.threads[t])
    ensures Unannounced(s'.threads) ==
            Unannounced(s.threads) - (if s.threads[t].Returned? then 1 else 0) + if s'.threads[t].Returned? then 1 else 0
  {
    hide Weigh, Held, Debt, Listed, InRings, InSlots, InHands, Debts, Unannounced;
    HandUpdate(s.threads, t, s'.threads[t], k);
    DebtUpdate(s.threads, t, s'.threads[t]);
    if i < s.workers {
      RingUpdate(s.rings, i, s'.rings[i], k);
      SlotUpdate(s.slots, i, s'.slots[i], k);
    }
  }

  /** The step creates nothing and loses nothing, for every way of counting. */
  ghost predicate Even(s: State, s': State, t: nat, i: nat, k: Count)
    requires Moves(s, s', t, i)
  {
    Weigh(s'.submitted, k) - Weigh(s'.ran, k) - Weigh(s'.global, k) - Nearby(s', i, k) - Weigh(Held(s'.threads[t]), k) ==
    Weigh(s.submitted, k) - Weigh(s.ran, k) - Weigh(s.global, k) - Nearby(s, i, k) - Weigh(Held(s.threads[t]), k)
  }

  lemma MoveKeeps(s: State, s': State, t: nat, i: nat)
    requires Inv(s) && Moves(s, s', t, i) && RolesOk(s')
    requires i < s.workers ==> |s'.rings[i]| <= LOCAL_QUEUE_SIZE
    requires forall k :: Even(s, s', t, i, k)
    requires s'.unfinished - |s'.submitted| + |s'.ran| - (if s'.threads[t].Returned? then 1 else 0) ==
             s.unfinished - |s.submitted| + |s.ran| - if s.threads[t].Returned? then 1 else 0
    requires s'.queued - |s'.global| - Nearby(s', i, All) - Debt(s'.threads[t]) ==
             s.queued - |s.global| - Nearby(s, i, All) - Debt(s.threads[t])
    ensures Inv(s')
  {
    hide Held, Debt, Listed, InRings, InSlots, InHands, Debts, Unannounced, RolesOk, Nearby;
    forall k: Count ensures Weigh(s'.submitted, k) == Weigh(s'.ran, k) + Waiting(s', k) + InHands(s'.threads, k) {
      MoveSums(s, s', t, i, k);
      assert Even(s, s', t, i, k);
      assert Weigh(s.submitted, k) == Weigh(s.ran, k) + Waiting(s, k) + InHands(s.threads, k);
    }
    MoveSums(s, s', t, i, All);
  }

  // ---------------------------------------------------------------- every step keeps the invariant

  /** Steps that move no task and do not touch the counters. */
  lemma QuietKeeps(s: State, s': State, t: nat)
    requires Inv(s) && Moves(s, s', t, t) && RolesOk(s')
    requires s'.global == s.global && s'.rings == s.rings && s'.slots == s.slots
    requires s'.submitted == s.submitted && s'.ran == s.ran && s'.unfinished == s.unfinished && s'.queued == s.queued
    requires Held(s'.threads[t]) == Held(s.threads[t]) && Debt(s'.threads[t]) == Debt(s.threads[t])
    requires !s.threads[t].Returned? && !s'.threads[t].Returned?
    ensures Inv(s')
  {
    hide Held, Debt, RolesOk, Weigh;
    MoveKeeps(s, s', t, t);
  }

  lemma LoopKeeps(s: State, t: nat, draw: nat)
    requires Inv(s) && t < s.workers && s.threads[t].Loop?
    ensures Inv(StepLoop(s, t, draw))
  {
    QuietKeeps(s, StepLoop(s, t, draw), t);
  }

  lemma SlotEven(s: State, t: nat, k: Count)
    requires Sized(s) && t < s.workers && s.threads[t].Take? && s.threads[t].steps != [] && s.threads[t].steps[0].LifoSlot?
    ensures Moves(s, StepTake(s, t), t, t) && Even(s, StepTake(s, t), t, t, k)
  {
    hide Weigh;
    WeighEmpty(k);
  }

  lemma RingEven(s: State, t: nat, k: Count)
    requires Sized(s) && t < s.workers && s.threads[t].Take? && s.threads[t].steps != [] && s.threads[t].steps[0].LocalQueue?
    ensures Moves(s, StepTake(s, t), t, t) && Even(s, StepTake(s, t), t, t, k)
  {
    hide Weigh;
    if s.rings[t] != [] {
      WeighEmpty(k);
      WeighSplit(s.rings[t], 1, k);
      assert s.rings[t][..1] == [s.rings[t][0]];
    }
  }

  /** The first task of the global queue, and the batch behind it, change hands. */
  lemma GlobalEven(s: State, t: nat, k: Count)
    requires Sized(s) && t < s.workers && s.threads[t].Take? && s.threads[t].steps != [] && s.threads[t].steps[0].GlobalQueue?
    ensures Moves(s, StepTake(s, t), t, t) && Even(s, StepTake(s, t), t, t, k)
  {
    hide Weigh;
    if s.global != [] {
      var n := if s.threads[t].local then Share(s, |s.global| - 1) else 0;
      ShareFits(s, |s.global| - 1);
      hide Share;
      WeighEmpty(k);
      WeighBatch(s.global, n, k);
      WeighBatch(s.global, 0, k);
      assert n == 0 ==> [s.global[0]] + s.global[1..n + 1] == [s.global[0]];
    }
  }

  /** The first of some tasks, the next `n`, and the others. */
  lemma WeighBatch(a: seq<Task>, n: nat, k: Count)
    requires n < |a|
    ensures Weigh(a, k) == Weigh([a[0]] + a[1..n + 1], k) + Weigh(a[n + 1..], k)
  {
    hide Weigh;
    WeighSplit(a, n + 1, k);
    assert a[..n + 1] == [a[0]] + a[1..n + 1];
  }

  lemma TakeKeeps(s: State, t: nat)
    requires Inv(s) && t < s.workers && s.threads[t].Take?
    ensures Inv(StepTake(s, t))
  {
    hide Conserved, InRings, InSlots, InHands, Debts, Unannounced;
    var s' := StepTake(s, t);
    var l := s.threads[t];
    if l.steps == [] || l.steps[0].Steal? {
      QuietKeeps(s, s', t);
    } else {
      if s.global != [] {
        ShareFits(s, |s.global| - 1);
      }
      hide Share;
      forall k ensures Even(s, s', t, t, k) {
        match l.steps[0]
        case LifoSlot => SlotEven(s, t, k);
        case LocalQueue => RingEven(s, t, k);
        case GlobalQueue => GlobalEven(s, t, k);
      }
      hide Even;
      MoveKeeps(s, s', t, t);
    }
  }

  lemma StealKeeps(s: State, t: nat, from: nat, amount: nat)
    requires Inv(s) && t < s.workers && s.threads[t].StealGrab?
    ensures Inv(StepStealGrab(s, t, from, amount))
  {
    hide Conserved, InRings, InSlots, InHands, Debts, Unannounced;
    var s' := StepStealGrab(s, t, from, amount);
    if from < s.workers && from != t {
      var n := Grabbed(s.rings[from], LOCAL_QUEUE_SIZE / 4, amount);
      if n == 0 {
        QuietKeeps(s, s', t);
      } else {
        forall k ensures Even(s, s', t, from, k) {
          WeighSplit(s.rings[from], n, k);
          assert Held(s'.threads[t]) == s.rings[from][..n];
        }
        MoveKeeps(s, s', t, from);
      }
    }
  }

  lemma RefillKeeps(s: State, t: nat)
    requires Inv(s) && t < s.workers && s.threads[t].Refill?
    ensures Inv(StepRefill(s, t))
  {
    hide Conserved, InRings, InSlots, InHands, Debts, Unannounced;
    var s' := StepRefill(s, t);
    var l := s.threads[t];
    forall k ensures Even(s, s', t, t, k) {
      if l.rest != [] && |s.rings[t]| < LOCAL_QUEUE_SIZE {
        WeighSum(s.rings[t], [l.rest[0]], k);
        assert [l.result] + l.rest == [l.result] + [l.rest[0]] + l.rest[1..];
        WeighSum([l.result] + [l.rest[0]], l.rest[1..], k);
        WeighSum([l.result], [l.rest[0]], k);
        WeighSum([l.result], l.rest[1..], k);
      } else {
        assert Held(s'.threads[t]) == Held(l);
      }
    }
    MoveKeeps(s, s', t, t);
  }

  lemma OverflowKeeps(s: State, t: nat, amount: nat)
    requires Inv(s) && t < s.workers && (s.threads[t].PutFull? || s.threads[t].RefillFull?)
    ensures Inv(StepOverflow(s, t, amount))
  {
    hide Conserved, InRings, InSlots, InHands, Debts, Unannounced;
    var s' := StepOverflow(s, t, amount);
    var l := s.threads[t];
    var n := Grabbed(s.rings[t], LOCAL_QUEUE_SIZE / 2, amount);
    forall k ensures Even(s, s', t, t, k) {
      WeighSplit(s.rings[t], n, k);
      assert Held(s'.threads[t]) == Held(l) + s.rings[t][..n];
      WeighSum(Held(l), s.rings[t][..n], k);
    }
    MoveKeeps(s, s', t, t);
  }

  lemma SpillKeeps(s: State, t: nat)
    requires Inv(s) && t < s.workers && (s.threads[t].PutSpill? || s.threads[t].RefillSpill?)
    ensures Inv(StepSpill(s, t))
  {
    hide Conserved, InRings, InSlots, InHands, Debts, Unannounced;
    var s' := StepSpill(s, t);
    var l := s.threads[t];
    forall k ensures Even(s, s', t, t, k) {
      WeighSum(s.global, l.spill, k);
      assert Held(l) == Held(s'.threads[t]) + l.spill;
      WeighSum(Held(s'.threads[t]), l.spill, k);
    }
    MoveKeeps(s, s', t, t);
  }

  lemma RunningEven(s: State, t: nat, submit: Option<(Task, Hint)>, k: Count)
    requires Sized(s) && t < |s.threads| && s.threads[t].Running?
    ensures Moves(s, StepRunning(s, t, submit), t, t) && Even(s, StepRunning(s, t, submit), t, t, k)
  {
    hide Weigh;
    var owner := s.threads[t].owner;
    WeighEmpty(k);
    if submit.Some? {
      WeighSum(s.submitted, [submit.value.0], k);
      WeighSum(Listed(owner), [submit.value.0], k);
    } else if owner.Some? {
      WeighSum(s.ran, [owner.value], k);
    }
  }

  lemma RunningKeeps(s: State, t: nat, submit: Option<(Task, Hint)>)
    requires Inv(s) && t < |s.threads| && s.threads[t].Running?
    ensures Inv(StepRunning(s, t, submit))
  {
    hide Conserved, InRings, InSlots, InHands, Debts, Unannounced;
    var s' := StepRunning(s, t, submit);
    forall k ensures Moves(s, s', t, t) && Even(s, s', t, t, k) {
      RunningEven(s, t, submit, k);
    }
    hide Even, Weigh;
    assert Moves(s, s', t, t) by {
      RunningEven(s, t, submit, All);
    }
    MoveKeeps(s, s', t, t);
  }

  lemma PutEven(s: State, t: nat, k: Count)
    requires Sized(s) && t < |s.threads| && s.threads[t].Put? && (t < s.workers || s.threads[t].hint.ToGlobalQueue?)
    ensures Moves(s, StepPut(s, t), t, t) && Even(s, StepPut(s, t), t, t, k)
  {
    hide Weigh;
    var l := s.threads[t];
    WeighEmpty(k);
    WeighSum(Listed(l.owner), [l.child], k);
    WeighSum(s.global, [l.child], k);
    if l.hint.ToLifoSlot? && s.slots[t].Some? {
      WeighSum(Listed(l.owner), [s.slots[t].value], k);
    }
  }

  lemma PutKeeps(s: State, t: nat)
    requires Inv(s) && t < |s.threads| && s.threads[t].Put? && (t < s.workers || s.threads[t].hint.ToGlobalQueue?)
    ensures Inv(StepPut(s, t))
  {
    hide Conserved, InRings, InSlots, InHands, Debts, Unannounced;
    forall k ensures Even(s, StepPut(s, t), t, t, k) {
      PutEven(s, t, k);
    }
    hide Even;
    MoveKeeps(s, StepPut(s, t), t, t);
  }

  lemma PutLocalEven(s: State, t: nat, k: Count)
    requires Sized(s) && t < s.workers && s.threads[t].PutLocal?
    ensures Moves(s, StepPutLocal(s, t), t, t) && Even(s, StepPutLocal(s, t), t, t, k)
  {
    hide Weigh;
    var l := s.threads[t];
    WeighSum(Listed(l.owner), [l.item], k);
    WeighSum(s.rings[t], [l.item], k);
  }

  lemma PutLocalKeeps(s: State, t: nat)
    requires Inv(s) && t < s.workers && s.threads[t].PutLocal?
    ensures Inv(StepPutLocal(s, t))
  {
    hide Conserved, InRings, InSlots, InHands, Debts, Unannounced;
    forall k ensures Even(s, StepPutLocal(s, t), t, t, k) {
      PutLocalEven(s, t, k);
    }
    hide Even;
    MoveKeeps(s, StepPutLocal(s, t), t, t);
  }

  /** The wait group and the queue counter move. */
  lemma CounterKeeps(s: State, c: Choice)
    requires Inv(s) && c.t < |s.threads|
    requires s.threads[c.t].Taken? || s.threads[c.t].Counting? || s.threads[c.t].Returned?
    ensures Inv(Step(s, c))
  {
    hide Conserved, InRings, InSlots, InHands, Debts, Unannounced;
    MoveKeeps(s, Step(s, c), c.t, c.t);
  }

  lemma StepKeeps(s: State, c: Choice)
    requires Inv(s)
    ensures Inv(Step(s, c)) && Step(s, c).workers == s.workers && |Step(s, c).threads| == |s.threads|
  {
    hide Conserved, InRings, InSlots, Debts, Unannounced;
    if c.t < |s.threads| {
      var t := c.t;
      match s.threads[t]
      case Loop => LoopKeeps(s, t, c.draw);
      case Take(_, _) => TakeKeeps(s, t);
      case StealGrab(_, _) => StealKeeps(s, t, c.from, c.amount);
      case Refill(_, _) => RefillKeeps(s, t);
      case RefillFull(_, _) => OverflowKeeps(s, t, c.amount);
      case RefillSpill(_, _, _) => SpillKeeps(s, t);
      case Taken(_) => CounterKeeps(s, c);
      case Running(_) => RunningKeeps(s, t, c.submit);
      case Put(_, _, _) => PutKeeps(s, t);
      case PutLocal(_, _) => PutLocalKeeps(s, t);
      case PutFull(_, _) => OverflowKeeps(s, t, c.amount);
      case PutSpill(_, _, _) => SpillKeeps(s, t);
      case Counting(_) => CounterKeeps(s, c);
      case Returned(_) => CounterKeeps(s, c);
    }
  }

  // ---------------------------------------------------------------- every run

  function Run(workers: nat, clients: nat, schedule: seq<Choice>): (s: State)
    ensures Inv(s) && s.workers == workers && |s.threads| == workers + clients
    decreases |schedule|
  {
    if schedule == [] then
      InitKeeps(workers, clients);
      Init(workers, clients)
    else
      var before := Run(workers, clients, schedule[..|schedule| - 1]);
      StepKeeps(before, schedule[|schedule| - 1]);
      Step(before, schedule[|schedule| - 1])
  }

  lemma {:induction false} NothingInRings(rings: seq<seq<Task>>, k: Count)
    requires forall i | 0 <= i < |rings| :: rings[i] == []
    ensures InRings(rings, k) == 0
  {
    if rings != [] {
      NothingInRings(rings[..|rings| - 1], k);
    }
  }

  lemma {:induction false} NothingInSlots(slots: seq<Option<Task>>, k: Count)
    requires forall i | 0 <= i < |slots| :: slots[i] == None
    ensures InSlots(slots, k) == 0
  {
    if slots != [] {
      NothingInSlots(slots[..|slots| - 1], k);
    }
  }

  lemma {:induction false} NothingInHands(threads: seq<Local>, k: Count)
    requires forall t | 0 <= t < |threads| :: threads[t].Loop? || threads[t] == Running(None)
    ensures InHands(threads, k) == 0 && Debts(threads) == 0 && Unannounced(threads) == 0
  {
    if threads != [] {
      NothingInHands(threads[..|threads| - 1], k);
    }
  }

  lemma InitKeeps(workers: nat, clients: nat)
    ensures Inv(Init(workers, clients))
  {
    hide InRings, InSlots, InHands, Debts, Unannounced;
    var s := Init(workers, clients);
    forall k: Count ensures InRings(s.rings, k) == 0 && InSlots(s.slots, k) == 0 && InHands(s.threads, k) == 0 {
      NothingInRings(s.rings, k);
      NothingInSlots(s.slots, k);
      NothingInHands(s.threads, k);
    }
    NothingInHands(s.threads, All);
  }

  /** How many threads' hands are in the way: a sum that is zero only if every part is. */
  lemma {:induction false} EmptyHanded(threads: seq<Local>)
    requires InHands(threads, All) == 0
    ensures forall t | 0 <= t < |threads| :: Held(threads[t]) == []
  {
    hide Held;
    if threads != [] {
      EmptyHanded(threads[..|threads| - 1]);
    }
  }

  lemma {:induction false} EmptyRings(rings: seq<seq<Task>>)
    requires InRings(rings, All) == 0
    ensures forall i | 0 <= i < |rings| :: rings[i] == []
  {
    if rings != [] {
      EmptyRings(rings[..|rings| - 1]);
    }
  }

  lemma {:induction false} EmptySlots(slots: seq<Option<Task>>)
    requires InSlots(slots, All) == 0
    ensures forall i | 0 <= i < |slots| :: slots[i] == None
  {
    if slots != [] {
      EmptySlots(slots[..|slots| - 1]);
    }
  }

  lemma ZeroMeansDone(s: State)
    requires Inv(s) && s.unfinished == 0
    ensures multiset(s.ran) == multiset(s.submitted)
    ensures Sized(s) && s.global == [] && forall i | 0 <= i < s.workers :: s.rings[i] == [] && s.slots[i] == None
    ensures forall t | 0 <= t < |s.threads| :: Held(s.threads[t]) == []
  {
    hide InRings, InSlots, InHands, Held, Debts, Unannounced;
    assert Sized(s);
    hide RolesOk;
    assert Weigh(s.submitted, All) == Weigh(s.ran, All) + Waiting(s, All) + InHands(s.threads, All);
    forall x: Task ensures multiset(s.ran)[x] <= multiset(s.submitted)[x] {
      assert Weigh(s.submitted, Of(x)) == Weigh(s.ran, Of(x)) + Waiting(s, Of(x)) + InHands(s.threads, Of(x));
    }
    EmptyRings(s.rings);
    EmptySlots(s.slots);
    EmptyHanded(s.threads);
    SameSize(s.ran, s.submitted);
  }

  /**
   When `WaitIdle` reads zero, every submitted task has run, exactly as often as it was submitted, and
   nothing is left in a ring, a slot, the global queue or a thread's hands.
   */
  lemma IdleMeansDone(workers: nat, clients: nat, schedule: seq<Choice>)
    requires Run(workers, clients, schedule).unfinished == 0
    ensures var s := Run(workers, clients, schedule);
      && multiset(s.ran) == multiset(s.submitted)
      && s.global == [] && (forall i | 0 <= i < workers :: s.rings[i] == [] && s.slots[i] == None)
      && forall t | 0 <= t < |s.threads| :: Held(s.threads[t]) == []
  {
    hide Run;
    ZeroMeansDone(Run(workers, clients, schedule));
  }

  lemma SameSize(a: seq<Task>, b: seq<Task>)
    requires |a| == |b| && forall x :: multiset(a)[x] <= multiset(b)[x]
    ensures multiset(a) == multiset(b)
  {
    assert multiset(a) <= multiset(b);
    var rest := multiset(b) - multiset(a);
    assert multiset(b) == multiset(a) + rest;
    assert |rest| == 0;
  }

  /** In every state, each task has run or is somewhere, in total exactly as often as it was submitted. */
  lemma NothingLostOrDoubled(workers: nat, clients: nat, schedule: seq<Choice>, x: Task)
    ensures var s := Run(workers, clients, schedule);
      && multiset(s.submitted)[x] == multiset(s.ran)[x] + Waiting(s, Of(x)) + InHands(s.threads, Of(x))
      && s.unfinished == |s.submitted| - |s.ran| + Unannounced(s.threads)
  {
    var s := Run(workers, clients, schedule);
    hide Run, InRings, InSlots, InHands, Held, Debts, Unannounced, RolesOk;
    assert Weigh(s.submitted, Of(x)) == Weigh(s.ran, Of(x)) + Waiting(s, Of(x)) + InHands(s.threads, Of(x));
  }

  /** Nobody is between a push or a take and its counter update. */
  ghost predicate Settled(threads: seq<Local>) {
    forall t | 0 <= t < |threads| :: threads[t].Loop? || threads[t].Running? || threads[t].Returned?
  }

  /** When everybody has settled, the counter is the number of waiting tasks. */
  lemma QueueCounterExact(workers: nat, clients: nat, schedule: seq<Choice>)
    requires Settled(Run(workers, clients, schedule).threads)
    ensures var s := Run(workers, clients, schedule); s.queued == Waiting(s, All)
  {
    var s := Run(workers, clients, schedule);
    hide Run, RolesOk, Settled, Conserved, Waiting, Debts, Unannounced;
    NoDebts(s.threads);
  }

  lemma {:induction false} NoDebts(threads: seq<Local>)
    requires Settled(threads)
    ensures Debts(threads) == 0
  {
    if threads != [] {
      NoDebts(threads[..|threads| - 1]);
    }
  }

  // ---------------------------------------------------------------- the pool's rings are the ring buffer

  /** Every ring operation of the pool is one that the linearized ring buffer allows. */
  lemma RingAnswers(ring: seq<Task>, size: nat, amount: nat, x: Task)
    requires |ring| <= LOCAL_QUEUE_SIZE
    ensures var n := Grabbed(ring, size, amount);
      RingQueue.Answer(LOCAL_QUEUE_SIZE, ring, RingQueue.Grab(size),
                       RingQueue.Grabbed(seq(n, i requires 0 <= i < n => Some(ring[i])))) == Some(ring[n..])
    ensures RingQueue.Answer(LOCAL_QUEUE_SIZE, ring, RingQueue.TryPush(x), if |ring| < LOCAL_QUEUE_SIZE then RingQueue.Pushed else RingQueue.Full)
            == Some(if |ring| < LOCAL_QUEUE_SIZE then ring + [x] else ring)
    ensures RingQueue.Answer(LOCAL_QUEUE_SIZE, ring, RingQueue.TryPop, RingQueue.Popped(if ring == [] then None else Some(ring[0])))
            == Some(if ring == [] then ring else ring[1..])
  {
  }

  /** ... and the pool misses none: whatever a `Grab` may answer, some `amount` stands for it. */
  lemma RingAnswersAll(ring: seq<Task>, size: nat, items: seq<Option<Task>>)
    requires RingQueue.Answer(LOCAL_QUEUE_SIZE, ring, RingQueue.Grab(size), RingQueue.Grabbed(items)).Some?
    ensures Grabbed(ring, size, |items|) == |items|
    ensures RingQueue.Answer(LOCAL_QUEUE_SIZE, ring, RingQueue.Grab(size), RingQueue.Grabbed(items)) == Some(ring[|items|..])
  {
  }

  // ---------------------------------------------------------------- robbers

  /** How many times a worker has set out to steal. */
  function Thefts(workers: nat, clients: nat, schedule: seq<Choice>): nat
    decreases |schedule|
  {
    if schedule == [] then 0
    else
      var s, s' := Run(workers, clients, schedule[..|schedule| - 1]), Run(workers, clients, schedule);
      var t := schedule[|schedule| - 1].t;
      Thefts(workers, clients, schedule[..|schedule| - 1]) +
        if t < |s.threads| && !s.threads[t].StealGrab? && s'.threads[t].StealGrab? then 1 else 0
  }

  /**
   Nothing ever lowers `robbers_count_`: it counts every theft since the pool was made, and after as many
   thefts as there are workers nobody steals again.
   */
  lemma {:induction false} StealingEnds(workers: nat, clients: nat, schedule: seq<Choice>)
    ensures Thefts(workers, clients, schedule) == Run(workers, clients, schedule).robbers <= workers
    decreases |schedule|
  {
    if schedule != [] {
      StealingEnds(workers, clients, schedule[..|schedule| - 1]);
      var s := Run(workers, clients, schedule[..|schedule| - 1]);
      hide Run, Step;
      assert Run(workers, clients, schedule) == Step(s, schedule[|schedule| - 1]) by {
        RunLast(workers, clients, schedule);
      }
      RobbersStep(s, schedule[|schedule| - 1]);
    }
  }

  lemma RunLast(workers: nat, clients: nat, schedule: seq<Choice>)
    requires schedule != []
    ensures Run(workers, clients, schedule) == Step(Run(workers, clients, schedule[..|schedule| - 1]), schedule[|schedule| - 1])
  {
  }

  lemma RobbersStep(s: State, c: Choice)
    requires RolesOk(s) && s.robbers <= s.workers
    ensures var s' := Step(s, c);
      && s'.robbers <= s.workers && |s'.threads| == |s.threads|
      && s'.robbers == s.robbers +
           if c.t < |s.threads| && !s.threads[c.t].StealGrab? && s'.threads[c.t].StealGrab? then 1 else 0
  {
    if c.t < |s.threads| && s.threads[c.t].Take? {
      RobbersTake(s, c.t);
      assert Step(s, c) == StepTake(s, c.t);
    } else {
      hide Step;
      RobbersElse(s, c);
    }
  }

  lemma RobbersTake(s: State, t: nat)
    requires Sized(s) && t < s.workers && s.robbers <= s.workers && s.threads[t].Take?
    ensures var s' := StepTake(s, t);
      s'.robbers <= s.workers && |s'.threads| == |s.threads| && s'.robbers == s.robbers + if s'.threads[t].StealGrab? then 1 else 0
  {
    hide Share;
  }

  lemma RobbersElse(s: State, c: Choice)
    requires RolesOk(s) && (c.t < |s.threads| ==> !s.threads[c.t].Take?)
    ensures var s' := Step(s, c);
      && s'.robbers == s.robbers && |s'.threads| == |s.threads|
      && (c.t < |s.threads| && !s.threads[c.t].StealGrab? ==> !s'.threads[c.t].StealGrab?)
  {
    hide Share, Grabbed, Listed, LOCAL_QUEUE_SIZE;
  }
}
