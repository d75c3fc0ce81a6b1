/**
 The queue spinlock of detail/spinlock.hpp: guards line up by a compare-exchange on `tail`, each links
 itself behind its predecessor, and a release hands the lock to the linked successor.

 Thread `t` uses guard `t`; constructing a guard resets it, and a guard whose thread is `Out` no longer
 exists, so touching it sets `fault`.  Bookkeeping: `arrivals` and `entered` list the successful
 compare-exchanges on `tail` and the entries into the lock in order, the first `left` arrivals are
 done, and `tickets[t]` is the place of thread `t`'s latest arrival.  No step tests them: that a step looks
 whether `t` has a place in `tickets` only keeps the step total.
 */
module SpinLock {
  import opened Basics

  datatype Guard = Guard(next: Option<nat>, owner: bool)

  /** Program counters of `Acquire` (spinlock.hpp:46-62) and `Release` (64-78). */
  datatype Pc =
    | Out
    | LoadTail
    | SwapTail(seen: Option<nat>)
    | LinkBehind(pred: nat)
    | Spin
    | Critical
    | ClearTail
    | AwaitNext
    | Grant(next: nat)

  datatype State = State(
    tail: Option<nat>,
    guards: seq<Guard>,
    pcs: seq<Pc>,
    arrivals: seq<nat>,
    entered: seq<nat>,
    left: nat,
    tickets: seq<nat>,
    fault: bool)

  datatype Choice = Choice(t: nat, spurious: bool)

  ghost predicate Shaped(s: State) {
    |s.guards| == |s.pcs| == |s.tickets|
  }

  function Go(s: State, t: nat, pc: Pc): State
    requires t < |s.pcs|
  {
    s.(pcs := s.pcs[t := pc])
  }

  function StepSwapTail(s: State, t: nat, spurious: bool): State
    requires t < |s.pcs| && s.pcs[t].SwapTail?
  {
    var seen := s.pcs[t].seen;
    if s.tail != seen || spurious || t >= |s.tickets| then Go(s, t, SwapTail(s.tail))
    else
      var s1 := s.(tail := Some(t), arrivals := s.arrivals + [t], tickets := s.tickets[t := |s.arrivals|]);
      if seen == None then Go(s1.(entered := s.entered + [t]), t, Critical)
      else Go(s1, t, LinkBehind(seen.value))
  }

  function StepLinkBehind(s: State, t: nat): State
    requires t < |s.pcs| && s.pcs[t].LinkBehind?
  {
    var pred := s.pcs[t].pred;
    if pred >= |s.guards| || pred >= |s.pcs| || s.pcs[pred].Out? then s.(fault := true)
    else Go(s.(guards := s.guards[pred := s.guards[pred].(next := Some(t))]), t, Spin)
  }

  function StepSpin(s: State, t: nat): State
    requires t < |s.pcs| && s.pcs[t].Spin?
  {
    if t < |s.guards| && s.guards[t].owner then Go(s.(entered := s.entered + [t]), t, Critical) else s
  }

  function StepClearTail(s: State, t: nat): State
    requires t < |s.pcs| && s.pcs[t].ClearTail?
  {
    if s.tail == Some(t) then Go(s.(tail := None, left := s.left + 1), t, Out)
    else Go(s, t, AwaitNext)
  }

  function StepAwaitNext(s: State, t: nat): State
    requires t < |s.pcs| && s.pcs[t].AwaitNext?
  {
    if t >= |s.guards| || s.guards[t].next == None then s else Go(s, t, Grant(s.guards[t].next.value))
  }

  function StepGrant(s: State, t: nat): State
    requires t < |s.pcs| && s.pcs[t].Grant?
  {
    var n := s.pcs[t].next;
    if n >= |s.guards| || n >= |s.pcs| || s.pcs[n].Out? then s.(fault := true)
    else Go(s.(guards := s.guards[n := s.guards[n].(owner := true)], left := s.left + 1), t, Out)
  }

  function StepEnter(s: State, t: nat): State
    requires t < |s.pcs| && s.pcs[t].Out?
  {
    if t >= |s.guards| then s else Go(s.(guards := s.guards[t := Guard(None, false)]), t, LoadTail)
  }

  function Step(s: State, c: Choice): State {
    var t := c.t;
    if t >= |s.pcs| then s
    else
      match s.pcs[t]
      case Out => StepEnter(s, t)
      case LoadTail => Go(s, t, SwapTail(s.tail))
      case SwapTail(_) => StepSwapTail(s, t, c.spurious)
      case LinkBehind(_) => StepLinkBehind(s, t)
      case Spin => StepSpin(s, t)
      case Critical => Go(s, t, ClearTail)
      case ClearTail => StepClearTail(s, t)
      case AwaitNext => StepAwaitNext(s, t)
      case Grant(_) => StepGrant(s, t)
  }

  function Init(threads: nat): State {
    State(None, seq(threads, i => Guard(None, false)), seq(threads, i => Out), [], [], 0, seq(threads, i => 0), false)
  }

  function Run(s: State, schedule: seq<Choice>): State
    decreases |schedule|
  {
    if schedule == [] then s
    else Step(Run(s, schedule[..|schedule| - 1]), schedule[|schedule| - 1])
  }

  // ---------------------------------------------------------------- invariant

  predicate InLine(pc: Pc) {
    pc.LinkBehind? || pc.Spin? || Holds(pc)
  }

  /** The lock is held from the entry until the release has handed it on. */
  predicate Holds(pc: Pc) {
    pc.Critical? || pc.ClearTail? || pc.AwaitNext? || pc.Grant?
  }

  /** The arrivals from `left` on are the line, the holder first. */
  ghost predicate LineOk(s: State)
    requires Shaped(s)
  {
    && s.left <= |s.arrivals|
    && (forall k | s.left <= k < |s.arrivals| ::
          s.arrivals[k] < |s.pcs| && InLine(s.pcs[s.arrivals[k]]) && s.tickets[s.arrivals[k]] == k)
    && (forall t | 0 <= t < |s.pcs| && InLine(s.pcs[t]) ::
          s.left <= s.tickets[t] < |s.arrivals| && s.arrivals[s.tickets[t]] == t)
    && s.tail == (if s.left == |s.arrivals| then None else Some(s.arrivals[|s.arrivals| - 1]))
  }

  /** The head of the line holds the lock or has just been granted it. */
  ghost predicate HeadOk(s: State)
    requires Shaped(s) && LineOk(s)
  {
    s.left < |s.arrivals| ==>
      var h := s.arrivals[s.left];
      var alone := s.left + 1 == |s.arrivals|;
      && (Holds(s.pcs[h]) || (s.pcs[h].Spin? && s.guards[h].owner))
      && (s.pcs[h].AwaitNext? ==> !alone)
      && (s.pcs[h].Grant? ==> !alone && s.pcs[h].next == s.arrivals[s.left + 1] && s.pcs[s.pcs[h].next].Spin?)
      && (alone ==> s.guards[h].next == None)
  }

  /** Everyone behind waits: either still to be linked, or linked and spinning. */
  ghost predicate WaiterOk(s: State, k: nat)
    requires Shaped(s) && LineOk(s) && s.left < k < |s.arrivals|
  {
    var t, pred := s.arrivals[k], s.arrivals[k - 1];
    && !s.guards[t].owner
    && (if s.guards[pred].next == None then s.pcs[t] == LinkBehind(pred)
        else s.guards[pred].next == Some(t) && s.pcs[t].Spin?)
    && (k == |s.arrivals| - 1 ==> s.guards[t].next == None)
  }

  /** How many arrivals have entered. */
  function Inside(s: State): nat {
    if s.left < |s.arrivals| && s.arrivals[s.left] < |s.pcs| && Holds(s.pcs[s.arrivals[s.left]]) then s.left + 1 else s.left
  }

  ghost predicate WaitersOk(s: State)
    requires Shaped(s) && LineOk(s)
  {
    forall k | s.left < k < |s.arrivals| :: WaiterOk(s, k)
  }

  ghost predicate Inv(s: State) {
    && !s.fault && Shaped(s) && LineOk(s) && HeadOk(s) && WaitersOk(s)
    && (forall t | 0 <= t < |s.pcs| && (s.pcs[t].LoadTail? || s.pcs[t].SwapTail?) :: s.guards[t] == Guard(None, false))
    && Inside(s) <= |s.arrivals|
    && s.entered == s.arrivals[..Inside(s)]
  }

  /** A thread outside the line changes nothing the line looks at. */
  lemma BystanderKeeps(s: State, s': State, t: nat, pc: Pc, guard: Guard)
    requires Inv(s) && t < |s.pcs| && !InLine(s.pcs[t]) && !InLine(pc)
    requires s' == s.(pcs := s.pcs[t := pc], guards := s.guards[t := guard])
    requires pc.LoadTail? || pc.SwapTail? ==> guard == Guard(None, false)
    ensures Inv(s')
  {
    forall k | s'.left < k < |s'.arrivals| ensures WaiterOk(s', k) {
      assert WaiterOk(s, k);
    }
    hide WaiterOk;
  }

  lemma EnterKeeps(s: State, t: nat)
    requires Inv(s) && t < |s.pcs| && s.pcs[t].Out?
    ensures Inv(StepEnter(s, t))
  {
    assert t < |s.guards|;
    hide Inv;
    BystanderKeeps(s, StepEnter(s, t), t, LoadTail, Guard(None, false));
  }

  lemma LoadKeeps(s: State, t: nat, pc: Pc)
    requires Inv(s) && t < |s.pcs| && (s.pcs[t].LoadTail? || s.pcs[t].SwapTail?) && pc.SwapTail?
    ensures Inv(Go(s, t, pc))
  {
    assert t < |s.guards| && s.guards[t] == Guard(None, false);
    hide Inv;
    assert s.guards[t := s.guards[t]] == s.guards;
    BystanderKeeps(s, Go(s, t, pc), t, pc, s.guards[t]);
  }

  lemma JoinLengthensLine(s: State, t: nat)
    requires Inv(s) && t < |s.pcs| && s.pcs[t] == SwapTail(s.tail)
    ensures var s' := StepSwapTail(s, t, false); Shaped(s') && LineOk(s') && HeadOk(s')
  {
    hide WaitersOk;
  }

  /** Nobody is linked behind the last in line. */
  lemma LastUnlinked(s: State)
    requires Inv(s) && s.left < |s.arrivals|
    ensures var t := s.arrivals[|s.arrivals| - 1]; t < |s.guards| && s.guards[t].next == None
  {
    if s.left + 1 < |s.arrivals| {
      assert WaiterOk(s, |s.arrivals| - 1);
    }
  }

  lemma JoinKeepsWaiter(s: State, t: nat, k: nat)
    requires Inv(s) && t < |s.pcs| && s.pcs[t] == SwapTail(s.tail) && s.left < k <= |s.arrivals|
    requires Shaped(StepSwapTail(s, t, false)) && LineOk(StepSwapTail(s, t, false))
    ensures WaiterOk(StepSwapTail(s, t, false), k)
  {
    LastUnlinked(s);
    if k < |s.arrivals| {
      assert WaiterOk(s, k);
    }
    hide WaitersOk, HeadOk;
  }

  lemma JoinKeepsEntries(s: State, t: nat)
    requires Inv(s) && t < |s.pcs| && s.pcs[t] == SwapTail(s.tail)
    ensures var s' := StepSwapTail(s, t, false); Inside(s') <= |s'.arrivals| && s'.entered == s'.arrivals[..Inside(s')]
  {
    hide WaitersOk, HeadOk;
  }

  lemma JoinKeeps(s: State, t: nat)
    requires Inv(s) && t < |s.pcs| && s.pcs[t] == SwapTail(s.tail)
    ensures Inv(StepSwapTail(s, t, false))
  {
    hide WaiterOk, HeadOk, LineOk, Inside;
    var s' := StepSwapTail(s, t, false);
    JoinLengthensLine(s, t);
    JoinKeepsEntries(s, t);
    forall k | s'.left < k < |s'.arrivals| ensures WaiterOk(s', k) {
      JoinKeepsWaiter(s, t, k);
    }
  }

  lemma LinkKeeps(s: State, t: nat)
    requires Inv(s) && t < |s.pcs| && s.pcs[t].LinkBehind?
    ensures Inv(StepLinkBehind(s, t))
  {
    var s' := StepLinkBehind(s, t);
    assert s.tickets[t] > s.left;
    assert WaiterOk(s, s.tickets[t]);
    forall k | s'.left < k < |s'.arrivals| ensures WaiterOk(s', k) {
      assert WaiterOk(s, k);
    }
    hide WaiterOk;
  }

  /** Only the head of the line holds the lock or finds itself its owner. */
  lemma HolderIsHead(s: State, t: nat)
    requires Inv(s) && t < |s.pcs| && (Holds(s.pcs[t]) || (s.pcs[t].Spin? && s.guards[t].owner))
    ensures s.left < |s.arrivals| && s.arrivals[s.left] == t && s.tickets[t] == s.left
  {
    var k := s.tickets[t];
    assert k > s.left ==> WaiterOk(s, k);
  }

  lemma SpinKeeps(s: State, t: nat)
    requires Inv(s) && t < |s.pcs| && s.pcs[t].Spin?
    ensures Inv(StepSpin(s, t))
  {
    var s' := StepSpin(s, t);
    if s.guards[t].owner {
      HolderIsHead(s, t);
      forall k | s'.left < k < |s'.arrivals| ensures WaiterOk(s', k) {
        assert WaiterOk(s, k);
      }
    }
  }

  lemma LeaveKeeps(s: State, t: nat)
    requires Inv(s) && t < |s.pcs| && s.pcs[t].Critical?
    ensures Inv(Go(s, t, ClearTail))
  {
    var s' := Go(s, t, ClearTail);
    HolderIsHead(s, t);
    forall k | s'.left < k < |s'.arrivals| ensures WaiterOk(s', k) {
      assert WaiterOk(s, k);
    }
    hide WaiterOk;
  }

  lemma ClearKeeps(s: State, t: nat)
    requires Inv(s) && t < |s.pcs| && s.pcs[t].ClearTail?
    ensures Inv(StepClearTail(s, t))
  {
    var s' := StepClearTail(s, t);
    HolderIsHead(s, t);
    forall k | s'.left < k < |s'.arrivals| ensures WaiterOk(s', k) {
      assert WaiterOk(s, k);
    }
    hide WaiterOk;
  }

  lemma AwaitKeeps(s: State, t: nat)
    requires Inv(s) && t < |s.pcs| && s.pcs[t].AwaitNext?
    ensures Inv(StepAwaitNext(s, t))
  {
    var s' := StepAwaitNext(s, t);
    HolderIsHead(s, t);
    assert WaiterOk(s, s.left + 1);
    forall k | s'.left < k < |s'.arrivals| ensures WaiterOk(s', k) {
      assert WaiterOk(s, k);
    }
    hide WaiterOk;
  }

  lemma GrantKeeps(s: State, t: nat)
    requires Inv(s) && t < |s.pcs| && s.pcs[t].Grant?
    ensures Inv(StepGrant(s, t))
  {
    var s' := StepGrant(s, t);
    HolderIsHead(s, t);
    assert WaiterOk(s, s.left + 1);
    forall k | s'.left < k < |s'.arrivals| ensures WaiterOk(s', k) {
      assert WaiterOk(s, k);
    }
    hide WaiterOk;
  }

  lemma StepKeeps(s: State, c: Choice)
    requires Inv(s)
    ensures Inv(Step(s, c)) && |Step(s, c).pcs| == |s.pcs|
  {
    hide Inv;
    var t := c.t;
    if t < |s.pcs| {
      match s.pcs[t]
      case Out => EnterKeeps(s, t);
      case LoadTail => LoadKeeps(s, t, SwapTail(s.tail));
      case SwapTail(seen) =>
        if seen == s.tail && !c.spurious {
          JoinKeeps(s, t);
        } else {
          LoadKeeps(s, t, SwapTail(s.tail));
        }
      case LinkBehind(_) => LinkKeeps(s, t);
      case Spin => SpinKeeps(s, t);
      case Critical => LeaveKeeps(s, t);
      case ClearTail => ClearKeeps(s, t);
      case AwaitNext => AwaitKeeps(s, t);
      case Grant(_) => GrantKeeps(s, t);
    }
  }

  lemma {:induction false} RunKeeps(s: State, schedule: seq<Choice>)
    requires Inv(s)
    ensures Inv(Run(s, schedule)) && |Run(s, schedule).pcs| == |s.pcs|
    decreases |schedule|
  {
    hide Inv, Step;
    if schedule != [] {
      RunKeeps(s, schedule[..|schedule| - 1]);
      StepKeeps(Run(s, schedule[..|schedule| - 1]), schedule[|schedule| - 1]);
    }
  }

  lemma InitKeeps(threads: nat)
    ensures Inv(Init(threads))
  {
  }

  // ---------------------------------------------------------------- theorems

  /** At most one guard is between its entry and the end of its release, in every run. */
  lemma MutualExclusion(threads: nat, schedule: seq<Choice>, t: nat, u: nat)
    requires t < threads && u < threads
    ensures var s := Run(Init(threads), schedule);
      |s.pcs| == threads && (Holds(s.pcs[t]) && Holds(s.pcs[u]) ==> t == u)
  {
    hide Run, Init;
    InitKeeps(threads);
    assert |Init(threads).pcs| == threads by {
      InitSize(threads);
    }
    RunKeeps(Init(threads), schedule);
    var s := Run(Init(threads), schedule);
    if Holds(s.pcs[t]) && Holds(s.pcs[u]) {
      HolderIsHead(s, t);
      HolderIsHead(s, u);
    }
  }

  lemma InitSize(threads: nat)
    ensures |Init(threads).pcs| == threads
  {
  }

  /**
   Guards enter in the order of their compare-exchanges on `tail`: the entries are a prefix of the
   arrivals, at most one of them has not left yet, and no destroyed guard is ever touched.
   */
  lemma FirstComeFirstServed(threads: nat, schedule: seq<Choice>)
    ensures var s := Run(Init(threads), schedule);
      && s.entered <= s.arrivals && s.left <= |s.entered| <= s.left + 1
      && !s.fault
  {
    InitKeeps(threads);
    RunKeeps(Init(threads), schedule);
  }

  /** How much work is left before the guard at `pc` has left the line. */
  function Weight(pc: Pc): nat {
    match pc
    case LinkBehind(_) => 7
    case Spin => 6
    case Critical => 5
    case ClearTail => 4
    case AwaitNext => 3
    case Grant(_) => 2
    case _ => 0
  }

  function Work(pcs: seq<Pc>): nat {
    if pcs == [] then 0 else Work(pcs[..|pcs| - 1]) + Weight(pcs[|pcs| - 1])
  }

  lemma {:induction false} WorkUpdate(pcs: seq<Pc>, t: nat, pc: Pc)
    requires t < |pcs|
    ensures Work(pcs[t := pc]) == Work(pcs) - Weight(pcs[t]) + Weight(pc)
  {
    var n := |pcs| - 1;
    if t == n {
      assert pcs[t := pc][..n] == pcs[..n];
    } else {
      assert pcs[t := pc][..n] == pcs[..n][t := pc];
      WorkUpdate(pcs[..n], t, pc);
    }
  }

  /**
   The thread that can move the lock forward: the head of the line, or, when the head is waiting for
   a link that its successor has not written yet, that successor.
   */
  function Mover(s: State): nat
    requires s.left < |s.arrivals|
  {
    var h := s.arrivals[s.left];
    if s.left + 1 < |s.arrivals| && h < |s.pcs| && h < |s.guards| && s.pcs[h].AwaitNext? && s.guards[h].next == None
    then s.arrivals[s.left + 1] else h
  }

  /** No state is a deadlock: while anyone is in line, the mover's next step reduces the work left. */
  lemma MoverMoves(s: State, c: Choice)
    requires Inv(s) && s.left < |s.arrivals| && c.t == Mover(s)
    ensures c.t < |s.pcs|
    ensures var s' := Step(s, c); Work(s'.pcs) < Work(s.pcs) && s'.arrivals == s.arrivals
  {
    var pc' := MoverAdvances(s, c);
    hide Inv, Step, Weight, Mover;
    WorkUpdate(s.pcs, c.t, pc');
  }

  lemma MoverAdvances(s: State, c: Choice) returns (pc': Pc)
    requires Inv(s) && s.left < |s.arrivals| && c.t == Mover(s)
    ensures c.t < |s.pcs| && Weight(pc') < Weight(s.pcs[c.t])
    ensures Step(s, c).pcs == s.pcs[c.t := pc'] && Step(s, c).arrivals == s.arrivals
  {
    hide Work;
    if s.left + 1 < |s.arrivals| {
      assert WaiterOk(s, s.left + 1);
    }
    hide WaitersOk;
    pc' := Step(s, c).pcs[c.t];
  }

  /**
   From any reachable state the line can be emptied without any new arrival: at most `Work` steps of
   the movers let every waiting guard in, in order, and out again.
   */
  lemma {:induction false} LineDrains(s: State) returns (schedule: seq<Choice>)
    requires Inv(s)
    ensures |schedule| <= Work(s.pcs)
    ensures var s' := Run(s, schedule);
      Inv(s') && s'.left == |s'.arrivals| && s'.tail == None && s'.arrivals == s.arrivals && s'.entered == s.arrivals
    decreases Work(s.pcs)
  {
    if s.left == |s.arrivals| {
      schedule := [];
    } else {
      var c := Choice(Mover(s), false);
      MoverMoves(s, c);
      StepKeeps(s, c);
      hide Inv, Step, Mover;
      var rest := LineDrains(Step(s, c));
      schedule := [c] + rest;
      RunPrepend(s, c, rest);
    }
  }

  lemma {:induction false} RunPrepend(s: State, c: Choice, rest: seq<Choice>)
    ensures Run(s, [c] + rest) == Run(Step(s, c), rest)
    decreases |rest|
  {
    hide Step;
    if rest == [] {
      assert [c] + rest == [c] && [c][..0] == [];
    } else {
      var n := |rest| - 1;
      RunPrepend(s, c, rest[..n]);
      assert ([c] + rest)[..n + 1] == [c] + rest[..n];
    }
  }

  /** One step of a thread that is not in line, without a spurious failure. */
  lemma JoinStep(s: State, t: nat)
    requires Inv(s) && t < |s.pcs| && !InLine(s.pcs[t])
    ensures var pc, s' := s.pcs[t], Step(s, Choice(t, false));
      && |s'.pcs| == |s.pcs| && s'.tail == (if pc == SwapTail(s.tail) then Some(t) else s.tail)
      && (pc.Out? ==> s'.pcs[t] == LoadTail)
      && (pc.LoadTail? || (pc.SwapTail? && pc.seen != s.tail) ==> s'.pcs[t] == SwapTail(s.tail))
      && (pc == SwapTail(s.tail) ==> s'.pcs[t] == if s.tail.None? then Critical else LinkBehind(s.tail.value))
      && s'.arrivals == s.arrivals + if pc == SwapTail(s.tail) then [t] else []
  {
  }

  /**
   From every reachable state a thread outside of the line that runs alone joins it within 3 steps, as the last; if
   nobody is there it is in the lock.
   */
  lemma JoinsAlone(threads: nat, schedule: seq<Choice>, t: nat) returns (n: nat)
    requires t < threads && t < |Run(Init(threads), schedule).pcs| && !InLine(Run(Init(threads), schedule).pcs[t])
    ensures n <= 3
    ensures var s, s' := Run(Init(threads), schedule), Run(Init(threads), schedule + seq(n, i => Choice(t, false)));
      && t < |s'.pcs| && s'.arrivals == s.arrivals + [t] && s'.tail == Some(t)
      && s'.pcs[t] == if s.tail.None? then Critical else LinkBehind(s.tail.value)
  {
    hide Inv, Step, Init;
    InitKeeps(threads);
    RunKeeps(Init(threads), schedule);
    var s, c := Run(Init(threads), schedule), Choice(t, false);
    var s1 := Step(s, c);
    var s2 := Step(s1, c);
    n := if s.pcs[t].Out? then 3 else if s.pcs[t] == SwapTail(s.tail) then 1 else 2;
    JoinStep(s, t);
    StepKeeps(s, c);
    if n > 1 {
      JoinStep(s1, t);
      StepKeeps(s1, c);
      if n > 2 {
        JoinStep(s2, t);
      }
    }
    RunAlone(Init(threads), schedule, c);
    hide Run;
  }

  lemma RunAlone(s: State, schedule: seq<Choice>, c: Choice)
    ensures Run(s, schedule + seq(1, i => c)) == Step(Run(s, schedule), c)
    ensures Run(s, schedule + seq(2, i => c)) == Step(Step(Run(s, schedule), c), c)
    ensures Run(s, schedule + seq(3, i => c)) == Step(Step(Step(Run(s, schedule), c), c), c)
  {
    hide Step;
    assert (schedule + seq(1, i => c))[..|schedule|] == schedule;
    assert (schedule + seq(2, i => c))[..|schedule| + 1] == schedule + seq(1, i => c);
    assert (schedule + seq(3, i => c))[..|schedule| + 2] == schedule + seq(2, i => c);
  }
}
