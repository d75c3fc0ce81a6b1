/** What the ring buffer guarantees in every run. */
module RingQueueTheorems {
  import opened Basics
  import opened Histories
  import opened RingQueue

  // ---------------------------------------------------------------- every step keeps the invariant

  /** Steps that touch nothing shared and record nothing. */
  lemma PrivateKeeps(s: State, t: nat, l: Local)
    requires Inv(s) && t < |s.threads|
    requires LocalOk(s, t, l) && (Pushing(l) ==> t == s.producer) && PhaseAt(s, l) == PhaseAt(s, s.threads[t])
    ensures Inv(Go(s, t, l))
  {
    hide Slot, PhaseOf, Replay, Answer;
    var s' := Go(s, t, l);
    forall u | 0 <= u < |s'.threads| ensures LocalOk(s', u, s'.threads[u]) && (Pushing(s'.threads[u]) ==> u == s.producer) {
      assert LocalOk(s, u, s.threads[u]);
    }
    forall u: nat ensures PhaseOf(s'.hist, u) == if u < |s'.threads| then PhaseAt(s', s'.threads[u]) else Quiet {
      assert PhaseOf(s.hist, u) == if u < |s.threads| then PhaseAt(s, s.threads[u]) else Quiet;
    }
  }

  /** Steps that record event `e`; only the producer's phase may depend on the tail. */
  lemma EventKeeps(s: State, s': State, t: nat, e: Event<Op, Res>)
    requires BufferOk(s) && LocalsOk(s) && HistoryOk(s) && BufferOk(s')
    requires s'.capacity == s.capacity && t < |s.threads| && e.t == t && s'.hist == s.hist + [e]
    requires |s'.threads| == |s.threads| && s'.threads == s.threads[t := s'.threads[t]]
    requires s'.producer == s.producer && (s'.tail == s.tail || t == s.producer)
    requires PhaseAt(s', s'.threads[t]) == Advance(PhaseAt(s, s.threads[t]), e)
    requires if e.Effect? then Answer(s.capacity, Contents(s), e.op, e.res) == Some(Contents(s')) else Contents(s') == Contents(s)
    ensures HistoryOk(s')
  {
    hide Slot, PhaseOf, Replay, Answer, LocalOk, Contents;
    Appended(Bounded(s.capacity), [], s.hist, e);
    forall u: nat ensures PhaseOf(s'.hist, u) == if u < |s'.threads| then PhaseAt(s', s'.threads[u]) else Quiet {
      assert PhaseOf(s.hist, u) == if u < |s.threads| then PhaseAt(s, s.threads[u]) else Quiet;
      assert u < |s.threads| && u != t ==> (Pushing(s.threads[u]) ==> u == s.producer);
    }
  }

  /** The others keep what they know when the head advances and the tail does not move. */
  lemma HeadAdvances(s: State, k: nat, t: nat, l: Local, hist: seq<Event<Op, Res>>)
    requires Inv(s) && t < |s.threads| && s.head + k <= s.tail && !Pushing(l)
    requires l.Exit?
    ensures var s' := Go(s.(head := s.head + k, hist := hist), t, l);
      BufferOk(s') && LocalsOk(s') && Contents(s') == Contents(s)[k..]
  {
    hide Slot, PhaseOf, Replay, Answer;
    var s' := Go(s.(head := s.head + k, hist := hist), t, l);
    forall u | 0 <= u < |s'.threads| ensures LocalOk(s', u, s'.threads[u]) && (Pushing(s'.threads[u]) ==> u == s.producer) {
      assert LocalOk(s, u, s.threads[u]);
    }
  }

  lemma IdleKeeps(s: State, t: nat, op: Op)
    requires Inv(s) && t < |s.threads| && s.threads[t].Idle?
    ensures Inv(StepIdle(s, t, op))
  {
    var s' := StepIdle(s, t, op);
    if !(op.TryPush? && t != s.producer) {
      RecordKeeps(s, t, s'.threads[t], Call(t, op));
    }
  }

  lemma ExitKeeps(s: State, t: nat)
    requires Inv(s) && t < |s.threads| && s.threads[t].Exit?
    ensures Inv(StepExit(s, t))
  {
    RecordKeeps(s, t, Idle, Return(t, s.threads[t].res));
  }

  /** Recording an event without touching the ring. */
  lemma RecordKeeps(s: State, t: nat, l: Local, e: Event<Op, Res>)
    requires Inv(s) && t < |s.threads| && e.t == t && LocalOk(s, t, l) && (Pushing(l) ==> t == s.producer)
    requires PhaseAt(s, l) == Advance(PhaseAt(s, s.threads[t]), e)
    requires e.Effect? ==> Answer(s.capacity, Contents(s), e.op, e.res) == Some(Contents(s))
    ensures Inv(Go(s.(hist := s.hist + [e]), t, l))
  {
    var s' := Go(s.(hist := s.hist + [e]), t, l);
    hide Slot, PhaseOf, Replay, Answer;
    forall u | 0 <= u < |s'.threads| ensures LocalOk(s', u, s'.threads[u]) && (Pushing(s'.threads[u]) ==> u == s.producer) {
      assert LocalOk(s, u, s.threads[u]);
    }
    EventKeeps(s, s', t, e);
  }

  lemma PushLoadHeadKeeps(s: State, t: nat)
    requires Inv(s) && t < |s.threads| && s.threads[t].PushLoadHead?
    ensures Inv(StepPushLoadHead(s, t))
  {
    var x := s.threads[t].item;
    assert LocalOk(s, t, s.threads[t]);
    if s.tail == s.head + s.capacity {
      RecordKeeps(s, t, PushLoadTail(x, s.head), Effect(t, TryPush(x), Full));
    } else {
      assert s.hist + [] == s.hist;
      PrivateKeeps(s, t, PushLoadTail(x, s.head));
    }
  }

  lemma PushLoadTailKeeps(s: State, t: nat)
    requires Inv(s) && t < |s.threads| && s.threads[t].PushLoadTail?
    ensures Inv(StepPushLoadTail(s, t))
  {
    assert LocalOk(s, t, s.threads[t]);
    PrivateKeeps(s, t, StepPushLoadTail(s, t).threads[t]);
  }

  /** The producer writes a slot no item lives in. */
  lemma PushStoreKeeps(s: State, t: nat)
    requires Inv(s) && t < |s.threads| && s.threads[t].PushStore?
    ensures Inv(StepPushStore(s, t))
  {
    var s' := StepPushStore(s, t);
    assert LocalOk(s, t, s.threads[t]);
    forall i | s.head <= i < s.tail ensures s'.buffer[Slot(i, s.capacity + 1)] == Some(s.pushed[i]) {
      SlotsDiffer(i, s.tail, s.capacity + 1);
    }
    hide Slot, PhaseOf, Replay, Answer;
    forall u | 0 <= u < |s'.threads| ensures LocalOk(s', u, s'.threads[u]) && (Pushing(s'.threads[u]) ==> u == s.producer) {
      assert LocalOk(s, u, s.threads[u]) && (Pushing(s.threads[u]) ==> u == s.producer);
    }
    forall u: nat ensures PhaseOf(s'.hist, u) == if u < |s'.threads| then PhaseAt(s', s'.threads[u]) else Quiet {
      assert PhaseOf(s.hist, u) == if u < |s.threads| then PhaseAt(s, s.threads[u]) else Quiet;
    }
  }

  lemma PushPublishKeeps(s: State, t: nat)
    requires Inv(s) && t < |s.threads| && s.threads[t].PushPublish?
    ensures Inv(StepPushPublish(s, t))
  {
    hide Slot, PhaseOf, Replay;
    var s' := StepPushPublish(s, t);
    assert LocalOk(s, t, s.threads[t]);
    assert Contents(s') == Contents(s) + [s.threads[t].item];
    forall u | 0 <= u < |s'.threads| ensures LocalOk(s', u, s'.threads[u]) && (Pushing(s'.threads[u]) ==> u == s.producer) {
      assert LocalOk(s, u, s.threads[u]) && (Pushing(s.threads[u]) ==> u == s.producer);
    }
    EventKeeps(s, s', t, Effect(t, TryPush(s.threads[t].item), Pushed));
  }

  lemma PopLoadTailKeeps(s: State, t: nat)
    requires Inv(s) && t < |s.threads| && s.threads[t].PopLoadTail?
    ensures Inv(StepPopLoadTail(s, t))
  {
    assert LocalOk(s, t, s.threads[t]);
    if s.threads[t].head == s.tail {
      RecordKeeps(s, t, Exit(TryPop, Popped(None)), Effect(t, TryPop, Popped(None)));
    } else {
      PrivateKeeps(s, t, PopRead(s.threads[t].head));
    }
  }

  lemma PopReadKeeps(s: State, t: nat)
    requires Inv(s) && t < |s.threads| && s.threads[t].PopRead?
    ensures Inv(StepPopRead(s, t))
  {
    assert LocalOk(s, t, s.threads[t]);
    PrivateKeeps(s, t, StepPopRead(s, t).threads[t]);
  }

  lemma PopSwingKeeps(s: State, t: nat)
    requires Inv(s) && t < |s.threads| && s.threads[t].PopSwing?
    ensures Inv(StepPopSwing(s, t))
  {
    var l := s.threads[t];
    assert LocalOk(s, t, l);
    if s.head == l.head {
      var e := Effect(t, TryPop, Popped(l.got));
      HeadAdvances(s, 1, t, Exit(TryPop, Popped(l.got)), s.hist + [e]);
      hide Slot, PhaseOf, Replay;
      EventKeeps(s, StepPopSwing(s, t), t, e);
    } else {
      PrivateKeeps(s, t, PopLoadTail(s.head));
    }
  }

  lemma GrabLoadTailKeeps(s: State, t: nat)
    requires Inv(s) && t < |s.threads| && s.threads[t].GrabLoadTail?
    ensures Inv(StepGrabLoadTail(s, t))
  {
    assert LocalOk(s, t, s.threads[t]);
    PrivateKeeps(s, t, StepGrabLoadTail(s, t).threads[t]);
  }

  lemma GrabReadKeeps(s: State, t: nat)
    requires Inv(s) && t < |s.threads| && s.threads[t].GrabRead? && InBounds(s)
    ensures Inv(StepGrabRead(s, t))
  {
    var l := s.threads[t];
    assert LocalOk(s, t, l);
    SlotSteps(l.head + |l.items|, s.capacity + 1);
    PrivateKeeps(s, t, StepGrabRead(s, t).threads[t]);
  }

  lemma GrabWinKeeps(s: State, t: nat)
    requires Inv(s) && t < |s.threads| && s.threads[t].GrabSwing? && s.head == s.threads[t].head
    ensures Inv(StepGrabSwing(s, t))
  {
    hide Slot, PhaseOf, Replay;
    var l := s.threads[t];
    assert LocalOk(s, t, l);
    var e := Effect(t, Grab(l.size), Grabbed(l.items));
    HeadAdvances(s, |l.items|, t, Exit(Grab(l.size), Grabbed(l.items)), s.hist + [e]);
    hide LocalOk;
    EventKeeps(s, StepGrabSwing(s, t), t, e);
  }

  lemma GrabSwingKeeps(s: State, t: nat)
    requires Inv(s) && t < |s.threads| && s.threads[t].GrabSwing?
    ensures Inv(StepGrabSwing(s, t))
  {
    if s.head == s.threads[t].head {
      GrabWinKeeps(s, t);
    } else {
      PrivateKeeps(s, t, GrabLoadTail(s.threads[t].size, s.head));
    }
  }

  lemma LoadKeeps(s: State, t: nat)
    requires Inv(s) && t < |s.threads| && (s.threads[t].PopLoadHead? || s.threads[t].GrabLoadHead?) && InBounds(s)
    ensures Inv(Step(s, Choice(t, TryPop)))
  {
    PrivateKeeps(s, t, Step(s, Choice(t, TryPop)).threads[t]);
  }

  lemma StepKeeps(s: State, c: Choice)
    requires Inv(s)
    ensures InBounds(s) && Inv(Step(s, c))
    ensures |Step(s, c).threads| == |s.threads| && Step(s, c).capacity == s.capacity && Step(s, c).producer == s.producer
  {
    Boundaries(s);
    hide Inv;
    if c.t < |s.threads| {
      var t := c.t;
      match s.threads[t]
      case Idle => IdleKeeps(s, t, c.op);
      case PushLoadHead(_) => PushLoadHeadKeeps(s, t);
      case PushLoadTail(_, _) => PushLoadTailKeeps(s, t);
      case PushStore(_, _) => PushStoreKeeps(s, t);
      case PushPublish(_, _) => PushPublishKeeps(s, t);
      case PopLoadHead => LoadKeeps(s, t);
      case PopLoadTail(_) => PopLoadTailKeeps(s, t);
      case PopRead(_) => PopReadKeeps(s, t);
      case PopSwing(_, _) => PopSwingKeeps(s, t);
      case GrabLoadHead(_) => LoadKeeps(s, t);
      case GrabLoadTail(_, _) => GrabLoadTailKeeps(s, t);
      case GrabRead(_, _, _, _, _) => GrabReadKeeps(s, t);
      case GrabSwing(_, _, _, _) => GrabSwingKeeps(s, t);
      case Exit(_, _) => ExitKeeps(s, t);
    }
  }

  // ---------------------------------------------------------------- every run

  function Run(capacity: nat, producer: nat, threads: nat, schedule: seq<Choice>): (s: State)
    ensures Inv(s) && |s.threads| == threads && s.capacity == capacity && s.producer == producer
    decreases |schedule|
  {
    if schedule == [] then
      InitKeeps(capacity, producer, threads);
      Init(capacity, producer, threads)
    else
      var before := Run(capacity, producer, threads, schedule[..|schedule| - 1]);
      StepKeeps(before, schedule[|schedule| - 1]);
      Step(before, schedule[|schedule| - 1])
  }

  lemma InitKeeps(capacity: nat, producer: nat, threads: nat)
    ensures Inv(Init(capacity, producer, threads))
  {
  }

  /** Every run is a linearizable bounded queue, with any number of consumers. */
  lemma LinearizableRing(capacity: nat, producer: nat, threads: nat, schedule: seq<Choice>)
    ensures Linearizable(Bounded(capacity), [], Observed(Run(capacity, producer, threads, schedule).hist))
  {
    var s := Run(capacity, producer, threads, schedule);
    hide Run;
    hide BufferOk, LocalsOk, PhaseOf, Replay;
    assert Witness(Bounded(capacity), [], s.hist) by {
      forall t: nat ensures !PhaseOf(s.hist, t).Malformed? {
        assert PhaseOf(s.hist, t) == if t < |s.threads| then PhaseAt(s, s.threads[t]) else Quiet;
      }
    }
  }

  // ---------------------------------------------------------------- what comes out is what went in

  /** The items of the effects, in the order they took effect. */
  function Removed(h: seq<Event<Op, Res>>): seq<Option<Item>> {
    if h == [] then []
    else
      var e := h[|h| - 1];
      Removed(h[..|h| - 1]) +
        if !e.Effect? then []
        else
          match e.res
          case Popped(Some(x)) => [Some(x)]
          case Grabbed(items) => items
          case _ => []
  }

  function Accepted(h: seq<Event<Op, Res>>): seq<Item> {
    if h == [] then []
    else
      var e := h[|h| - 1];
      Accepted(h[..|h| - 1]) + if e.Effect? && e.op.TryPush? && e.res.Pushed? then [e.op.item] else []
  }

  function Wrapped(q: seq<Item>): seq<Option<Item>> {
    seq(|q|, i requires 0 <= i < |q| => Some(q[i]))
  }

  /** In any legal sequential run, what was removed and what is left make up what was accepted. */
  lemma {:induction false} NothingLost(capacity: nat, h: seq<Event<Op, Res>>)
    requires Replay(Bounded(capacity), [], h).Some?
    ensures Removed(h) + Wrapped(Replay(Bounded(capacity), [], h).value) == Wrapped(Accepted(h))
  {
    if h != [] {
      var front := h[..|h| - 1];
      NothingLost(capacity, front);
      var q := Replay(Bounded(capacity), [], front).value;
      var e := h[|h| - 1];
      assert Removed(front) + [] == Removed(front) && Accepted(front) + [] == Accepted(front);
      if e.Effect? {
        AnswerAccounts(capacity, q, e.op, e.res, Removed(front), Accepted(front));
      }
    }
  }

  lemma AnswerAccounts(capacity: nat, q: seq<Item>, op: Op, res: Res, removed: seq<Option<Item>>, accepted: seq<Item>)
    requires Answer(capacity, q, op, res).Some? && removed + Wrapped(q) == Wrapped(accepted)
    ensures var q' := Answer(capacity, q, op, res).value;
      var out := match res { case Popped(Some(x)) => [Some(x)] case Grabbed(items) => items case _ => [] };
      var added := if op.TryPush? && res.Pushed? then [op.item] else [];
      (removed + out) + Wrapped(q') == Wrapped(accepted + added)
  {
    var q' := Answer(capacity, q, op, res).value;
    match res
    case Pushed =>
      assert Wrapped(q') == Wrapped(q) + [Some(op.item)];
      assert Wrapped(accepted + [op.item]) == Wrapped(accepted) + [Some(op.item)];
      assert removed + [] == removed;
    case Full =>
      assert removed + [] == removed && accepted + [] == accepted;
    case Popped(item) =>
      assert accepted + [] == accepted;
      if item.None? {
        assert removed + [] == removed;
      } else {
        assert Wrapped(q) == [item] + Wrapped(q');
        assert (removed + [item]) + Wrapped(q') == removed + ([item] + Wrapped(q'));
      }
    case Grabbed(items) =>
      assert accepted + [] == accepted;
      assert Wrapped(q) == items + Wrapped(q');
      assert (removed + items) + Wrapped(q') == removed + (items + Wrapped(q'));
  }

  /**
   The successful removals of all consumers, concatenated in the order of their compare-exchanges, are a
   prefix of the accepted pushes; the rest, never more than the capacity, is what the ring still holds.
   */
  lemma RemovalsArePrefix(capacity: nat, producer: nat, threads: nat, schedule: seq<Choice>)
    ensures var s := Run(capacity, producer, threads, schedule);
      && 0 <= s.tail - s.head <= capacity
      && Removed(s.hist) + Wrapped(Contents(s)) == Wrapped(Accepted(s.hist))
      && |Removed(s.hist)| == s.head && |Accepted(s.hist)| == s.tail
  {
    var s := Run(capacity, producer, threads, schedule);
    hide Run, PhaseOf, Replay, LocalsOk;
    NothingLost(capacity, s.hist);
    Counters(capacity, producer, threads, schedule);
  }

  /** The two counters count the successful removals and pushes. */
  lemma {:induction false} Counters(capacity: nat, producer: nat, threads: nat, schedule: seq<Choice>)
    ensures var s := Run(capacity, producer, threads, schedule); |Accepted(s.hist)| == s.tail
    decreases |schedule|
  {
    hide Inv, Step;
    if schedule != [] {
      var c := schedule[|schedule| - 1];
      Counters(capacity, producer, threads, schedule[..|schedule| - 1]);
      var before := Run(capacity, producer, threads, schedule[..|schedule| - 1]);
      StepKeeps(before, c);
      StepCounts(before, c);
    }
  }

  lemma StepCounts(s: State, c: Choice)
    requires InBounds(s)
    ensures |Accepted(Step(s, c).hist)| - Step(s, c).tail == |Accepted(s.hist)| - s.tail
  {
    var s' := Step(s, c);
    assert s.hist + [] == s.hist;
    if s'.hist != s.hist {
      assert s'.hist[..|s'.hist| - 1] == s.hist;
    }
  }

  // ---------------------------------------------------------------- how much a Grab takes

  /**
   A `Grab` whose compare-exchange succeeds takes as many items as it may, unless pushes were published
   since it read the tail and it asked for more than it saw.
   */
  lemma GrabTakesAll(s: State, t: nat)
    requires Inv(s) && t < |s.threads| && s.threads[t].GrabSwing? && s.head == s.threads[t].head
    ensures var l := s.threads[t];
      && Front(l.items, Contents(s))
      && (|l.items| == Min(l.size, |Contents(s)|) <==> s.tail == l.seen || l.seen - l.head >= l.size)
  {
    assert LocalOk(s, t, s.threads[t]);
  }

  /**
   A consumer goes back to the load of the tail only from its exchange, and only because another consumer removed
   something since it read the head, which it takes over.
   */
  lemma RetryMeansLoss(s: State, c: Choice)
    requires Inv(s) && InBounds(s) && c.t < |s.threads|
    requires var l, l' := s.threads[c.t], Step(s, c).threads[c.t];
      (l'.PopLoadTail? && !l.PopLoadHead?) || (l'.GrabLoadTail? && !l.GrabLoadHead?)
    ensures var l, l' := s.threads[c.t], Step(s, c).threads[c.t];
      (l.PopSwing? || l.GrabSwing?) && s.head > l.head && l'.head == s.head
  {
    assert LocalOk(s, c.t, s.threads[c.t]);
  }
}
