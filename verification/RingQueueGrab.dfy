/**
 `Grab` of lockfree/ring_queue.hpp is not an atomic "take as many as you can": a run in which the whole
 history has no linearization with that meaning.
 */
module RingQueueGrab {
  import opened Basics
  import opened Histories
  import opened RingQueue
  import opened RingQueueTheorems

  /** The bounded queue whose `Grab` must take as many items as it may. */
  function Greedy(capacity: nat): Spec<seq<Item>, Op, Res> {
    (q: seq<Item>, op: Op, res: Res) =>
      if op.Grab? && res.Grabbed? && |res.items| != Min(op.size, |q|) then None else Answer(capacity, q, op, res)
  }

  /**
   Two slots, one item in them.  A consumer asks for two items and sees the one; the producer adds a
   second, finds no room for a third, and then the consumer's compare-exchange succeeds with one item.
   */
  function Calls(a: Item, b: Item, c: Item): seq<Event<Op, Res>> {
    [Call(0, TryPush(a)), Return(0, Pushed), Call(1, Grab(2)), Call(0, TryPush(b)), Return(0, Pushed),
     Call(0, TryPush(c)), Return(0, Full), Return(1, Grabbed([Some(a)]))]
  }

  /** The possible positions after the first `n` calls and returns, in a history the greedy queue allows. */
  predicate Possible(a: Item, b: Item, c: Item, n: nat, p: Phase<Op, Res>, g: Phase<Op, Res>, q: seq<Item>) {
    var full := Grabbed([Some(a)]);
    var both := Grabbed([Some(a), Some(b)]);
    if n == 0 then p == Quiet && g == Quiet && q == []
    else if n == 1 then g == Quiet && ((p == Called(TryPush(a)) && q == []) || (p == Done(TryPush(a), Pushed) && q == [a]))
    else if n == 2 then p == Quiet && g == Quiet && q == [a]
    else if n == 3 then p == Quiet && ((g == Called(Grab(2)) && q == [a]) || (g == Done(Grab(2), full) && q == []))
    else if n == 4 then
      || (p == Called(TryPush(b)) && ((g == Called(Grab(2)) && q == [a]) || (g == Done(Grab(2), full) && q == [])))
      || (p == Done(TryPush(b), Pushed) &&
          ((g == Called(Grab(2)) && q == [a, b]) || (g == Done(Grab(2), full) && q == [b]) || (g == Done(Grab(2), both) && q == [])))
    else if n == 5 then
      p == Quiet &&
          ((g == Called(Grab(2)) && q == [a, b]) || (g == Done(Grab(2), full) && q == [b]) || (g == Done(Grab(2), both) && q == []))
    else if n == 6 then
      || (p == Called(TryPush(c)) &&
          ((g == Called(Grab(2)) && q == [a, b]) || (g == Done(Grab(2), full) && q == [b]) || (g == Done(Grab(2), both) && q == [])))
      || (p == Done(TryPush(c), Pushed) && g.Done?)
      || (p == Done(TryPush(c), Full) && ((g == Called(Grab(2)) && q == [a, b]) || (g == Done(Grab(2), both) && q == [])))
    else if n == 7 then
      p == Quiet && ((g == Called(Grab(2)) && q == [a, b]) || (g == Done(Grab(2), both) && q == []))
    else false
  }

  lemma EffectStays(a: Item, b: Item, c: Item, n: nat, p: Phase<Op, Res>, g: Phase<Op, Res>, q: seq<Item>, e: Event<Op, Res>)
    requires Possible(a, b, c, n, p, g, q) && e.Effect?
    requires Greedy(2)(q, e.op, e.res).Some?
    requires !Advance(if e.t == 0 then p else if e.t == 1 then g else Quiet, e).Malformed?
    ensures var q' := Greedy(2)(q, e.op, e.res).value;
      e.t < 2 && if e.t == 0 then Possible(a, b, c, n, Advance(p, e), g, q') else Possible(a, b, c, n, p, Advance(g, e), q')
  {
    if e.t == 1 {
      assert e.op == Grab(2) && e.res.Grabbed? && g.Called?;
      assert |q| == 0 || q == [a] || q == [b] || q == [a, b];
      if |q| == 2 {
        assert e.res.items == [Some(q[0]), Some(q[1])];
      } else if |q| == 1 {
        assert e.res.items == [Some(q[0])];
      }
    }
  }

  lemma CallMoves(a: Item, b: Item, c: Item, n: nat, p: Phase<Op, Res>, g: Phase<Op, Res>, q: seq<Item>)
    requires n < 8 && Possible(a, b, c, n, p, g, q)
    requires var e := Calls(a, b, c)[n]; !Advance(if e.t == 0 then p else g, e).Malformed?
    ensures var e := Calls(a, b, c)[n];
      e.t < 2 && if e.t == 0 then Possible(a, b, c, n + 1, Advance(p, e), g, q) else Possible(a, b, c, n + 1, p, Advance(g, e), q)
  {
  }

  /** A prefix of a legal history is legal, and the last event is legal after it. */
  lemma FrontWitness(h: seq<Event<Op, Res>>)
    requires h != [] && Witness(Greedy(2), [], h)
    ensures var front, e := h[..|h| - 1], h[|h| - 1];
      && Witness(Greedy(2), [], front)
      && (forall t: nat :: PhaseOf(h, t) == if e.t == t then Advance(PhaseOf(front, t), e) else PhaseOf(front, t))
      && !Advance(PhaseOf(front, e.t), e).Malformed?
      && Replay(Greedy(2), [], front).Some? && Replay(Greedy(2), [], h).Some?
      && Observed(h) == Observed(front) + (if e.Effect? then [] else [e])
      && (if e.Effect? then Replay(Greedy(2), [], h) == Greedy(2)(Replay(Greedy(2), [], front).value, e.op, e.res)
          else Replay(Greedy(2), [], h) == Replay(Greedy(2), [], front))
  {
    hide Greedy;
    var front, e := h[..|h| - 1], h[|h| - 1];
    forall t: nat ensures !PhaseOf(front, t).Malformed? {
      assert !PhaseOf(h, t).Malformed?;
    }
    assert !PhaseOf(h, e.t).Malformed?;
  }

  /** Follows an arbitrary legal history with these calls and returns, event by event. */
  lemma {:induction false} Positions(a: Item, b: Item, c: Item, h: seq<Event<Op, Res>>, n: nat)
    requires n <= 8 && Observed(h) == Calls(a, b, c)[..n] && Witness(Greedy(2), [], h)
    ensures Possible(a, b, c, n, PhaseOf(h, 0), PhaseOf(h, 1), Replay(Greedy(2), [], h).value)
    ensures forall t: nat | t >= 2 :: PhaseOf(h, t) == Quiet
  {
    if h != [] {
      var front, e := h[..|h| - 1], h[|h| - 1];
      var calls := Calls(a, b, c);
      hide Possible, Greedy, Calls;
      FrontWitness(h);
      hide PhaseOf, Replay, Witness, Observed, Advance;
      var p, g, q := PhaseOf(front, 0), PhaseOf(front, 1), Replay(Greedy(2), [], front).value;
      if e.Effect? {
        Positions(a, b, c, front, n);
        EffectStays(a, b, c, n, p, g, q, e);
      } else {
        assert n > 0 && e == calls[n - 1] && Observed(front) == calls[..n - 1];
        Positions(a, b, c, front, n - 1);
        CallMoves(a, b, c, n - 1, p, g, q);
      }
    }
  }

  /** No order of the five operations explains this history. */
  lemma NotGreedy(a: Item, b: Item, c: Item)
    ensures !Linearizable(Greedy(2), [], Calls(a, b, c))
  {
    if h: seq<Event<Op, Res>> :| Observed(h) == Calls(a, b, c) && Witness(Greedy(2), [], h) {
      assert Calls(a, b, c)[..8] == Calls(a, b, c);
      Positions(a, b, c, h, 8);
      assert false;
    }
  }

  // ---------------------------------------------------------------- the run

  lemma RunAppend(capacity: nat, producer: nat, threads: nat, schedule: seq<Choice>, c: Choice)
    ensures InBounds(Run(capacity, producer, threads, schedule))
    ensures Run(capacity, producer, threads, schedule + [c]) == Step(Run(capacity, producer, threads, schedule), c)
  {
    Boundaries(Run(capacity, producer, threads, schedule));
    assert (schedule + [c])[..|schedule|] == schedule;
  }

  /** The six steps of a push that finds room. */
  lemma PushRun(schedule: seq<Choice>, x: Item) returns (schedule': seq<Choice>)
    requires var s := Run(2, 0, 2, schedule); s.threads[0].Idle? && s.tail < s.head + 2
    ensures var s, s' := Run(2, 0, 2, schedule), Run(2, 0, 2, schedule');
      && s'.head == s.head && s'.tail == s.tail + 1 && s'.pushed == s.pushed + [x]
      && s'.threads == s.threads
      && Observed(s'.hist) == Observed(s.hist) + [Call(0, TryPush(x)), Return(0, Pushed)]
  {
    hide Run, Inv, Slot;
    var s := Run(2, 0, 2, schedule);
    var c := Choice(0, TryPush(x));
    schedule' := schedule;
    RunAppend(2, 0, 2, schedule', c);
    schedule' := schedule' + [c];
    RunAppend(2, 0, 2, schedule', c);
    schedule' := schedule' + [c];
    assert s.hist + [Call(0, TryPush(x))] + [] == s.hist + [Call(0, TryPush(x))];
    RunAppend(2, 0, 2, schedule', c);
    schedule' := schedule' + [c];
    RunAppend(2, 0, 2, schedule', c);
    schedule' := schedule' + [c];
    RunAppend(2, 0, 2, schedule', c);
    schedule' := schedule' + [c];
    RunAppend(2, 0, 2, schedule', c);
    schedule' := schedule' + [c];
    var s' := Run(2, 0, 2, schedule');
    assert s'.threads == s.threads;
    assert s'.hist == s.hist + [Call(0, TryPush(x))] + [Effect(0, TryPush(x), Pushed)] + [Return(0, Pushed)];
    ObservedThree(s.hist, Call(0, TryPush(x)), Effect(0, TryPush(x), Pushed), Return(0, Pushed));
  }

  lemma ObservedThree(h: seq<Event<Op, Res>>, call: Event<Op, Res>, effect: Event<Op, Res>, ret: Event<Op, Res>)
    requires call.Call? && effect.Effect? && ret.Return?
    ensures Observed(h + [call]) == Observed(h) + [call]
    ensures Observed(h + [effect] + [ret]) == Observed(h) + [ret]
    ensures Observed(h + [call] + [effect] + [ret]) == Observed(h) + [call, ret]
  {
    assert (h + [call])[..|h|] == h;
    assert (h + [effect])[..|h|] == h;
    assert (h + [effect] + [ret])[..|h| + 1] == h + [effect];
    assert (h + [call] + [effect])[..|h| + 1] == h + [call];
    assert (h + [call] + [effect] + [ret])[..|h| + 2] == h + [call] + [effect];
  }

  /** The four steps of a push that finds the ring full. */
  lemma FullRun(schedule: seq<Choice>, x: Item) returns (schedule': seq<Choice>)
    requires var s := Run(2, 0, 2, schedule); s.threads[0].Idle? && s.tail == s.head + 2
    ensures var s, s' := Run(2, 0, 2, schedule), Run(2, 0, 2, schedule');
      && s'.head == s.head && s'.tail == s.tail && s'.pushed == s.pushed && s'.threads == s.threads
      && Observed(s'.hist) == Observed(s.hist) + [Call(0, TryPush(x)), Return(0, Full)]
  {
    hide Run, Inv, Slot;
    var s := Run(2, 0, 2, schedule);
    var c := Choice(0, TryPush(x));
    schedule' := schedule;
    RunAppend(2, 0, 2, schedule', c);
    schedule' := schedule' + [c];
    RunAppend(2, 0, 2, schedule', c);
    schedule' := schedule' + [c];
    RunAppend(2, 0, 2, schedule', c);
    schedule' := schedule' + [c];
    RunAppend(2, 0, 2, schedule', c);
    schedule' := schedule' + [c];
    var s' := Run(2, 0, 2, schedule');
    assert s'.threads == s.threads;
    assert s'.hist == s.hist + [Call(0, TryPush(x))] + [Effect(0, TryPush(x), Full)] + [Return(0, Full)];
    ObservedThree(s.hist, Call(0, TryPush(x)), Effect(0, TryPush(x), Full), Return(0, Full));
  }

  /** The first four steps of a `Grab` that sees one item. */
  lemma LookRun(schedule: seq<Choice>) returns (schedule': seq<Choice>)
    requires var s := Run(2, 0, 2, schedule); s.threads[1].Idle? && s.tail == s.head + 1
    ensures var s, s' := Run(2, 0, 2, schedule), Run(2, 0, 2, schedule');
      && s'.head == s.head && s'.tail == s.tail && s'.pushed == s.pushed
      && s'.threads == s.threads[1 := GrabSwing(2, s.head, s.tail, [Some(s.pushed[s.head])])]
      && Observed(s'.hist) == Observed(s.hist) + [Call(1, Grab(2))]
  {
    var s := Run(2, 0, 2, schedule);
    assert |s.buffer| == 3 && s.buffer[Slot(s.head, 3)] == Some(s.pushed[s.head]);
    hide Run, Inv, Slot, BufferOk, PhaseOf, Replay;
    var c := Choice(1, Grab(2));
    schedule' := schedule;
    RunAppend(2, 0, 2, schedule', c);
    schedule' := schedule' + [c];
    RunAppend(2, 0, 2, schedule', c);
    schedule' := schedule' + [c];
    assert Run(2, 0, 2, schedule').threads[1] == GrabLoadTail(2, s.head);
    RunAppend(2, 0, 2, schedule', c);
    schedule' := schedule' + [c];
    assert Run(2, 0, 2, schedule').threads[1] == GrabRead(2, s.head, s.tail, Slot(s.head, 3), []);
    RunAppend(2, 0, 2, schedule', c);
    schedule' := schedule' + [c];
    assert [] + [s.buffer[Slot(s.head, 3)]] == [Some(s.pushed[s.head])];
    assert (s.hist + [Call(1, Grab(2))])[..|s.hist|] == s.hist;
  }

  /** The successful compare-exchange of that `Grab` and its return. */
  lemma TakeRun(schedule: seq<Choice>, item: Option<Item>) returns (schedule': seq<Choice>)
    requires var s := Run(2, 0, 2, schedule); exists seen: nat :: s.threads[1] == GrabSwing(2, s.head, seen, [item])
    ensures var s, s' := Run(2, 0, 2, schedule), Run(2, 0, 2, schedule');
      Observed(s'.hist) == Observed(s.hist) + [Return(1, Grabbed([item]))]
  {
    hide Run, Inv, Slot;
    var s := Run(2, 0, 2, schedule);
    var c := Choice(1, Grab(2));
    schedule' := schedule;
    RunAppend(2, 0, 2, schedule', c);
    schedule' := schedule' + [c];
    RunAppend(2, 0, 2, schedule', c);
    schedule' := schedule' + [c];
    ObservedThree(s.hist, Call(1, Grab(2)), Effect(1, Grab(2), Grabbed([item])), Return(1, Grabbed([item])));
  }

  /** A run of the ring whose calls and returns no greedy queue could have produced. */
  lemma GrabIsNotGreedy(a: Item, b: Item, c: Item) returns (schedule: seq<Choice>)
    ensures Observed(Run(2, 0, 2, schedule).hist) == Calls(a, b, c)
    ensures !Linearizable(Greedy(2), [], Observed(Run(2, 0, 2, schedule).hist))
  {
    hide Inv, Linearizable, Greedy, Step, BufferOk, LocalsOk, HistoryOk;
    schedule := [];
    assert Run(2, 0, 2, []) == Init(2, 0, 2) && Observed(Init(2, 0, 2).hist) == [];
    hide Run, Observed;
    schedule := PushRun(schedule, a);
    schedule := LookRun(schedule);
    schedule := PushRun(schedule, b);
    schedule := FullRun(schedule, c);
    schedule := TakeRun(schedule, Some(a));
    assert Observed(Run(2, 0, 2, schedule).hist) == Calls(a, b, c);
    NotGreedy(a, b, c);
  }
}
