/**
 The ring object of lockfree/ring_queue.hpp over its slot array, one method per atomic operation.  The
 copy loop of `Grab` is one method call per slot, so that pushes and pops may happen between two reads.
 */
module RingQueueObject {
  import opened Basics
  import opened Histories
  import opened RingQueue
  import opened RingQueueTheorems

  /** The store touches no slot of an item in the ring, and there is room for one more. */
  lemma StoreFits(s: State, t: nat)
    requires Inv(s) && t < |s.threads| && s.threads[t].PushStore?
    ensures var s' := StepPushStore(s, t);
      s'.head <= s'.tail == |s'.pushed| && Contents(s') == Contents(s) && |Contents(s)| < s.capacity
  {
    hide HistoryOk;
    assert LocalOk(s, t, s.threads[t]);
  }

  /** The test for room is the one made at the load of the head: only the producer moves the tail. */
  lemma RoomFound(s: State, t: nat)
    requires Inv(s) && t < |s.threads| && s.threads[t].PushLoadTail?
    ensures var s', l := StepPushLoadTail(s, t), s.threads[t];
      && s'.head <= s'.tail == |s'.pushed| && Contents(s') == Contents(s)
      && (s'.threads[t].Exit? <==> PhaseAt(s, l) == Done(TryPush(l.item), Full))
      && (s'.threads[t].PushStore? ==> |Contents(s)| < s.capacity)
  {
    hide HistoryOk;
    assert LocalOk(s, t, s.threads[t]);
  }

  lemma FirstRead(s: State, t: nat)
    requires Inv(s) && t < |s.threads| && s.threads[t].PopRead?
    ensures var h := s.threads[t].head; var pos := Slot(h, s.capacity + 1);
      && pos < |s.buffer| == s.capacity + 1 && StepPopRead(s, t).threads[t] == PopSwing(h, s.buffer[pos])
      && (s.head == h ==> |Contents(s)| > 0 && s.buffer[pos] == Some(Contents(s)[0]))
  {
    hide HistoryOk;
    assert LocalOk(s, t, s.threads[t]);
  }

  lemma AmountFits(s: State, t: nat)
    requires Inv(s) && t < |s.threads| && s.threads[t].GrabLoadTail?
    ensures var l := s.threads[t]; var amount := Wanted(l.size, l.head, s.tail);
      amount <= l.size && s.head <= s.tail == |s.pushed| && (s.head == l.head ==> amount <= |Contents(s)|)
  {
    hide HistoryOk;
    assert LocalOk(s, t, s.threads[t]);
  }

  lemma NextRead(s: State, t: nat)
    requires Inv(s) && t < |s.threads| && s.threads[t].GrabRead?
    ensures var l := s.threads[t];
      && l.pos == Slot(l.head + |l.items|, s.capacity + 1) < |s.buffer| == s.capacity + 1
      && (s.head == l.head ==> Front(l.items + [s.buffer[l.pos]], Contents(s)))
  {
    hide HistoryOk;
    assert LocalOk(s, t, s.threads[t]);
  }

  lemma RunStep(capacity: nat, producer: nat, threads: nat, schedule: seq<Choice>, c: Choice)
    ensures Run(capacity, producer, threads, schedule + [c]) == Step(Run(capacity, producer, threads, schedule), c)
  {
    assert (schedule + [c])[..|schedule|] == schedule;
  }

  lemma PublishAppends(s: State, t: nat)
    requires Inv(s) && t < |s.threads| && s.threads[t].PushPublish?
    ensures var s' := StepPushPublish(s, t);
      s'.head <= s'.tail == |s'.pushed| && Contents(s') == Contents(s) + [s.threads[t].item] && |Contents(s')| <= s.capacity
  {
    hide HistoryOk;
    assert LocalOk(s, t, s.threads[t]);
  }

  lemma EmptySeen(s: State, t: nat)
    requires Inv(s) && t < |s.threads| && s.threads[t].PopLoadTail?
    ensures var s' := StepPopLoadTail(s, t);
      s'.head <= s'.tail == |s'.pushed| && Contents(s') == Contents(s) && (s'.threads[t].Exit? ==> Contents(s) == [])
  {
    hide HistoryOk;
    assert LocalOk(s, t, s.threads[t]);
  }

  /** What was read of the first slot is the first item if the head has not moved since. */
  lemma PopTakesFirst(s: State, t: nat)
    requires Inv(s) && t < |s.threads| && s.threads[t].PopSwing?
    ensures var s', l := StepPopSwing(s, t), s.threads[t];
      && s'.head <= s'.tail == |s'.pushed|
      && if s.head == l.head then |Contents(s)| > 0 && l.got == Some(Contents(s)[0]) && Contents(s') == Contents(s)[1..]
         else Contents(s') == Contents(s)
  {
    hide HistoryOk;
    assert LocalOk(s, t, s.threads[t]);
  }

  lemma GrabTakesFront(s: State, t: nat)
    requires Inv(s) && t < |s.threads| && s.threads[t].GrabSwing?
    ensures var s', l := StepGrabSwing(s, t), s.threads[t];
      && s'.head <= s'.tail == |s'.pushed|
      && if s.head == l.head then Front(l.items, Contents(s)) && Contents(s') == Contents(s)[|l.items|..]
         else Contents(s') == Contents(s)
  {
    hide HistoryOk;
    assert LocalOk(s, t, s.threads[t]);
  }

  class Ring {
    const capacity: nat
    const producer: nat
    const slots: array<Option<Item>>
    var head: nat
    var tail: nat
    var threads: seq<Local>
    ghost var pushed: seq<Item>
    ghost var hist: seq<Event<Op, Res>>

    ghost function View(): State
      reads this, slots
    {
      State(capacity, producer, slots[..], head, tail, threads, pushed, hist)
    }

    ghost predicate Valid()
      reads this, slots
    {
      Inv(View())
    }

    /** What the ring holds, oldest first: the items between the two counters. */
    ghost function Items(): seq<Item>
      requires Valid()
      reads this, slots
    {
      Contents(View())
    }

    constructor (capacity: nat, producer: nat, count: nat)
      ensures Valid() && View() == Init(capacity, producer, count) && fresh(slots) && Items() == []
    {
      this.capacity, this.producer := capacity, producer;
      slots := new Option<Item>[capacity + 1](i => None);
      head, tail := 0, 0;
      threads := seq(count, i => Idle);
      pushed, hist := [], [];
      new;
      assert slots[..] == Init(capacity, producer, count).buffer;
      InitKeeps(capacity, producer, count);
    }

    /** A client calls an operation; only the producer may push. */
    method Enter(t: nat, op: Op)
      requires Valid() && t < |threads| && threads[t].Idle? && (op.TryPush? ==> t == producer)
      modifies this
      ensures Valid() && View() == StepIdle(old(View()), t, op)
    {
      hide Inv;
      StepKeeps(View(), Choice(t, op));
      hist := hist + [Call(t, op)];
      threads := threads[t := match op
                              case TryPush(x) => PushLoadHead(x)
                              case TryPop => PopLoadHead
                              case Grab(n) => GrabLoadHead(n)];
    }

    /** `head_.load()` in `TryPush` (19) */
    method PushLoadsHead(t: nat)
      requires Valid() && t < |threads| && threads[t].PushLoadHead?
      modifies this
      ensures Valid() && View() == StepPushLoadHead(old(View()), t)
    {
      hide Inv;
      StepKeeps(View(), Choice(t, TryPop));
      var x := threads[t].item;
      hist := hist + if tail == head + capacity then [Effect(t, TryPush(x), Full)] else [];
      threads := threads[t := PushLoadTail(x, head)];
    }

    /** `tail_.load()` and the capacity test (20-24) */
    method PushLoadsTail(t: nat)
      requires Valid() && t < |threads| && threads[t].PushLoadTail?
      modifies this
      ensures Valid() && View() == StepPushLoadTail(old(View()), t)
      ensures Items() == old(Items()) && (threads[t].Exit? || threads[t].PushStore?)
      ensures threads[t].Exit? <==> PhaseAt(old(View()), old(threads)[t]) == Done(TryPush(old(threads)[t].item), Full)
      ensures threads[t].PushStore? ==> |Items()| < capacity
    {
      hide Inv;
      RoomFound(View(), t);
      StepKeeps(View(), Choice(t, TryPop));
      var l := threads[t];
      if tail == l.head + capacity {
        threads := threads[t := Exit(TryPush(l.item), Full)];
      } else {
        threads := threads[t := PushStore(l.item, tail)];
      }
    }

    /** The store into the slot (26-27) */
    method PushStores(t: nat)
      requires Valid() && t < |threads| && threads[t].PushStore?
      modifies this, slots
      ensures Valid() && View() == StepPushStore(old(View()), t)
      ensures Items() == old(Items()) && |Items()| < capacity
    {
      assert slots.Length == capacity + 1;
      hide Inv;
      StoreFits(View(), t);
      StepKeeps(View(), Choice(t, TryPop));
      var l := threads[t];
      slots[l.tail % (capacity + 1)] := Some(l.item);
      threads := threads[t := PushPublish(l.item, l.tail)];
    }

    /** `tail_.fetch_add(1)` (28) */
    method PushPublishes(t: nat)
      requires Valid() && t < |threads| && threads[t].PushPublish?
      modifies this
      ensures Valid() && View() == StepPushPublish(old(View()), t)
      ensures Items() == old(Items()) + [old(threads)[t].item] && |Items()| <= capacity
    {
      hide Inv;
      PublishAppends(View(), t);
      StepKeeps(View(), Choice(t, TryPop));
      var x := threads[t].item;
      tail := tail + 1;
      pushed, hist := pushed + [x], hist + [Effect(t, TryPush(x), Pushed)];
      threads := threads[t := Exit(TryPush(x), Pushed)];
    }

    /** `head_.load()` in `TryPop` (37) and in `Grab` (55) */
    method ConsumerLoadsHead(t: nat)
      requires Valid() && t < |threads| && (threads[t].PopLoadHead? || threads[t].GrabLoadHead?)
      modifies this
      ensures Valid()
      ensures View() == Go(old(View()), t, if old(threads)[t].PopLoadHead? then PopLoadTail(old(head))
                                           else GrabLoadTail(old(threads)[t].size, old(head)))
    {
      hide Inv;
      StepKeeps(View(), Choice(t, TryPop));
      threads := threads[t := if threads[t].PopLoadHead? then PopLoadTail(head) else GrabLoadTail(threads[t].size, head)];
    }

    /** `tail_.load()` in `TryPop` and the emptiness test (39-43) */
    method PopLoadsTail(t: nat)
      requires Valid() && t < |threads| && threads[t].PopLoadTail?
      modifies this
      ensures Valid() && View() == StepPopLoadTail(old(View()), t)
      ensures Items() == old(Items()) && (threads[t].Exit? ==> Items() == [])
      ensures threads[t] == if old(threads)[t].head == tail then Exit(TryPop, Popped(None)) else PopRead(old(threads)[t].head)
    {
      hide Inv;
      EmptySeen(View(), t);
      StepKeeps(View(), Choice(t, TryPop));
      var h := threads[t].head;
      if h == tail {
        hist := hist + [Effect(t, TryPop, Popped(None))];
        threads := threads[t := Exit(TryPop, Popped(None))];
      } else {
        threads := threads[t := PopRead(h)];
      }
    }

    /** The slot is read before the compare-exchange (45-46) */
    method PopReads(t: nat)
      requires Valid() && t < |threads| && threads[t].PopRead?
      modifies this
      ensures Valid() && View() == StepPopRead(old(View()), t)
      ensures var h := old(threads)[t].head; var pos := Slot(h, capacity + 1);
        && pos < slots.Length && threads[t] == PopSwing(h, slots[pos]) && Items() == old(Items())
        && (head == h ==> |Items()| > 0 && slots[pos] == Some(Items()[0]))
    {
      assert slots.Length == capacity + 1;
      hide Inv;
      FirstRead(View(), t);
      StepKeeps(View(), Choice(t, TryPop));
      var h := threads[t].head;
      threads := threads[t := PopSwing(h, slots[h % (capacity + 1)])];
    }

    /** `TryPop`'s compare-exchange on the head (47-49) */
    method PopSwings(t: nat)
      requires Valid() && t < |threads| && threads[t].PopSwing?
      modifies this
      ensures Valid() && View() == StepPopSwing(old(View()), t)
      ensures if old(head) == old(threads)[t].head
              then |old(Items())| > 0 && threads[t] == Exit(TryPop, Popped(Some(old(Items())[0]))) && Items() == old(Items())[1..]
              else threads[t] == PopLoadTail(head) && Items() == old(Items())
    {
      hide Inv;
      PopTakesFirst(View(), t);
      StepKeeps(View(), Choice(t, TryPop));
      var l := threads[t];
      if head == l.head {
        head := head + 1;
        hist := hist + [Effect(t, TryPop, Popped(l.got))];
        threads := threads[t := Exit(TryPop, Popped(l.got))];
      } else {
        threads := threads[t := PopLoadTail(head)];
      }
    }

    /** The start of a round of `Grab`: clear, load the tail, compute how much to take (64-67) */
    method GrabLoadsTail(t: nat)
      requires Valid() && t < |threads| && threads[t].GrabLoadTail?
      modifies this
      ensures Valid() && View() == StepGrabLoadTail(old(View()), t)
      ensures var l := old(threads)[t]; var amount := Wanted(l.size, l.head, tail);
        && amount <= l.size && (head == l.head ==> amount <= |Items()|) && Items() == old(Items())
        && threads[t] == if amount > 0 then GrabRead(l.size, l.head, tail, Slot(l.head, capacity + 1), []) else GrabSwing(l.size, l.head, tail, [])
    {
      hide Inv;
      AmountFits(View(), t);
      StepKeeps(View(), Choice(t, TryPop));
      var l := threads[t];
      if Wanted(l.size, l.head, tail) > 0 {
        threads := threads[t := GrabRead(l.size, l.head, tail, l.head % (capacity + 1), [])];
      } else {
        threads := threads[t := GrabSwing(l.size, l.head, tail, [])];
      }
    }

    /** One iteration of the copy loop (69-74) */
    method GrabReads(t: nat)
      requires Valid() && t < |threads| && threads[t].GrabRead?
      modifies this
      ensures t < |old(View()).threads| && InBounds(old(View()))
      ensures Valid() && View() == StepGrabRead(old(View()), t)
      ensures var l := old(threads)[t];
        && l.pos == Slot(l.head + |l.items|, capacity + 1) < slots.Length && Items() == old(Items())
        && (threads[t].GrabRead? || threads[t].GrabSwing?) && threads[t].items == l.items + [slots[l.pos]]
        && (head == l.head ==> Front(threads[t].items, Items()))
    {
      assert slots.Length == capacity + 1;
      hide Inv;
      NextRead(View(), t);
      StepKeeps(View(), Choice(t, TryPop));
      assert View().threads[t].pos < |View().buffer|;
      var l := threads[t];
      var items := l.items + [slots[l.pos]];
      var pos := if l.pos + 1 == capacity + 1 then 0 else l.pos + 1;
      if |items| < Wanted(l.size, l.head, l.seen) {
        threads := threads[t := GrabRead(l.size, l.head, l.seen, pos, items)];
      } else {
        threads := threads[t := GrabSwing(l.size, l.head, l.seen, items)];
      }
    }

    /** `Grab`'s compare-exchange on the head (75-77) */
    method GrabSwings(t: nat)
      requires Valid() && t < |threads| && threads[t].GrabSwing?
      modifies this
      ensures Valid() && View() == StepGrabSwing(old(View()), t)
      ensures var l := old(threads)[t];
        if old(head) == l.head
        then Front(l.items, old(Items())) && threads[t] == Exit(Grab(l.size), Grabbed(l.items)) && Items() == old(Items())[|l.items|..]
        else threads[t] == GrabLoadTail(l.size, head) && Items() == old(Items())
    {
      hide Inv;
      GrabTakesFront(View(), t);
      StepKeeps(View(), Choice(t, TryPop));
      var l := threads[t];
      if head == l.head {
        head := head + |l.items|;
        hist := hist + [Effect(t, Grab(l.size), Grabbed(l.items))];
        threads := threads[t := Exit(Grab(l.size), Grabbed(l.items))];
      } else {
        threads := threads[t := GrabLoadTail(l.size, head)];
      }
    }

    /** The operation returns to its caller. */
    method Exits(t: nat)
      requires Valid() && t < |threads| && threads[t].Exit?
      modifies this
      ensures Valid() && View() == StepExit(old(View()), t)
    {
      hide Inv;
      StepKeeps(View(), Choice(t, TryPop));
      hist := hist + [Return(t, threads[t].res)];
      threads := threads[t := Idle];
    }

    /** Whatever the scheduler picks. */
    method Act(c: Choice)
      requires Valid()
      modifies this, slots
      ensures InBounds(old(View())) && Valid() && View() == Step(old(View()), c)
    {
      hide Inv;
      StepKeeps(View(), c);
      var t := c.t;
      if t >= |threads| || (threads[t].Idle? && c.op.TryPush? && t != producer) {
        return;
      }
      match threads[t]
      case Idle => Enter(t, c.op);
      case PushLoadHead(_) => PushLoadsHead(t);
      case PushLoadTail(_, _) => PushLoadsTail(t);
      case PushStore(_, _) => PushStores(t);
      case PushPublish(_, _) => PushPublishes(t);
      case PopLoadHead => ConsumerLoadsHead(t);
      case PopLoadTail(_) => PopLoadsTail(t);
      case PopRead(_) => PopReads(t);
      case PopSwing(_, _) => PopSwings(t);
      case GrabLoadHead(_) => ConsumerLoadsHead(t);
      case GrabLoadTail(_, _) => GrabLoadsTail(t);
      case GrabRead(_, _, _, _, _) => GrabReads(t);
      case GrabSwing(_, _, _, _) => GrabSwings(t);
      case Exit(_, _) => Exits(t);
    }

    /** Any schedule of the producer and the consumers after `before`, one atomic operation at a time. */
    method Drive(ghost before: seq<Choice>, schedule: seq<Choice>)
      requires Valid() && View() == Run(capacity, producer, |threads|, before)
      modifies this, slots
      ensures Valid() && |threads| == |old(threads)| && View() == Run(capacity, producer, |threads|, before + schedule)
    {
      hide Inv, Step;
      ghost var n := |threads|;
      assert before + schedule[..0] == before;
      for k := 0 to |schedule|
        invariant Valid() && |threads| == n && View() == Run(capacity, producer, n, before + schedule[..k])
      {
        assert before + schedule[..k + 1] == (before + schedule[..k]) + [schedule[k]];
        RunStep(capacity, producer, n, before + schedule[..k], schedule[k]);
        Act(schedule[k]);
        assert View().threads == threads;
      }
      assert schedule[..|schedule|] == schedule;
    }
  }
}
