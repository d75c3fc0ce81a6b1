/**
 The queue object of lockfree/queue.hpp over its nodes on the heap: the two counted words, the node at each
 allocated address, and the threads inside.  One method per atomic operation; each dereference is checked by
 the verifier.  An address that was freed may be given to a new node.
 */
module MsQueueObject {
  import opened Basics
  import opened Histories
  import opened CountedPointers
  import opened MsQueue
  import opened MsQueueInvariant
  import opened MsQueueSteps
  import opened MsQueueTheorems
  import opened MsQueueReclamation

  /** What a thread's next operation dereferences is allocated. */
  lemma SafeToTouch(s: State, t: nat)
    requires Good(s) && Modest(s) && t < |s.threads|
    ensures var l := s.threads[t];
      && (l.PushLink? ==> l.seen.ptr in s.heap && l.node in s.heap)
      && (l.PushLoadNext? ==> l.seen.ptr in s.heap)
      && (l.PopLoadNext? ==> l.head.ptr in s.heap)
      && (l.PopSwing? && s.head == l.head ==> s.items != [] && s.chain != [])
      && (l.PopSwing? && s.head == l.head ==> l.next.ptr in s.heap && s.heap[l.next.ptr].value == Some(s.items[0]))
      && (l.PopTake? ==> l.next.ptr in s.heap && s.heap[l.next.ptr].value == Some(l.expected))
      && (l.Detach? ==> l.counter.ptr in s.heap)
      && (l.Release? ==> l.node in s.heap)
      && (l.Delete? ==> l.node in s.heap)
  {
    assert LocalOk(s, s.threads[t]);
    if s.threads[t].Delete? {
      DoomedIsFree(s, t);
    } else if s.threads[t].PopSwing? && s.head == s.threads[t].head {
      HeadAdvances(s, t);
      assert s.heap[s.chain[1]].value == Some(s.items[0]);
    }
  }

  lemma ListNotEmpty(s: State)
    requires Good(s)
    ensures |s.chain| > 0
  {
  }

  /** The `i`-th node of the list. */
  lemma ListNode(s: State, i: nat)
    requires Good(s) && i < |s.chain|
    ensures |s.items| == |s.chain| - 1 && s.head.ptr == s.chain[0]
    ensures s.chain[i] in s.heap && s.chain[i] != 0 && s.chain[i] !in s.chain[..i]
    ensures s.heap[s.chain[i]].next.ptr == if i + 1 < |s.chain| then s.chain[i + 1] else 0
    ensures i > 0 ==> s.heap[s.chain[i]].value == Some(s.items[i - 1])
  {
    if i > 0 {
      assert s.heap[s.chain[i - 1 + 1]].value == Some(s.items[i - 1]);
    }
  }

  /** The counted words point to allocated nodes, and a free address is in no list. */
  lemma WordsAllocated(s: State, a: Addr)
    requires Good(s)
    ensures s.head.ptr in s.heap && s.tail.ptr in s.heap && (a !in s.heap ==> a !in s.chain)
  {
    if a in s.chain {
      var i :| 0 <= i < |s.chain| && s.chain[i] == a;
      ListNode(s, i);
    }
  }

  /** A `TryPop` that sees a head without successor, as its own tail, sees an empty queue. */
  lemma EmptyHere(s: State, t: nat)
    requires Good(s) && t < |s.threads| && s.threads[t].PopLoadNext?
    ensures var l := s.threads[t]; l.head.ptr == l.tail.ptr && s.heap[l.head.ptr].next.ptr == 0 ==> s.items == []
  {
    assert LocalOk(s, s.threads[t]);
  }

  /** Only the last node of the list has a null link, and only it is ever linked to. */
  lemma LinkedLast(s: State, t: nat)
    requires Good(s) && t < |s.threads| && s.threads[t].PushLink?
    ensures var l := s.threads[t];
      s.heap[l.seen.ptr].next == NULL ==> |s.chain| > 0 && l.seen.ptr == s.chain[|s.chain| - 1] && l.node !in s.chain
  {
    assert LocalOk(s, s.threads[t]);
    if s.heap[s.threads[t].seen.ptr].next == NULL {
      LinkExtends(s, t);
    }
  }

  /** A node about to be deleted is in no thread's hands and in no word of the queue. */
  lemma NobodyElse(s: State, t: nat)
    requires Good(s) && Modest(s) && t < |s.threads| && s.threads[t].Delete?
    ensures var a := s.threads[t].node;
      && a in s.heap && a !in s.chain && a != s.tail.ptr && a != s.head.ptr
      && forall u | 0 <= u < |s.threads| && u != t :: Ignores(s.threads[u], a) && Dereferences(s.threads[u]) != a
  {
    var a := s.threads[t].node;
    assert LocalOk(s, s.threads[t]);
    DoomedIsFree(s, t);
    forall u | 0 <= u < |s.threads| && u != t ensures Ignores(s.threads[u], a) && Dereferences(s.threads[u]) != a {
      assert LocalOk(s, s.threads[u]);
      TotalCovers(s.threads, u, u, Refs, a);
      TotalCovers(s.threads, u, u, Units, a);
      TotalCovers(s.threads, t, u, Dooms, a);
    }
  }

  /** `Node` (queue.hpp:79-93); `linked` and `wraps` are bookkeeping. */
  class Cell {
    var value: Option<Item>
    var internal: int
    var next: CountedPtr
    ghost var linked: bool
    ghost var wraps: nat

    constructor (value: Option<Item>, linked: bool)
      ensures Contents() == Node(value, 2 * ONE_COUNTER, NULL, linked, 0)
    {
      this.value, internal, next, this.linked, wraps := value, 2 * ONE_COUNTER, NULL, linked, 0;
    }

    ghost function Contents(): Node
      reads this
    {
      Node(value, internal, next, linked, wraps)
    }
  }

  /** Different addresses are different nodes. */
  predicate Distinct(cells: map<Addr, Cell>) {
    forall a, b | a in cells && b in cells && a != b :: cells[a] != cells[b]
  }

  ghost function Heap(cells: map<Addr, Cell>): map<Addr, Node>
    reads cells.Values
  {
    map a | a in cells :: cells[a].Contents()
  }

  lemma HeapKeys(cells: map<Addr, Cell>)
    ensures Heap(cells).Keys == cells.Keys
  {
  }

  lemma HeapAt(cells: map<Addr, Cell>, a: Addr)
    requires a in cells || a in Heap(cells)
    ensures a in cells && a in Heap(cells) && Heap(cells)[a] == cells[a].Contents()
  {
  }

  class Queue {
    var head: CountedPtr
    var tail: CountedPtr
    var cells: map<Addr, Cell>
    var threads: seq<Local>
    ghost var chain: seq<Addr>
    ghost var items: seq<Item>
    ghost var hist: seq<Event<Op, Res>>
    ghost var clock: nat

    ghost function View(): State
      reads this, cells.Values
    {
      State(head, tail, Heap(cells), threads, chain, items, hist, clock, false)
    }

    ghost predicate Valid()
      reads this, cells.Values
    {
      Good(View()) && Distinct(cells)
    }

    /** Thread `t` may take a step; no node carries 2^60 acquisitions. */
    ghost predicate Ready(t: nat)
      reads this, cells.Values
    {
      Valid() && t < |threads| && Modest(View())
    }

    /** queue.hpp:118-122 */
    constructor (count: nat, dummy: Addr)
      requires count < COUNT_SPAN && 0 < dummy < POINTER_SPAN
      ensures Valid() && View() == Init(count, dummy) && fresh(cells.Values)
      ensures head == tail == CountedPtr(dummy, 1) && cells.Keys == {dummy} && items == []
    {
      head := CountedPtr(dummy, 1);
      tail := CountedPtr(dummy, 1);
      threads := seq(count, i => Idle);
      chain, items, hist, clock := [dummy], [], [], 0;
      cells := map[];
      new;
      var cell := new Cell(None, true);
      cells := map[dummy := cell];
      assert Heap(cells) == Init(count, dummy).heap;
      InitGood(count, dummy);
    }

    /** An idle thread calls `TryPop`. */
    method EnterTryPop(t: nat)
      requires Ready(t) && threads[t].Idle?
      modifies this
      ensures Valid() && View() == StepIdle(old(View()), t, Choice(t, TryPop, 0)) && cells == old(cells)
    {
      hide Good, Modest;
      ModestStepKeeps(View(), Choice(t, TryPop, 0));
      hist := hist + [Call(t, TryPop)];
      Move(t, PopLoadHead);
    }

    /** An idle thread calls `Push` and allocates a free address (145-148). */
    method EnterPush(t: nat, v: Item, addr: Addr)
      requires Ready(t) && threads[t].Idle? && 0 < addr < POINTER_SPAN && addr !in cells
      modifies this
      ensures Valid() && View() == StepIdle(old(View()), t, Choice(t, Push(v), addr))
      ensures addr in cells && fresh(cells[addr]) && cells[addr].value == Some(v) && addr !in chain && items == old(items)
      ensures forall a | a in cells && a != addr :: a in old(cells) && cells[a] == old(cells)[a]
    {
      hide Good, Modest;
      ModestStepKeeps(View(), Choice(t, Push(v), addr));
      WordsAllocated(View(), addr);
      Allocate(addr, v);
      hist := hist + [Call(t, Push(v))];
      Move(t, PushLoadTail(v, addr));
    }

    /** The thread-local end of every step. */
    method Move(t: nat, l: Local)
      requires t < |threads|
      modifies this`threads, this`clock
      ensures threads == old(threads)[t := l] && clock == old(clock) + 1
    {
      threads := threads[t := l];
      clock := clock + 1;
    }


    // -------------------------------------------------------------- writes to nodes

    method Allocate(addr: Addr, v: Item)
      requires Distinct(cells) && addr !in cells
      modifies this`cells
      ensures cells.Keys == old(cells).Keys + {addr} && fresh(cells[addr]) && Distinct(cells)
      ensures forall a | a in old(cells) :: cells[a] == old(cells)[a]
      ensures cells[addr].value == Some(v)
      ensures Heap(cells) == old(Heap(cells))[addr := Node(Some(v), 2 * ONE_COUNTER, NULL, false, 0)]
    {
      var cell := new Cell(Some(v), false);
      cells := cells[addr := cell];
    }

    method SetNext(p: Addr, cell: Cell, next: CountedPtr)
      requires Distinct(cells) && p in cells && cells[p] == cell
      modifies cell`next
      ensures cell.next == next && Heap(cells) == old(Heap(cells))[p := old(Heap(cells))[p].(next := next)]
    {
      cell.next := next;
    }

    method SetInternal(p: Addr, cell: Cell, internal: int)
      requires Distinct(cells) && p in cells && cells[p] == cell
      modifies cell`internal
      ensures cell.internal == internal && Heap(cells) == old(Heap(cells))[p := old(Heap(cells))[p].(internal := internal)]
    {
      cell.internal := internal;
    }

    method Empty(p: Addr, cell: Cell)
      requires Distinct(cells) && p in cells && cells[p] == cell
      modifies cell`value
      ensures cell.value == None && Heap(cells) == old(Heap(cells))[p := old(Heap(cells))[p].(value := None)]
    {
      cell.value := None;
    }

    ghost method Publish(p: Addr, cell: Cell)
      requires Distinct(cells) && p in cells && cells[p] == cell
      modifies cell`linked
      ensures Heap(cells) == old(Heap(cells))[p := old(Heap(cells))[p].(linked := true)]
    {
      cell.linked := true;
    }

    /** The node at `n` is linked behind the one at `p`. */
    method LinkIn(p: Addr, n: Addr)
      requires Distinct(cells) && p in cells && n in cells
      modifies cells[p], cells[n]
      ensures cells[p].next == CountedPtr(n, 1)
      ensures var linked := old(Heap(cells))[p := old(Heap(cells))[p].(next := CountedPtr(n, 1))];
        Heap(cells) == linked[n := linked[n].(linked := true)]
    {
      SetNext(p, cells[p], CountedPtr(n, 1));
      Publish(n, cells[n]);
    }

    /** The bookkeeping of an acquisition on word `c`. */
    ghost method Count(c: CountedPtr)
      requires Distinct(cells)
      modifies cells.Values
      ensures Heap(cells) == Counted(old(Heap(cells)), c)
    {
      if c.ptr in cells && c.count + 1 == COUNT_SPAN {
        cells[c.ptr].wraps := cells[c.ptr].wraps + 1;
      }
    }

    // -------------------------------------------------------------- atomic operations

    /** `tail_.load()` in `Push` (150) */
    method PushLoadsTail(t: nat)
      requires Ready(t) && threads[t].PushLoadTail?
      modifies this
      ensures Valid() && View() == StepPushLoadTail(old(View()), t) && cells == old(cells)
    {
      hide Good, Modest;
      ModestStepKeeps(View(), Choice(t, TryPop, 0));
      assert Step(View(), Choice(t, TryPop, 0)) == StepPushLoadTail(View(), t);
      hide Step, Heap, Distinct;
      Move(t, PushAcquire(threads[t].v, threads[t].node, tail));
    }

    /** `IncreaseExternalCount(tail_, old_tail)`: one round of its loop (216-221) */
    method PushAcquires(t: nat)
      requires Ready(t) && threads[t].PushAcquire?
      modifies this, cells.Values
      ensures Valid() && View() == StepPushAcquire(old(View()), t)
      ensures cells == old(cells) && items == old(items) && tail.ptr in cells
      ensures if old(tail) == old(threads)[t].seen then tail == old(tail).Increased() else tail == old(tail)
    {
      hide Good, Modest, Heap, Distinct;
      HeapKeys(cells);
      ModestStepKeeps(View(), Choice(t, TryPop, 0));
      assert Step(View(), Choice(t, TryPop, 0)) == StepPushAcquire(View(), t);
      WordsAllocated(View(), 0);
      hide Step, Heap, Distinct;
      var l := threads[t];
      if tail == l.seen {
        Count(tail);
        tail := tail.Increased();
        Move(t, PushLink(l.v, l.node, l.seen.Increased()));
      } else {
        Move(t, PushAcquire(l.v, l.node, tail));
      }
    }

    /** The compare-exchange on `old_tail->next` (157) */
    method PushLinks(t: nat)
      requires Ready(t) && threads[t].PushLink?
      modifies this, cells.Values
      ensures Valid() && View() == StepPushLink(old(View()), t)
      ensures var l := old(threads)[t];
        && cells == old(cells) && l.seen.ptr in cells
        && (if old(cells[l.seen.ptr].next) == NULL then
              && old(chain) != [] && l.seen.ptr == old(chain)[|old(chain)| - 1] && l.node !in old(chain)
              && cells[l.seen.ptr].next == CountedPtr(l.node, 1)
              && chain == old(chain) + [l.node] && items == old(items) + [l.v]
            else chain == old(chain) && items == old(items))
    {
      hide Good, Modest, Heap, Distinct;
      HeapKeys(cells);
      ModestStepKeeps(View(), Choice(t, TryPop, 0));
      assert Step(View(), Choice(t, TryPop, 0)) == StepPushLink(View(), t);
      SafeToTouch(View(), t);
      LinkedLast(View(), t);
      HeapAt(cells, threads[t].seen.ptr);
      HeapAt(cells, threads[t].node);
      hide Step, Heap, Distinct;
      var l := threads[t];
      if cells[l.seen.ptr].next == NULL {
        LinkIn(l.seen.ptr, l.node);
        chain, items := chain + [l.node], items + [l.v];
        hist := hist + [Effect(t, Push(l.v), Pushed)];
        Move(t, PushSwing(l.v, l.node, l.seen));
      } else {
        Move(t, PushLoadNext(l.v, l.node, l.seen));
      }
    }

    /** The compare-exchange on `tail_` after linking (158) */
    method PushSwings(t: nat)
      requires Ready(t) && threads[t].PushSwing?
      modifies this
      ensures Valid() && View() == StepPushSwing(old(View()), t) && cells == old(cells)
      ensures items == old(items) && tail == if old(tail) == old(threads)[t].seen then CountedPtr(old(threads)[t].node, 1) else old(tail)
    {
      hide Good, Modest;
      ModestStepKeeps(View(), Choice(t, TryPop, 0));
      assert Step(View(), Choice(t, TryPop, 0)) == StepPushSwing(View(), t);
      hide Step, Heap, Distinct;
      var l := threads[t];
      var k := Finish(Push(l.v), Pushed);
      if tail == l.seen {
        tail := CountedPtr(l.node, 1);
        Move(t, Detach(l.seen, 0, k));
      } else {
        Move(t, Release(l.seen.ptr, k));
      }
    }

    /** `old_tail->next.load()` (168) */
    method PushLoadsNext(t: nat)
      requires Ready(t) && threads[t].PushLoadNext?
      modifies this
      ensures Valid() && View() == StepPushLoadNext(old(View()), t) && cells == old(cells)
    {
      hide Good, Modest;
      ModestStepKeeps(View(), Choice(t, TryPop, 0));
      assert Step(View(), Choice(t, TryPop, 0)) == StepPushLoadNext(View(), t);
      SafeToTouch(View(), t);
      hide Step, Heap, Distinct;
      var l := threads[t];
      Move(t, PushHelp(l.v, l.node, l.seen, cells[l.seen.ptr].next));
    }

    /** Helping another `Push` (169) */
    method PushHelps(t: nat)
      requires Ready(t) && threads[t].PushHelp?
      modifies this
      ensures Valid() && View() == StepPushHelp(old(View()), t) && cells == old(cells)
    {
      hide Good, Modest;
      ModestStepKeeps(View(), Choice(t, TryPop, 0));
      assert Step(View(), Choice(t, TryPop, 0)) == StepPushHelp(View(), t);
      hide Step, Heap, Distinct;
      var l := threads[t];
      var k := PushAgain(l.v, l.node, l.seen);
      if l.next.ptr != 0 && tail == l.seen {
        tail := l.next;
        Move(t, Detach(l.seen, 0, k));
      } else {
        Move(t, Release(l.seen.ptr, k));
      }
    }

    /** `head_.load()` (181) */
    method PopLoadsHead(t: nat)
      requires Ready(t) && threads[t].PopLoadHead?
      modifies this
      ensures Valid() && View() == StepPopLoadHead(old(View()), t) && cells == old(cells)
    {
      hide Good, Modest;
      ModestStepKeeps(View(), Choice(t, TryPop, 0));
      assert Step(View(), Choice(t, TryPop, 0)) == StepPopLoadHead(View(), t);
      hide Step, Heap, Distinct;
      Move(t, PopAcquire(head));
    }

    /** `IncreaseExternalCount(head_, head)`: one round of its loop (216-221) */
    method PopAcquires(t: nat)
      requires Ready(t) && threads[t].PopAcquire?
      modifies this, cells.Values
      ensures Valid() && View() == StepPopAcquire(old(View()), t)
      ensures cells == old(cells) && items == old(items) && head.ptr in cells
      ensures if old(head) == old(threads)[t].seen then head == old(head).Increased() else head == old(head)
    {
      hide Good, Modest, Heap, Distinct;
      HeapKeys(cells);
      ModestStepKeeps(View(), Choice(t, TryPop, 0));
      assert Step(View(), Choice(t, TryPop, 0)) == StepPopAcquire(View(), t);
      WordsAllocated(View(), 0);
      hide Step, Heap, Distinct;
      var l := threads[t];
      if head == l.seen {
        Count(head);
        head := head.Increased();
        Move(t, PopLoadTail(l.seen.Increased()));
      } else {
        Move(t, PopAcquire(head));
      }
    }

    /** `tail_.load()` in `TryPop` (184) */
    method PopLoadsTail(t: nat)
      requires Ready(t) && threads[t].PopLoadTail?
      modifies this
      ensures Valid() && View() == StepPopLoadTail(old(View()), t) && cells == old(cells)
    {
      hide Good, Modest;
      ModestStepKeeps(View(), Choice(t, TryPop, 0));
      assert Step(View(), Choice(t, TryPop, 0)) == StepPopLoadTail(View(), t);
      hide Step, Heap, Distinct;
      Move(t, PopLoadNext(threads[t].head, tail));
    }

    /** `head->next.load()` and the branch on it (185-191) */
    method PopLoadsNext(t: nat)
      requires Ready(t) && threads[t].PopLoadNext?
      modifies this
      ensures Valid() && View() == StepPopLoadNext(old(View()), t) && cells == old(cells)
      ensures threads[t] == Release(old(threads)[t].head.ptr, Finish(TryPop, Popped(None))) ==> items == []
      ensures threads[t].PopSwing? || threads[t].PopHelp? ==> 
        old(threads)[t].head.ptr in cells && threads[t].next == cells[old(threads)[t].head.ptr].next
    {
      hide Good, Modest;
      ModestStepKeeps(View(), Choice(t, TryPop, 0));
      assert Step(View(), Choice(t, TryPop, 0)) == StepPopLoadNext(View(), t);
      SafeToTouch(View(), t);
      EmptyHere(View(), t);
      hide Step, Heap, Distinct;
      var l := threads[t];
      var next := cells[l.head.ptr].next;
      if l.head.ptr != l.tail.ptr {
        Move(t, PopSwing(l.head, next));
      } else if next.ptr != 0 {
        Move(t, PopHelp(l.head, l.tail, next));
      } else {
        hist := hist + [Effect(t, TryPop, Popped(None))];
        Move(t, Release(l.head.ptr, Finish(TryPop, Popped(None))));
      }
    }

    /** Helping a `Push` (193) */
    method PopHelps(t: nat)
      requires Ready(t) && threads[t].PopHelp?
      modifies this
      ensures Valid() && View() == StepPopHelp(old(View()), t) && cells == old(cells)
    {
      hide Good, Modest;
      ModestStepKeeps(View(), Choice(t, TryPop, 0));
      assert Step(View(), Choice(t, TryPop, 0)) == StepPopHelp(View(), t);
      hide Step, Heap, Distinct;
      var l := threads[t];
      if tail == l.tail {
        tail := l.next;
        Move(t, Detach(l.tail, 1, ReleaseHead(l.head)));
      } else {
        Move(t, Release(l.head.ptr, PopAgain(l.head)));
      }
    }

    /** The compare-exchange on `head_` (198-201) */
    method PopSwings(t: nat)
      requires Ready(t) && threads[t].PopSwing?
      modifies this
      ensures Valid() && View() == StepPopSwing(old(View()), t) && cells == old(cells)
      ensures threads[t].PopTake? <==> old(head) == old(threads)[t].head
      ensures threads[t].PopTake? ==>
        old(items) == [threads[t].expected] + items && threads[t].next.ptr in cells && cells[threads[t].next.ptr].value == Some(threads[t].expected)
      ensures !threads[t].PopTake? ==> items == old(items) && chain == old(chain) && head == old(head)
    {
      hide Good, Modest;
      ModestStepKeeps(View(), Choice(t, TryPop, 0));
      assert Step(View(), Choice(t, TryPop, 0)) == StepPopSwing(View(), t);
      SafeToTouch(View(), t);
      hide Step, Heap, Distinct;
      var l := threads[t];
      if head == l.head {
        head := l.next.Increased();
        hist := hist + [Effect(t, TryPop, Popped(Some(items[0])))];
        chain, items := chain[1..], items[1..];
        Move(t, PopTake(l.head, l.next, cells[l.next.ptr].value.value));
      } else {
        Move(t, Release(l.head.ptr, PopAgain(l.head)));
      }
    }

    /** Moving the element out and deleting its box (202-203) */
    method PopTakes(t: nat)
      requires Ready(t) && threads[t].PopTake?
      modifies this, cells.Values
      ensures Valid() && View() == StepPopTake(old(View()), t)
      ensures var l := old(threads)[t];
        && cells == old(cells) && l.next.ptr in cells && old(cells[l.next.ptr].value) == Some(l.expected) && cells[l.next.ptr].value == None
      ensures threads[t].Detach? && threads[t].k == ReleaseNext(old(threads)[t].next.ptr, old(threads)[t].expected)
    {
      hide Good, Modest;
      ModestStepKeeps(View(), Choice(t, TryPop, 0));
      assert Step(View(), Choice(t, TryPop, 0)) == StepPopTake(View(), t);
      SafeToTouch(View(), t);
      hide Step, Heap, Distinct;
      var l := threads[t];
      var n := l.next.ptr;
      var result := cells[n].value.value;
      Empty(n, cells[n]);
      Move(t, Detach(l.head, 0, ReleaseNext(n, result)));
    }

    /** `ReleaseOneCounter` (232-237); the deletion is a step of its own. */
    method Detaches(t: nat)
      requires Ready(t) && threads[t].Detach?
      modifies this, cells.Values
      ensures Valid() && View() == StepDetach(old(View()), t)
      ensures var l := old(threads)[t]; var a := l.counter.ptr;
        && cells == old(cells) && a in cells
        && cells[a].internal == old(cells[a].internal) + l.counter.count - 2 - ONE_COUNTER + l.inc
        && threads[t] == if cells[a].internal == 0 then Delete(a, l.k) else Resume(l.k)
    {
      hide Good, Modest;
      ModestStepKeeps(View(), Choice(t, TryPop, 0));
      assert Step(View(), Choice(t, TryPop, 0)) == StepDetach(View(), t);
      SafeToTouch(View(), t);
      hide Step, Heap, Distinct;
      var l := threads[t];
      var p := l.counter.ptr;
      var increase := l.counter.count - 2 - ONE_COUNTER + l.inc;
      var before := cells[p].internal;
      SetInternal(p, cells[p], before + increase);
      Move(t, if before == -increase then Delete(p, l.k) else Resume(l.k));
    }

    /** `ReleaseRef` (225-229) */
    method Releases(t: nat)
      requires Ready(t) && threads[t].Release?
      modifies this, cells.Values
      ensures Valid() && View() == StepRelease(old(View()), t)
      ensures var l := old(threads)[t];
        && cells == old(cells) && l.node in cells && cells[l.node].internal == old(cells[l.node].internal) - 1
        && threads[t] == if cells[l.node].internal == 0 then Delete(l.node, l.k) else Resume(l.k)
    {
      hide Good, Modest;
      ModestStepKeeps(View(), Choice(t, TryPop, 0));
      assert Step(View(), Choice(t, TryPop, 0)) == StepRelease(View(), t);
      SafeToTouch(View(), t);
      hide Step, Heap, Distinct;
      var l := threads[t];
      var before := cells[l.node].internal;
      SetInternal(l.node, cells[l.node], before - 1);
      Move(t, if before == 1 then Delete(l.node, l.k) else Resume(l.k));
    }

    /** `delete node` (227, 235): the node is there and nobody else can reach it. */
    method Deletes(t: nat)
      requires Ready(t) && threads[t].Delete?
      modifies this
      ensures Valid() && View() == StepDelete(old(View()), t)
      ensures var a := old(threads)[t].node;
        && cells == old(cells) - {a} && a !in chain && a != head.ptr && a != tail.ptr
        && forall u | 0 <= u < |threads| && u != t :: Ignores(threads[u], a) && Dereferences(threads[u]) != a
    {
      hide Good, Modest;
      ModestStepKeeps(View(), Choice(t, TryPop, 0));
      assert Step(View(), Choice(t, TryPop, 0)) == StepDelete(View(), t);
      NobodyElse(View(), t);
      hide Step, Heap, Distinct;
      var l := threads[t];
      cells := cells - {l.node};
      assert Heap(cells) == old(Heap(cells)) - {l.node};
      Move(t, Resume(l.k));
    }

    /** Returning to the caller. */
    method Exits(t: nat)
      requires Ready(t) && threads[t].Exit?
      modifies this
      ensures Valid() && View() == StepExit(old(View()), t) && cells == old(cells)
    {
      hide Good, Modest;
      ModestStepKeeps(View(), Choice(t, TryPop, 0));
      assert Step(View(), Choice(t, TryPop, 0)) == StepExit(View(), t);
      hide Step, Heap, Distinct;
      hist := hist + [Return(t, threads[t].res)];
      Move(t, Idle);
    }

    /** Whatever the scheduler picks. */
    method Act(c: Choice)
      requires Valid() && Modest(View())
      modifies this, cells.Values
      ensures Valid() && View() == Step(old(View()), c)
      ensures forall a | a in cells :: (a in old(cells) && cells[a] == old(cells)[a]) || fresh(cells[a])
    {
      hide Good, Modest, Heap, Distinct, StepPushLoadTail, StepPushAcquire, StepPushLink, StepPushSwing, StepPushLoadNext, StepPushHelp, StepPopLoadHead,
           StepPopAcquire, StepPopLoadTail, StepPopLoadNext, StepPopHelp, StepPopSwing, StepPopTake, StepDetach, StepRelease, StepDelete, StepExit;
      ModestStepKeeps(View(), c);
      HeapKeys(cells);
      if c.t >= |threads| {
        clock := clock + 1;
        return;
      }
      match threads[c.t]
      case Idle =>
        if c.op.TryPop? {
          EnterTryPop(c.t);
        } else if 0 < c.addr < POINTER_SPAN && c.addr !in cells {
          EnterPush(c.t, c.op.v, c.addr);
        } else {
          Move(c.t, Idle);
        }
      case PushLoadTail(_, _) => PushLoadsTail(c.t);
      case PushAcquire(_, _, _) => PushAcquires(c.t);
      case PushLink(_, _, _) => PushLinks(c.t);
      case PushSwing(_, _, _) => PushSwings(c.t);
      case PushLoadNext(_, _, _) => PushLoadsNext(c.t);
      case PushHelp(_, _, _, _) => PushHelps(c.t);
      case PopLoadHead => PopLoadsHead(c.t);
      case PopAcquire(_) => PopAcquires(c.t);
      case PopLoadTail(_) => PopLoadsTail(c.t);
      case PopLoadNext(_, _) => PopLoadsNext(c.t);
      case PopHelp(_, _, _) => PopHelps(c.t);
      case PopSwing(_, _) => PopSwings(c.t);
      case PopTake(_, _, _) => PopTakes(c.t);
      case Detach(_, _, _) => Detaches(c.t);
      case Release(_, _) => Releases(c.t);
      case Delete(_, _) => Deletes(c.t);
      case Exit(_, _) => Exits(c.t);
    }

    /** Any schedule of any number of threads, one atomic operation at a time. */
    method Drive(schedule: seq<Choice>)
      requires Valid() && AlwaysModest(View(), schedule)
      modifies this, cells.Values
      ensures Valid() && View() == Run(old(View()), schedule)
    {
      hide Good, Modest, Step, Heap, Distinct;
      ghost var start := View();
      for i := 0 to |schedule|
        invariant Valid() && View() == Run(start, schedule[..i]) && clock == start.clock + i
        invariant forall a | a in cells :: (a in old(cells) && cells[a] == old(cells)[a]) || fresh(cells[a])
      {
        assert schedule[..i + 1] == schedule[..i] + [schedule[i]];
        RunStep(start, schedule[..i], schedule[i]);
        assert forall cell | cell in cells.Values :: cell in old(cells).Values || fresh(cell);
        Act(schedule[i]);
      }
      assert schedule[..|schedule|] == schedule;
    }

    /**
     `~Queue` (125-136), with no operation running: every element still queued is destroyed once, in
     order, every node of the list is deleted once, and only overflowed nodes remain allocated.
     */
    method Destroy() returns (destroyed: seq<Item>)
      requires Valid() && Quiescent(View())
      modifies this`cells
      ensures destroyed == items
      ensures forall a :: a in cells <==> a in old(cells) && a !in chain
      ensures forall a | a in cells :: cells[a].wraps > 0
    {
      ghost var s, all := View(), cells;
      hide Good, Quiescent, Heap, Distinct;
      ListNotEmpty(s);
      ListNode(s, 0);
      HeapAt(all, head.ptr);
      var current := head.ptr;
      var next := cells[current].next.ptr;
      cells := cells - {current};
      current := next;
      destroyed := [];
      ghost var i := 1;
      while current != 0
        invariant 1 <= i <= |chain| && |items| == |chain| - 1 && destroyed == items[..i - 1]
        invariant current == if i < |chain| then chain[i] else 0
        invariant forall a :: a in cells <==> a in all && a !in chain[..i]
        invariant forall a | a in cells :: cells[a] == all[a]
        invariant Heap(all) == s.heap
        decreases |chain| - i
      {
        ListNode(s, i);
        HeapAt(all, current);
        destroyed := destroyed + [cells[current].value.value];
        next := cells[current].next.ptr;
        cells := cells - {current};
        current := next;
        i := i + 1;
        assert chain[..i] == chain[..i - 1] + [chain[i - 1]];
      }
      assert i == |chain| by {
        if i < |chain| {
          ListNode(s, i);
        }
      }
      assert chain[..i] == chain;
      forall a | a in cells ensures cells[a].wraps > 0 {
        HeapAt(all, a);
        QuiescentHeap(s, a);
      }
    }
  }
}
