/**
 The stack object of lockfree/stack.hpp over its nodes on the heap: the counted head word, the node at each
 allocated address, and the threads inside.  One method per atomic operation; each dereference is checked by
 the verifier.  An address that was freed may be given to a new node.
 */
module TreiberStackObject {
  import opened Basics
  import opened Histories
  import opened CountedPointers
  import opened TreiberStack
  import opened TreiberStackInvariant
  import opened TreiberStackSteps
  import opened TreiberStackTheorems

  /** What a thread's next operation needs to find in memory. */
  lemma SafeToTouch(s: State, t: nat)
    requires Inv(s) && t < |s.threads|
    ensures var l := s.threads[t];
      && (l.PushLoad? || l.PushSwing? ==> l.node in s.heap)
      && (l.PopAcquire? && s.head.ptr != 0 ==> s.head.ptr in s.heap && s.head.ptr in s.attached)
      && (l.PopReadNext? || l.PopTake? ==> l.head.ptr in s.heap)
      && (l.PopTake? ==> s.heap[l.head.ptr].value == Some(l.expected))
      && (l.PopSwing? && s.head == l.head ==> s.items != [] && s.chain != [])
      && (l.PopSwing? && s.head == l.head ==> l.head.ptr in s.heap && s.heap[l.head.ptr].value == Some(s.items[0]))
      && (l.Detach? ==> l.counter.ptr in s.heap)
      && (l.Release? || l.Delete? ==> l.node in s.heap)
  {
    hide Total, HistoryOk, WordsFit;
    assert LocalOk(s, s.threads[t]);
    if s.threads[t].Delete? {
      DoomedIsFree(s, t);
    } else if s.threads[t].PopSwing? && s.head == s.threads[t].head {
      HeadAdvances(s, t);
    } else if s.head.ptr != 0 {
      TopNode(s);
    }
  }

  /** A `TryPop` that acquires the null head sees an empty stack. */
  lemma EmptyHere(s: State)
    requires Inv(s)
    ensures (s.head.ptr == 0 <==> s.items == []) && |s.items| == |s.chain|
  {
  }

  /** The `i`-th node of the stack. */
  lemma ListNode(s: State, i: nat)
    requires Inv(s) && i < |s.chain|
    ensures |s.items| == |s.chain| && s.head.ptr == s.chain[0]
    ensures s.chain[i] in s.heap && s.chain[i] != 0 && s.chain[i] !in s.chain[..i]
    ensures s.heap[s.chain[i]].next.ptr == if i + 1 < |s.chain| then s.chain[i + 1] else 0
    ensures s.heap[s.chain[i]].value == Some(s.items[i])
  {
  }

  /** What is in the stack is allocated. */
  lemma FreeNotListed(s: State, a: Addr)
    requires Inv(s) && a !in s.heap
    ensures a !in s.chain
  {
  }

  /** A node about to be deleted is in no thread's hands and not in the stack. */
  lemma NobodyElse(s: State, t: nat)
    requires Inv(s) && t < |s.threads| && s.threads[t].Delete?
    ensures var a := s.threads[t].node;
      && a in s.heap && a !in s.chain && a != s.head.ptr
      && forall u | 0 <= u < |s.threads| && u != t :: Dereferences(s.threads[u]) != a && TokensOf(s.threads[u]).ref != a
  {
    hide Total, HistoryOk, WordsFit;
    assert LocalOk(s, s.threads[t]);
    DoomedIsFree(s, t);
    if s.head.ptr != 0 {
      TopNode(s);
    }
    forall u | 0 <= u < |s.threads| && u != t
      ensures Dereferences(s.threads[u]) != s.threads[t].node && TokensOf(s.threads[u]).ref != s.threads[t].node
    {
      DeletedAlone(s, t, u);
    }
  }

  /** `Node` (stack.hpp:73-80); `linked` and `wraps` are bookkeeping, and a moved-out value is None. */
  class Cell {
    var value: Option<Item>
    var internal: int
    var next: CountedPtr
    ghost var linked: bool
    ghost var wraps: nat

    constructor (value: Item)
      ensures Contents() == Node(Some(value), 0, NULL, false, 0)
    {
      this.value, internal, next, linked, wraps := Some(value), 0, NULL, false, 0;
    }

    ghost function Contents(): Node
      reads this
    {
      Node(value, internal, next, linked, wraps)
    }
  }

  /** Different addresses are different nodes. */
  predicate Distinct(cells: map<Addr, Cell>) {
    forall a, b | a in cells && b in cells && a != b :: cells[a] != cells[b]
  }

  ghost function Heap(cells: map<Addr, Cell>): map<Addr, Node>
    reads cells.Values
  {
    map a | a in cells :: cells[a].Contents()
  }

  lemma HeapKeys(cells: map<Addr, Cell>)
    ensures Heap(cells).Keys == cells.Keys
  {
  }

  lemma HeapAt(cells: map<Addr, Cell>, a: Addr)
    requires a in cells || a in Heap(cells)
    ensures a in cells && a in Heap(cells) && Heap(cells)[a] == cells[a].Contents()
  {
  }

  class Stack {
    var head: CountedPtr
    var cells: map<Addr, Cell>
    var threads: seq<Local>
    ghost var chain: seq<Addr>
    ghost var items: seq<Item>
    ghost var attached: map<Addr, nat>
    ghost var hist: seq<Event<Op, Res>>
    ghost var clock: nat

    ghost function View(): State
      reads this, cells.Values
    {
      State(head, Heap(cells), threads, chain, items, attached, hist, clock, false)
    }

    ghost predicate Valid()
      reads this, cells.Values
    {
      Inv(View()) && Distinct(cells)
    }

    /** A default-constructed stack: the head word is zero (stack.hpp:93) */
    constructor (count: nat)
      requires count < COUNT_SPAN
      ensures Valid() && View() == Init(count)
    {
      head := NULL;
      cells := map[];
      threads := seq(count, i => Idle);
      chain, items, attached, hist, clock := [], [], map[], [], 0;
      new;
      assert Heap(cells) == map[];
      InitKeeps(count);
    }

    /** The thread-local end of every step. */
    method Move(t: nat, l: Local)
      requires t < |threads|
      modifies this`threads, this`clock
      ensures threads == old(threads)[t := l] && clock == old(clock) + 1
    {
      threads := threads[t := l];
      clock := clock + 1;
    }

    // -------------------------------------------------------------- writes to nodes

    method Allocate(addr: Addr, v: Item)
      requires Distinct(cells) && addr !in cells
      modifies this`cells
      ensures cells.Keys == old(cells).Keys + {addr} && fresh(cells[addr]) && Distinct(cells)
      ensures forall a | a in old(cells) :: cells[a] == old(cells)[a]
      ensures cells[addr].value == Some(v)
      ensures Heap(cells) == old(Heap(cells))[addr := Node(Some(v), 0, NULL, false, 0)]
    {
      var cell := new Cell(v);
      cells := cells[addr := cell];
    }

    method SetNext(p: Addr, cell: Cell, next: CountedPtr)
      requires Distinct(cells) && p in cells && cells[p] == cell
      modifies cell`next
      ensures cell.next == next && Heap(cells) == old(Heap(cells))[p := old(Heap(cells))[p].(next := next)]
    {
      cell.next := next;
    }

    method SetInternal(p: Addr, cell: Cell, internal: int)
      requires Distinct(cells) && p in cells && cells[p] == cell
      modifies cell`internal
      ensures cell.internal == internal && Heap(cells) == old(Heap(cells))[p := old(Heap(cells))[p].(internal := internal)]
    {
      cell.internal := internal;
    }

    method Empty(p: Addr, cell: Cell)
      requires Distinct(cells) && p in cells && cells[p] == cell
      modifies cell`value
      ensures cell.value == None && Heap(cells) == old(Heap(cells))[p := old(Heap(cells))[p].(value := None)]
    {
      cell.value := None;
    }

    ghost method Publish(p: Addr, cell: Cell)
      requires Distinct(cells) && p in cells && cells[p] == cell
      modifies cell`linked
      ensures Heap(cells) == old(Heap(cells))[p := old(Heap(cells))[p].(linked := true)]
    {
      cell.linked := true;
    }

    ghost method Wrap(p: Addr, cell: Cell)
      requires Distinct(cells) && p in cells && cells[p] == cell
      modifies cell`wraps
      ensures Heap(cells) == old(Heap(cells))[p := old(Heap(cells))[p].(wraps := old(Heap(cells))[p].wraps + 1)]
    {
      cell.wraps := cell.wraps + 1;
    }

    // -------------------------------------------------------------- atomic operations

    /** An idle thread calls `TryPop`. */
    method EnterTryPop(t: nat)
      requires Valid() && t < |threads| && threads[t].Idle?
      modifies this
      ensures Valid() && View() == StepIdle(old(View()), t, Choice(t, TryPop, 0, false)) && cells == old(cells)
    {
      hide Inv, Heap, Distinct;
      HeapKeys(cells);
      StepKeeps(View(), Choice(t, TryPop, 0, false));
      hist := hist + [Call(t, TryPop)];
      Move(t, PopLoad);
    }

    /** An idle thread calls `Push` and allocates a free address (97-99). */
    method EnterPush(t: nat, v: Item, addr: Addr)
      requires Valid() && t < |threads| && threads[t].Idle? && 0 < addr < POINTER_SPAN && addr !in cells
      modifies this
      ensures Valid() && View() == StepIdle(old(View()), t, Choice(t, Push(v), addr, false))
      ensures addr in cells && fresh(cells[addr]) && cells[addr].value == Some(v) && addr !in chain && items == old(items)
      ensures forall a | a in cells && a != addr :: a in old(cells) && cells[a] == old(cells)[a]
    {
      hide Inv, Heap, Distinct;
      HeapKeys(cells);
      FreeNotListed(View(), addr);
      HeapKeys(cells);
      StepKeeps(View(), Choice(t, Push(v), addr, false));
      Allocate(addr, v);
      hist := hist + [Call(t, Push(v))];
      Move(t, PushLoad(v, addr));
    }

    /** `new_head->next = head_.load()` (100) */
    method PushLoads(t: nat)
      requires Valid() && t < |threads| && threads[t].PushLoad?
      modifies this, cells.Values
      ensures Valid() && View() == StepPushLoad(old(View()), t) && cells == old(cells)
    {
      hide Inv, Heap, Distinct;
      HeapKeys(cells);
      StepKeeps(View(), Choice(t, TryPop, 0, false));
      assert Step(View(), Choice(t, TryPop, 0, false)) == StepPushLoad(View(), t);
      SafeToTouch(View(), t);
      HeapAt(cells, threads[t].node);
      hide Step;
      var l := threads[t];
      SetNext(l.node, cells[l.node], head);
      Move(t, PushSwing(l.v, l.node));
    }

    /** The weak compare-exchange on `head_` (102-104) */
    method PushSwings(t: nat, spurious: bool)
      requires Valid() && t < |threads| && threads[t].PushSwing?
      modifies this, cells.Values
      ensures Valid() && View() == StepPushSwing(old(View()), t, spurious) && cells == old(cells)
      ensures var l := old(threads)[t];
        && l.node in cells
        && (if old(head) == old(cells[l.node].next) && !spurious then
              head == CountedPtr(l.node, 1) && items == [l.v] + old(items) && chain == [l.node] + old(chain) && cells[l.node].next == old(head)
            else cells[l.node].next == head == old(head) && items == old(items) && chain == old(chain))
    {
      hide Inv, Heap, Distinct;
      HeapKeys(cells);
      StepKeeps(View(), Choice(t, TryPop, 0, spurious));
      assert Step(View(), Choice(t, TryPop, 0, spurious)) == StepPushSwing(View(), t, spurious);
      SafeToTouch(View(), t);
      HeapAt(cells, threads[t].node);
      hide Step;
      var l := threads[t];
      if head == cells[l.node].next && !spurious {
        head := CountedPtr(l.node, 1);
        Publish(l.node, cells[l.node]);
        chain, items := [l.node] + chain, [l.v] + items;
        attached := attached[l.node := 1];
        hist := hist + [Effect(t, Push(l.v), Pushed)];
        Move(t, Exit(Push(l.v), Pushed));
      } else {
        SetNext(l.node, cells[l.node], head);
        Move(t, PushSwing(l.v, l.node));
      }
    }

    /** `head_.load()` (109) */
    method PopLoads(t: nat)
      requires Valid() && t < |threads| && threads[t].PopLoad?
      modifies this
      ensures Valid() && View() == StepPopLoad(old(View()), t) && cells == old(cells)
    {
      hide Inv, Heap, Distinct;
      HeapKeys(cells);
      StepKeeps(View(), Choice(t, TryPop, 0, false));
      assert Step(View(), Choice(t, TryPop, 0, false)) == StepPopLoad(View(), t);
      SafeToTouch(View(), t);
      hide Step;
      var l := threads[t];
      Move(t, PopAcquire(head));
    }

    /** One round of `IncreaseExternalCount` (155-163) and the null test (114-116) */
    method PopAcquires(t: nat)
      requires Valid() && t < |threads| && threads[t].PopAcquire?
      modifies this, cells.Values
      ensures Valid() && View() == StepPopAcquire(old(View()), t) && cells == old(cells)
      ensures items == old(items) && chain == old(chain)
      ensures if old(head) == old(threads)[t].seen then head == old(head).Increased() else head == old(head)
      ensures threads[t] == Exit(TryPop, Popped(None)) ==> items == []
      ensures threads[t].PopReadNext? ==> items != [] && head.ptr == chain[0] && head.ptr in cells
    {
      hide Inv, Heap, Distinct;
      HeapKeys(cells);
      StepKeeps(View(), Choice(t, TryPop, 0, false));
      assert Step(View(), Choice(t, TryPop, 0, false)) == StepPopAcquire(View(), t);
      SafeToTouch(View(), t);
      EmptyHere(View());
      if items != [] {
        ListNode(View(), 0);
      }
      hide Step;
      var l := threads[t];
      if head != l.seen {
        Move(t, PopAcquire(head));
      } else if head.ptr == 0 {
        head := head.Increased();
        hist := hist + [Effect(t, TryPop, Popped(None))];
        Move(t, Exit(TryPop, Popped(None)));
      } else {
        if head.count + 1 == COUNT_SPAN {
          Wrap(head.ptr, cells[head.ptr]);
        }
        head := head.Increased();
        attached := attached[head.ptr := head.count];
        Move(t, PopReadNext(l.seen.Increased()));
      }
    }

    /** Reading `old_head->next` (119) */
    method PopReadsNext(t: nat)
      requires Valid() && t < |threads| && threads[t].PopReadNext?
      modifies this
      ensures Valid() && View() == StepPopReadNext(old(View()), t) && cells == old(cells)
      ensures var l := old(threads)[t]; l.head.ptr in cells && threads[t] == PopSwing(l.head, cells[l.head.ptr].next)
    {
      hide Inv, Heap, Distinct;
      HeapKeys(cells);
      StepKeeps(View(), Choice(t, TryPop, 0, false));
      assert Step(View(), Choice(t, TryPop, 0, false)) == StepPopReadNext(View(), t);
      SafeToTouch(View(), t);
      HeapAt(cells, threads[t].head.ptr);
      hide Step;
      var l := threads[t];
      Move(t, PopSwing(l.head, cells[l.head.ptr].next));
    }

    /** The compare-exchange on `head_` (119-120) */
    method PopSwings(t: nat)
      requires Valid() && t < |threads| && threads[t].PopSwing?
      modifies this
      ensures Valid() && View() == StepPopSwing(old(View()), t) && cells == old(cells)
      ensures threads[t].PopTake? <==> old(head) == old(threads)[t].head
      ensures threads[t].PopTake? ==>
        && old(items) == [threads[t].expected] + items && old(chain) == [threads[t].head.ptr] + chain
        && threads[t].head.ptr in cells && cells[threads[t].head.ptr].value == Some(threads[t].expected)
      ensures !threads[t].PopTake? ==> items == old(items) && chain == old(chain) && head == old(head)
    {
      hide Inv, Heap, Distinct;
      HeapKeys(cells);
      StepKeeps(View(), Choice(t, TryPop, 0, false));
      assert Step(View(), Choice(t, TryPop, 0, false)) == StepPopSwing(View(), t);
      SafeToTouch(View(), t);
      if head == threads[t].head {
        HeapAt(cells, head.ptr);
        ListNode(View(), 0);
      }
      hide Step;
      var l := threads[t];
      if head == l.head {
        head := l.next;
        var expected := cells[l.head.ptr].value.value;
        hist := hist + [Effect(t, TryPop, Popped(Some(items[0])))];
        attached := attached - {chain[0]};
        chain, items := chain[1..], items[1..];
        Move(t, PopTake(l.head, expected));
      } else {
        Move(t, Release(l.head.ptr, head));
      }
    }

    /** Moving the element out (121) */
    method PopTakes(t: nat)
      requires Valid() && t < |threads| && threads[t].PopTake?
      modifies this, cells.Values
      ensures Valid() && View() == StepPopTake(old(View()), t) && cells == old(cells)
      ensures var l := old(threads)[t];
        && l.head.ptr in cells && old(cells[l.head.ptr].value) == Some(l.expected) && cells[l.head.ptr].value == None
        && threads[t] == Detach(l.head, l.expected)
    {
      hide Inv, Heap, Distinct;
      HeapKeys(cells);
      StepKeeps(View(), Choice(t, TryPop, 0, false));
      assert Step(View(), Choice(t, TryPop, 0, false)) == StepPopTake(View(), t);
      SafeToTouch(View(), t);
      HeapAt(cells, threads[t].head.ptr);
      hide Step;
      var l := threads[t];
      var result := cells[l.head.ptr].value.value;
      Empty(l.head.ptr, cells[l.head.ptr]);
      Move(t, Detach(l.head, result));
    }

    /** The fetch_add that settles the external count (123-125) */
    method Detaches(t: nat)
      requires Valid() && t < |threads| && threads[t].Detach?
      modifies this, cells.Values
      ensures Valid() && View() == StepDetach(old(View()), t) && cells == old(cells)
      ensures var l := old(threads)[t]; var a, k := l.counter.ptr, Finish(Popped(Some(l.r)));
        && a in cells && cells[a].internal == old(cells[a].internal) + l.counter.count - 2
        && threads[t] == if cells[a].internal == 0 then Delete(a, k) else Resume(k)
    {
      hide Inv, Heap, Distinct;
      HeapKeys(cells);
      StepKeeps(View(), Choice(t, TryPop, 0, false));
      assert Step(View(), Choice(t, TryPop, 0, false)) == StepDetach(View(), t);
      SafeToTouch(View(), t);
      HeapAt(cells, threads[t].counter.ptr);
      hide Step;
      var l := threads[t];
      var p := l.counter.ptr;
      var add := l.counter.count - 2;
      var before := cells[p].internal;
      var k := Finish(Popped(Some(l.r)));
      SetInternal(p, cells[p], before + add);
      Move(t, if before == -add then Delete(p, k) else Resume(k));
    }

    /** The fetch_sub after a lost race (132) */
    method Releases(t: nat)
      requires Valid() && t < |threads| && threads[t].Release?
      modifies this, cells.Values
      ensures Valid() && View() == StepRelease(old(View()), t) && cells == old(cells)
      ensures var l := old(threads)[t];
        && l.node in cells && cells[l.node].internal == old(cells[l.node].internal) - 1
        && threads[t] == if cells[l.node].internal == 0 then Delete(l.node, PopAgain(l.seen)) else PopAcquire(l.seen)
    {
      hide Inv, Heap, Distinct;
      HeapKeys(cells);
      StepKeeps(View(), Choice(t, TryPop, 0, false));
      assert Step(View(), Choice(t, TryPop, 0, false)) == StepRelease(View(), t);
      SafeToTouch(View(), t);
      HeapAt(cells, threads[t].node);
      hide Step;
      var l := threads[t];
      var before := cells[l.node].internal;
      var k := PopAgain(l.seen);
      SetInternal(l.node, cells[l.node], before - 1);
      Move(t, if before == 1 then Delete(l.node, k) else Resume(k));
    }

    /** `delete old_head_ptr` (126, 133): the node is there and nobody else can reach it. */
    method Deletes(t: nat)
      requires Valid() && t < |threads| && threads[t].Delete?
      modifies this
      ensures Valid() && View() == StepDelete(old(View()), t)
      ensures var a := old(threads)[t].node;
        && cells == old(cells) - {a} && a !in chain && a != head.ptr
        && forall u | 0 <= u < |threads| && u != t :: Dereferences(threads[u]) != a && TokensOf(threads[u]).ref != a
    {
      hide Inv;
      NobodyElse(View(), t);
      HeapKeys(cells);
      StepKeeps(View(), Choice(t, TryPop, 0, false));
      assert Step(View(), Choice(t, TryPop, 0, false)) == StepDelete(View(), t);
      SafeToTouch(View(), t);
      hide Step;
      var l := threads[t];
      cells := cells - {l.node};
      assert Heap(cells) == old(Heap(cells)) - {l.node};
      Move(t, Resume(l.k));
    }

    /** Returning to the caller. */
    method Exits(t: nat)
      requires Valid() && t < |threads| && threads[t].Exit?
      modifies this
      ensures Valid() && View() == StepExit(old(View()), t) && cells == old(cells)
    {
      hide Inv, Heap, Distinct;
      HeapKeys(cells);
      StepKeeps(View(), Choice(t, TryPop, 0, false));
      assert Step(View(), Choice(t, TryPop, 0, false)) == StepExit(View(), t);
      SafeToTouch(View(), t);
      hide Step;
      var l := threads[t];
      hist := hist + [Return(t, l.res)];
      Move(t, Idle);
    }

    /** Whatever the scheduler picks. */
    method Act(c: Choice)
      requires Valid()
      modifies this, cells.Values
      ensures Valid() && View() == Step(old(View()), c)
      ensures forall a | a in cells :: (a in old(cells) && cells[a] == old(cells)[a]) || fresh(cells[a])
    {
      hide Inv, Heap, Distinct, StepPushLoad, StepPushSwing, StepPopLoad, StepPopAcquire, StepPopReadNext, StepPopSwing, StepPopTake,
           StepDetach, StepRelease, StepDelete, StepExit;
      HeapKeys(cells);
      StepKeeps(View(), c);
      if c.t >= |threads| {
        clock := clock + 1;
        return;
      }
      match threads[c.t]
      case Idle =>
        if c.op.TryPop? {
          EnterTryPop(c.t);
        } else if 0 < c.addr < POINTER_SPAN && c.addr !in cells {
          EnterPush(c.t, c.op.v, c.addr);
        } else {
          Move(c.t, Idle);
        }
      case PushLoad(_, _) => PushLoads(c.t);
      case PushSwing(_, _) => PushSwings(c.t, c.spurious);
      case PopLoad => PopLoads(c.t);
      case PopAcquire(_) => PopAcquires(c.t);
      case PopReadNext(_) => PopReadsNext(c.t);
      case PopSwing(_, _) => PopSwings(c.t);
      case PopTake(_, _) => PopTakes(c.t);
      case Detach(_, _) => Detaches(c.t);
      case Release(_, _) => Releases(c.t);
      case Delete(_, _) => Deletes(c.t);
      case Exit(_, _) => Exits(c.t);
    }

    /** Any schedule of any number of threads, one atomic operation at a time. */
    method Drive(schedule: seq<Choice>)
      requires Valid()
      modifies this, cells.Values
      ensures Valid() && View() == Run(old(View()), schedule)
    {
      hide Inv, Step, Heap, Distinct;
      ghost var start := View();
      for i := 0 to |schedule|
        invariant Valid() && View() == Run(start, schedule[..i])
        invariant forall a | a in cells :: (a in old(cells) && cells[a] == old(cells)[a]) || fresh(cells[a])
      {
        assert schedule[..i + 1][..i] == schedule[..i];
        assert forall cell | cell in cells.Values :: cell in old(cells).Values || fresh(cell);
        Act(schedule[i]);
      }
      assert schedule[..|schedule|] == schedule;
    }

    /**
     `~Stack`, with no operation running: the nodes of the stack are deleted once each, top first, and only
     overflowed nodes remain allocated.
     */
    method Destroy() returns (destroyed: seq<Item>)
      requires Valid() && Quiescent(View())
      modifies this`cells
      ensures destroyed == items
      ensures forall a :: a in cells <==> a in old(cells) && a !in chain
      ensures forall a | a in cells :: cells[a].wraps > 0
    {
      hide Inv, Quiescent, Heap, Distinct;
      ghost var s, all := View(), cells;
      EmptyHere(s);
      HeapKeys(cells);
      if chain != [] {
        ListNode(s, 0);
      }
      var current := head.ptr;
      destroyed := [];
      ghost var i := 0;
      assert chain[..0] == [];
      while current != 0
        invariant 0 <= i <= |chain| == |items| && destroyed == items[..i]
        invariant current == if i < |chain| then chain[i] else 0
        invariant forall a :: a in cells <==> a in all && a !in chain[..i]
        invariant forall a | a in cells :: cells[a] == all[a]
        invariant Heap(all) == s.heap
        decreases |chain| - i
      {
        ListNode(s, i);
        HeapAt(all, current);
        destroyed := destroyed + [cells[current].value.value];
        var next := cells[current].next.ptr;
        cells := cells - {current};
        current := next;
        i := i + 1;
        assert chain[..i] == chain[..i - 1] + [chain[i - 1]];
      }
      assert i == |chain| by {
        if i < |chain| {
          ListNode(s, i);
        }
      }
      assert chain[..i] == chain;
      forall a | a in cells ensures cells[a].wraps > 0 {
        HeapAt(all, a);
        QuiescentHeap(s, a);
      }
    }
  }
}
