/**
 The lock of detail/spinlock.hpp with its guards on the heap and the threads using it, one method per atomic
 operation.  A guard's address is the number of its thread, on whose stack it lives: the thread's next guard is
 a new object at the same address.
 */
module SpinLockObject {
  import opened Basics
  import opened SpinLock

  /** The guards a thread's next operation writes to belong to threads inside the lock's line. */
  lemma GuardsExist(s: State, t: nat)
    requires Inv(s) && t < |s.pcs|
    ensures |s.guards| == |s.pcs| == |s.tickets|
    ensures s.pcs[t].LinkBehind? ==> s.pcs[t].pred < |s.pcs| && InLine(s.pcs[s.pcs[t].pred]) && s.guards[s.pcs[t].pred].next == None
    ensures s.pcs[t].Grant? ==>
      s.pcs[t].next < |s.pcs| && s.pcs[s.pcs[t].next].Spin? && !s.guards[s.pcs[t].next].owner && s.guards[t].next == Some(s.pcs[t].next)
  {
    if s.pcs[t].LinkBehind? {
      assert s.tickets[t] > s.left;
      assert WaiterOk(s, s.tickets[t]);
    } else if s.pcs[t].Grant? {
      HolderIsHead(s, t);
      assert WaiterOk(s, s.left + 1);
    }
  }

  /** Whoever holds the lock is alone. */
  lemma HolderAlone(s: State, t: nat)
    requires Inv(s) && t < |s.pcs| && Holds(s.pcs[t])
    ensures forall u | 0 <= u < |s.pcs| && u != t :: !Holds(s.pcs[u])
  {
    HolderIsHead(s, t);
    forall u | 0 <= u < |s.pcs| && u != t ensures !Holds(s.pcs[u]) {
      if Holds(s.pcs[u]) {
        HolderIsHead(s, u);
      }
    }
  }

  lemma FreshGuard(s: State, t: nat)
    requires Inv(s) && t < |s.pcs| && s.pcs[t].SwapTail?
    ensures t < |s.guards| && s.guards[t] == Guard(None, false)
  {
  }

  /** A lock without a tail has nobody in its line. */
  lemma FreeMeansEmpty(s: State)
    requires Inv(s) && s.tail == None
    ensures forall u | 0 <= u < |s.pcs| :: !InLine(s.pcs[u])
  {
  }

  /** `QueueSpinLock::Guard` (19-43) of thread `thread`. */
  class Node {
    const thread: nat
    var next: Option<nat>
    var owner: bool

    constructor (thread: nat)
      ensures this.thread == thread && next == None && !owner
    {
      this.thread := thread;
      next, owner := None, false;
    }
  }

  ghost function Guards(nodes: seq<Node>): (guards: seq<Guard>)
    reads nodes
    ensures |guards| == |nodes|
    ensures forall t | 0 <= t < |nodes| :: guards[t] == Guard(nodes[t].next, nodes[t].owner)
  {
    seq(|nodes|, t requires 0 <= t < |nodes| reads nodes => Guard(nodes[t].next, nodes[t].owner))
  }

  class QueueSpinLock {
    var tail: Option<nat>
    var nodes: seq<Node>
    var pcs: seq<Pc>
    ghost var arrivals: seq<nat>
    ghost var entered: seq<nat>
    ghost var left: nat
    ghost var tickets: seq<nat>

    ghost function View(): State
      reads this, nodes
    {
      State(tail, Guards(nodes), pcs, arrivals, entered, left, tickets, false)
    }

    /** Each thread has its own guard. */
    ghost predicate Valid()
      reads this, nodes
    {
      Inv(View()) && forall t | 0 <= t < |nodes| :: nodes[t].thread == t
    }

    constructor (threads: nat)
      ensures Valid() && View() == Init(threads) && fresh(nodes)
    {
      tail := None;
      pcs := seq(threads, i => Out);
      arrivals, entered, left, tickets := [], [], 0, seq(threads, i => 0);
      nodes := [];
      new;
      for t := 0 to threads
        invariant |nodes| == t && fresh(nodes)
        invariant forall u | 0 <= u < t :: nodes[u].thread == u && nodes[u].next == None && !nodes[u].owner
        invariant tail == None && pcs == seq(threads, i => Out)
        invariant arrivals == [] && entered == [] && left == 0 && tickets == seq(threads, i => 0)
      {
        var node := new Node(t);
        nodes := nodes + [node];
      }
      assert Guards(nodes) == Init(threads).guards;
      InitKeeps(threads);
    }

    /** A fresh guard is constructed (22-24, 39-42) */
    method Enter(t: nat)
      requires Valid() && t < |pcs| && pcs[t].Out?
      modifies this
      ensures Valid() && View() == StepEnter(old(View()), t)
      ensures forall node | node in nodes :: node in old(nodes) || node == nodes[t]
      ensures nodes == old(nodes)[t := nodes[t]] && fresh(nodes[t]) && nodes[t].next == None && !nodes[t].owner && tail == old(tail)
    {
      hide Inv;
      StepKeeps(View(), Choice(t, false));
      assert Step(View(), Choice(t, false)) == StepEnter(View(), t);
      GuardsExist(View(), t);
      hide Step;
      var node := new Node(t);
      nodes := nodes[t := node];
      pcs := pcs[t := LoadTail];
      assert Guards(nodes) == old(Guards(nodes))[t := Guard(None, false)];
    }

    /** `tail_.load()` (47) */
    method LoadsTail(t: nat)
      requires Valid() && t < |pcs| && pcs[t].LoadTail?
      modifies this`pcs
      ensures Valid() && View() == Go(old(View()), t, SwapTail(old(View()).tail))
    {
      hide Inv;
      StepKeeps(View(), Choice(t, false));
      assert Step(View(), Choice(t, false)) == Go(View(), t, SwapTail(View().tail));
      GuardsExist(View(), t);
      hide Step;
      pcs := pcs[t := SwapTail(tail)];
    }

    /** The compare-exchange succeeds: into the lock if nobody is there, and behind the last otherwise. */
    method Joins(t: nat)
      requires Valid() && t < |pcs| && pcs[t] == SwapTail(tail)
      modifies this
      ensures Valid() && View() == StepSwapTail(old(View()), t, false) && nodes == old(nodes)
      ensures InLine(pcs[t]) && tail == Some(t) && arrivals == old(arrivals) + [t] && nodes[t].next == None && !nodes[t].owner
      ensures if old(tail) == None then pcs[t] == Critical && forall u | 0 <= u < |pcs| && u != t :: !InLine(pcs[u])
              else pcs[t] == LinkBehind(old(tail).value)
    {
      hide Inv, Guards;
      StepKeeps(View(), Choice(t, false));
      assert Step(View(), Choice(t, false)) == StepSwapTail(View(), t, false);
      GuardsExist(View(), t);
      if tail == None {
        FreeMeansEmpty(View());
      }
      FreshGuard(View(), t);
      hide Step;
      var seen := pcs[t].seen;
      tail := Some(t);
      tickets := tickets[t := |arrivals|];
      arrivals := arrivals + [t];
      if seen == None {
        entered := entered + [t];
        pcs := pcs[t := Critical];
      } else {
        pcs := pcs[t := LinkBehind(seen.value)];
      }
    }

    /** The weak compare-exchange that joins the line (48-55): into the lock if nobody is there, and behind the last otherwise. */
    method SwapsTail(t: nat, spurious: bool)
      requires Valid() && t < |pcs| && pcs[t].SwapTail?
      modifies this
      ensures Valid() && View() == StepSwapTail(old(View()), t, spurious) && nodes == old(nodes)
      ensures InLine(pcs[t]) <==> old(pcs)[t] == SwapTail(old(tail)) && !spurious
      ensures InLine(pcs[t]) ==> tail == Some(t) && arrivals == old(arrivals) + [t]
      ensures pcs[t].Critical? ==> old(tail) == None && forall u | 0 <= u < |pcs| && u != t :: !InLine(pcs[u])
      ensures pcs[t].LinkBehind? ==> old(tail) == Some(pcs[t].pred)
      ensures !InLine(pcs[t]) ==> tail == old(tail) && arrivals == old(arrivals)
    {
      hide Inv, Guards;
      if pcs[t].seen == tail && !spurious {
        Joins(t);
      } else {
        StepKeeps(View(), Choice(t, spurious));
        assert Step(View(), Choice(t, spurious)) == StepSwapTail(View(), t, spurious);
        hide Step;
        pcs := pcs[t := SwapTail(tail)];
      }
    }

    /** `old_tail_->next_.store(guard)` (57): the predecessor is still in the line and nobody has linked behind it. */
    method LinksBehind(t: nat)
      requires Valid() && t < |pcs| && pcs[t].LinkBehind?
      modifies this`pcs, nodes
      ensures Valid() && View() == StepLinkBehind(old(View()), t)
      ensures var pred := old(pcs)[t].pred;
        && pred < |nodes| && InLine(old(pcs)[pred]) && old(nodes[pred].next) == None && nodes[pred].next == Some(t)
        && forall u | 0 <= u < |nodes| && u != pred :: nodes[u].next == old(nodes[u].next) && nodes[u].owner == old(nodes[u].owner)
    {
      hide Inv;
      StepKeeps(View(), Choice(t, false));
      assert Step(View(), Choice(t, false)) == StepLinkBehind(View(), t);
      GuardsExist(View(), t);
      hide Step;
      var pred := pcs[t].pred;
      assert Guards(nodes)[pred].next == None;
      nodes[pred].next := Some(t);
      pcs := pcs[t := Spin];
      assert Guards(nodes) == old(Guards(nodes))[pred := old(Guards(nodes))[pred].(next := Some(t))];
    }

    /** One test of `guard->owner_` (59): whoever passes it is alone in the lock. */
    method Spins(t: nat)
      requires Valid() && t < |pcs| && pcs[t].Spin?
      modifies this
      ensures Valid() && View() == StepSpin(old(View()), t) && nodes == old(nodes)
      ensures pcs[t].Critical? <==> nodes[t].owner
      ensures pcs[t].Critical? ==> entered == old(entered) + [t] && forall u | 0 <= u < |pcs| && u != t :: !Holds(pcs[u])
    {
      hide Inv;
      StepKeeps(View(), Choice(t, false));
      assert Step(View(), Choice(t, false)) == StepSpin(View(), t);
      GuardsExist(View(), t);
      hide Step;
      if nodes[t].owner {
        entered := entered + [t];
        pcs := pcs[t := Critical];
        HolderAlone(View(), t);
      }
    }

    /** `~Guard` enters its release (26-30) */
    method Leaves(t: nat)
      requires Valid() && t < |pcs| && pcs[t].Critical?
      modifies this`pcs
      ensures Valid() && View() == Go(old(View()), t, ClearTail)
    {
      hide Inv;
      StepKeeps(View(), Choice(t, false));
      assert Step(View(), Choice(t, false)) == Go(View(), t, ClearTail);
      GuardsExist(View(), t);
      hide Step;
      pcs := pcs[t := ClearTail];
    }

    /** The compare-exchange that frees a lock nobody waits for (66) */
    method ClearsTail(t: nat)
      requires Valid() && t < |pcs| && pcs[t].ClearTail?
      modifies this
      ensures Valid() && View() == StepClearTail(old(View()), t) && nodes == old(nodes)
      ensures if old(tail) == Some(t) then tail == None && pcs[t].Out? && forall u | 0 <= u < |pcs| :: !InLine(pcs[u])
              else tail == old(tail) && pcs[t].AwaitNext?
    {
      hide Inv;
      StepKeeps(View(), Choice(t, false));
      assert Step(View(), Choice(t, false)) == StepClearTail(View(), t);
      GuardsExist(View(), t);
      hide Step;
      if tail == Some(t) {
        tail := None;
        left := left + 1;
        pcs := pcs[t := Out];
        FreeMeansEmpty(View());
      } else {
        pcs := pcs[t := AwaitNext];
      }
    }

    /** One load of `owner->next_` (73): what it finds is the guard of a thread that spins. */
    method AwaitsNext(t: nat)
      requires Valid() && t < |pcs| && pcs[t].AwaitNext?
      modifies this`pcs
      ensures Valid() && View() == StepAwaitNext(old(View()), t)
      ensures match nodes[t].next
        case None => pcs == old(pcs)
        case Some(n) => n < |pcs| && pcs == old(pcs)[t := Grant(n)] && pcs[n].Spin? && !nodes[n].owner
    {
      hide Inv;
      StepKeeps(View(), Choice(t, false));
      assert Step(View(), Choice(t, false)) == StepAwaitNext(View(), t);
      GuardsExist(View(), t);
      hide Step;
      if nodes[t].next != None {
        pcs := pcs[t := Grant(nodes[t].next.value)];
        GuardsExist(View(), t);
      }
    }

    /** `next->owner_.test_and_set()` (77): the guard still exists, spins, and was not the owner; this guard is gone afterwards. */
    method Grants(t: nat)
      requires Valid() && t < |pcs| && pcs[t].Grant?
      modifies this, nodes
      ensures Valid() && View() == StepGrant(old(View()), t) && nodes == old(nodes)
      ensures var n := old(pcs)[t].next;
        && n < |nodes| && pcs == old(pcs)[t := Out] && pcs[n].Spin? && !old(nodes[n].owner) && nodes[n].owner
        && forall u | 0 <= u < |nodes| :: nodes[u].next == old(nodes[u].next) && (u != n ==> nodes[u].owner == old(nodes[u].owner))
    {
      hide Inv;
      StepKeeps(View(), Choice(t, false));
      assert Step(View(), Choice(t, false)) == StepGrant(View(), t);
      GuardsExist(View(), t);
      hide Step;
      var n := pcs[t].next;
      assert !Guards(nodes)[n].owner;
      nodes[n].owner := true;
      left := left + 1;
      pcs := pcs[t := Out];
      assert Guards(nodes) == old(Guards(nodes))[n := old(Guards(nodes))[n].(owner := true)];
    }

    /** Whatever the scheduler picks. */
    method Act(c: Choice)
      requires Valid()
      modifies this, nodes
      ensures Valid() && View() == Step(old(View()), c)
      ensures forall node | node in nodes :: node in old(nodes) || fresh(node)
    {
      hide Inv, StepEnter, StepSwapTail, StepLinkBehind, StepSpin, StepClearTail, StepAwaitNext, StepGrant;
      if c.t >= |pcs| {
        return;
      }
      match pcs[c.t]
      case Out => Enter(c.t);
      case LoadTail => LoadsTail(c.t);
      case SwapTail(_) => SwapsTail(c.t, c.spurious);
      case LinkBehind(_) => LinksBehind(c.t);
      case Spin => Spins(c.t);
      case Critical => Leaves(c.t);
      case ClearTail => ClearsTail(c.t);
      case AwaitNext => AwaitsNext(c.t);
      case Grant(_) => Grants(c.t);
    }

    /** Any schedule of any number of threads, one atomic operation at a time. */
    method Drive(schedule: seq<Choice>)
      requires Valid()
      modifies this, nodes
      ensures Valid() && View() == Run(old(View()), schedule)
    {
      hide Inv, Step;
      ghost var start := View();
      for i := 0 to |schedule|
        invariant Valid() && View() == Run(start, schedule[..i])
        invariant forall node | node in nodes :: node in old(nodes) || fresh(node)
      {
        assert schedule[..i + 1][..i] == schedule[..i];
        assert forall k | 0 <= k < |nodes| :: nodes[k] in nodes;
        Act(schedule[i]);
      }
      assert schedule[..|schedule|] == schedule;
    }
  }
}
