/**
 The mutex of fibers/sync/mutex.hpp on the heap, with its intrusive queue of awaiters: the two critical
 sections of its spinlock.  What happens between them is the machine of `FiberMutex`.
 */
module FiberMutexObject {
  import opened Basics
  import Q = IntrusiveQueue

  class Mutex {
    var closed: bool
    const waiters: Q.Queue<nat>
    ghost var arrivals: seq<nat>
    ghost var grants: seq<nat>

    /** Fibers are given the mutex in the order in which they asked, and wait only while it is closed. */
    ghost predicate Valid()
      reads this, waiters, waiters.nodes
    {
      && waiters.Valid()
      && arrivals == grants + waiters.Items()
      && (waiters.nodes != [] ==> closed)
    }

    constructor ()
      ensures Valid() && !closed && arrivals == [] && fresh(waiters) && waiters.nodes == []
    {
      closed := false;
      waiters := new Q.Queue<nat>();
      arrivals, grants := [], [];
    }

    /** `Lock` (13-20): the fiber gets the open mutex, or its awaiter joins the queue. */
    method Lock(fiber: nat) returns (owned: bool)
      requires Valid()
      modifies this, waiters, waiters.nodes
      ensures Valid() && closed && arrivals == old(arrivals) + [fiber]
      ensures owned <==> !old(closed)
      ensures waiters.Items() == old(waiters.Items()) + if owned then [] else [fiber]
      ensures grants == old(grants) + if owned then [fiber] else []
      ensures forall node | node in waiters.nodes :: node in old(waiters.nodes) || fresh(node)
    {
      arrivals := arrivals + [fiber];
      owned := !closed;
      if owned {
        assert waiters.Items() == [];
        grants := grants + [fiber];
        closed := true;
      } else {
        ghost var waiting := waiters.Items();
        Join(fiber);
        assert grants + waiting + [fiber] == grants + (waiting + [fiber]);
      }
    }

    /** `queue_.Push(&awaiter)` (19-20) */
    method Join(fiber: nat)
      requires waiters.Valid()
      modifies waiters, waiters.nodes
      ensures waiters.Valid() && waiters.nodes != [] && waiters.Items() == old(waiters.Items()) + [fiber]
      ensures forall node | node in waiters.nodes :: node in old(waiters.nodes) || fresh(node)
    {
      var awaiter := new Q.Node(fiber);
      waiters.Push(awaiter);
    }

    /** `Unlock` (25-33): the first waiter is given the mutex, which stays closed, or the mutex opens. */
    method Unlock() returns (resumed: Option<nat>)
      requires Valid()
      modifies this, waiters
      ensures Valid() && arrivals == old(arrivals)
      ensures resumed == if old(waiters.nodes) == [] then None else Some(old(waiters.Items()[0]))
      ensures closed <==> resumed.Some?
      ensures grants == old(grants) + if resumed.Some? then [resumed.value] else []
      ensures old(waiters.Items()) == (if resumed.Some? then [resumed.value] else []) + waiters.Items()
      ensures forall node | node in waiters.nodes :: node in old(waiters.nodes)
    {
      if waiters.size > 0 {
        var awaiter := waiters.TryPop();
        grants := grants + [awaiter.item];
        resumed, closed := Some(awaiter.item), true;
      } else {
        closed := false;
        resumed := None;
      }
    }
  }
}
