/**
 The global queue of executors/thread_pool/with_waitidle/thread_pool.cpp on the heap: the three critical
 sections of `global_queue_mutex_`, on the links of the tasks themselves.
 */
module ThreadPoolQueue {
  import opened Basics
  import opened IntrusiveQueue
  import P = ThreadPool

  /** 112-115 */
  method PushRoutine<T>(queue: Queue<T>, routine: Node<T>)
    requires queue.Valid() && routine !in queue.nodes
    modifies queue, routine, queue.nodes
    ensures queue.Valid() && queue.nodes == old(queue.nodes) + [routine]
  {
    queue.Push(routine);
  }

  /** The end of an overflow (135-138): what the worker grabbed from its ring follows what was there. */
  method TakeIn<T>(queue: Queue<T>, grab: Queue<T>)
    requires queue.Valid() && grab.Valid() && grab != queue
    requires forall i, j | 0 <= i < |queue.nodes| && 0 <= j < |grab.nodes| :: queue.nodes[i] != grab.nodes[j]
    modifies queue, grab, queue.nodes
    ensures queue.Valid() && grab.Valid() && queue.nodes == old(queue.nodes) + old(grab.nodes) && grab.nodes == []
  {
    if grab.size != 0 {
      queue.PushQueue(grab);
    }
  }

  /** 223 */
  method GrabbedCount(waiting: nat, workers: nat) returns (count: nat)
    requires workers > 0
    ensures P.FairShare(count, waiting, workers) && count <= waiting
  {
    count := Min(P.LOCAL_QUEUE_SIZE / 2, waiting / workers);
    P.ShareIsFair(waiting, workers);
  }

  /**
   `TryTakeRoutineFromGlobalQueue` up to its unlock (221-235): the first task, and for a worker whose own ring
   is empty its share of the others, relinked into a list of its own in their order.
   */
  method TryTake<T>(queue: Queue<T>, workers: nat, grab: bool) returns (result: Node?<T>, grabbed: Queue<T>)
    requires queue.Valid() && workers > 0
    modifies queue, queue.nodes
    ensures queue.Valid() && grabbed.Valid() && fresh(grabbed)
    ensures result == null <==> old(queue.nodes) == []
    ensures result == null ==> grabbed.nodes == [] && queue.nodes == []
    ensures result != null ==> old(queue.nodes) == [result] + grabbed.nodes + queue.nodes
    ensures result != null && grab ==> P.FairShare(|grabbed.nodes|, |old(queue.nodes)| - 1, workers)
    ensures !grab ==> grabbed.nodes == []
  {
    hide Linked, P.FairShare;
    ghost var all := queue.nodes;
    Shape(queue);
    grabbed := new Queue<T>();
    result := queue.TryPop();
    assert result != null ==> queue.nodes == all[1..];
    var count := GrabbedCount(queue.size, workers);
    if result == null || !grab || count == 0 {
      return;
    }
    Shape(queue);
    MoveShare(all, count, queue, grabbed);
    assert all == [all[0]] + all[1..count + 1] + all[count + 1..];
  }

  /** The loop (231-233). */
  method MoveShare<T>(ghost all: seq<Node<T>>, count: nat, queue: Queue<T>, grabbed: Queue<T>)
    requires queue.Valid() && grabbed.Valid() && grabbed != queue && count < |all|
    requires grabbed.nodes == [] && queue.nodes == all[1..]
    requires forall i, j | 0 <= i < j < |all| :: all[i] != all[j]
    modifies queue, grabbed, all
    ensures queue.Valid() && grabbed.Valid() && grabbed.nodes == all[1..count + 1] && queue.nodes == all[count + 1..]
  {
    hide Linked;
    var i := 0;
    while i < count
      invariant 0 <= i <= count && queue.Valid() && grabbed.Valid()
      invariant grabbed.nodes == all[1..i + 1] && queue.nodes == all[i + 1..]
    {
      MoveOne(all, i, queue, grabbed);
      i := i + 1;
    }
  }

  lemma Shape<T>(queue: Queue<T>)
    requires queue.Valid()
    ensures queue.size == |queue.nodes| && (queue.head != null <==> queue.nodes != [])
    ensures forall i, j | 0 <= i < j < |queue.nodes| :: queue.nodes[i] != queue.nodes[j]
  {
  }

  /** One round of the loop (231-233): the node at `i + 1` changes over. */
  method MoveOne<T>(ghost all: seq<Node<T>>, ghost i: nat, queue: Queue<T>, grabbed: Queue<T>)
    requires queue.Valid() && grabbed.Valid() && grabbed != queue && i + 1 < |all|
    requires grabbed.nodes == all[1..i + 1] && queue.nodes == all[i + 1..]
    requires forall i, j | 0 <= i < j < |all| :: all[i] != all[j]
    modifies queue, grabbed, all
    ensures queue.Valid() && grabbed.Valid() && grabbed.nodes == all[1..i + 2] && queue.nodes == all[i + 2..]
  {
    Shape(queue);
    var routine := queue.TryPop();
    ghost var rest := queue.nodes;
    assert routine == all[i + 1] && rest == all[i + 2..];
    assert forall k | 0 <= k < |rest| :: rest[k] == all[i + 2 + k];
    assert forall k | 0 <= k < |grabbed.nodes| :: grabbed.nodes[k] == all[k + 1];
    assert all[1..i + 1] + [all[i + 1]] == all[1..i + 2];
    PushElsewhere(queue, grabbed, routine);
  }

  /** Pushing a node onto one queue leaves another one with other nodes as it is. */
  method PushElsewhere<T>(ghost queue: Queue<T>, grabbed: Queue<T>, routine: Node<T>)
    requires queue.Valid() && grabbed.Valid() && grabbed != queue && routine !in grabbed.nodes && routine !in queue.nodes
    requires forall k | 0 <= k < |queue.nodes| :: queue.nodes[k] !in grabbed.nodes
    modifies grabbed, routine, grabbed.nodes
    ensures queue.Valid() && queue.nodes == old(queue.nodes) && grabbed.Valid() && grabbed.nodes == old(grabbed.nodes) + [routine]
  {
    grabbed.Push(routine);
    assert forall k | 0 <= k < |queue.nodes| :: queue.nodes[k] != routine && unchanged(queue.nodes[k]);
  }
}
