/** The single-threaded intrusive queue of intrusive/structures/queue.hpp, on heap nodes linked by `next`. */
module IntrusiveQueue {

  /** `SinglyDirectedListNode` with the object it is embedded in. */
  class Node<T> {
    const item: T
    var next: Node?<T>

    constructor (item: T)
      ensures this.item == item && next == null
    {
      this.item := item;
      next := null;
    }
  }

  /** `head` starts a chain of `next` links through exactly `nodes`, which ends in null. */
  ghost predicate Linked<T>(head: Node?<T>, nodes: seq<Node<T>>)
    reads nodes
  {
    && (nodes == [] <==> head == null)
    && (nodes != [] ==> head == nodes[0] && nodes[|nodes| - 1].next == null)
    && (forall i | 0 <= i < |nodes| - 1 :: nodes[i].next == nodes[i + 1])
    && (forall i, j | 0 <= i < j < |nodes| :: nodes[i] != nodes[j])
  }

  class Queue<T> {
    var head: Node?<T>
    var tail: Node?<T>
    var size: nat
    ghost var nodes: seq<Node<T>>

    ghost predicate Valid()
      reads this, nodes
    {
      && Linked(head, nodes)
      && size == |nodes|
      && tail == if nodes == [] then null else nodes[|nodes| - 1]
    }

    /** The items in order. */
    ghost function Items(): (items: seq<T>)
      reads this, nodes
      ensures |items| == |nodes|
    {
      seq(|nodes|, i requires 0 <= i < |nodes| reads this, nodes => nodes[i].item)
    }

    constructor ()
      ensures Valid() && nodes == []
    {
      head, tail, size, nodes := null, null, 0, [];
    }

    /** 24-40: null is ignored; a node must not be in the queue already. */
    method Push(node: Node?<T>)
      requires Valid() && node !in nodes
      modifies this, node, nodes
      ensures Valid()
      ensures nodes == if node == null then old(nodes) else old(nodes) + [node]
      ensures Items() == if node == null then old(Items()) else old(Items()) + [node.item]
    {
      if node == null {
        return;
      }
      node.next := null;
      if head == null {
        head := node;
        tail := node;
      } else {
        tail.next := node;
        tail := node;
      }
      nodes := nodes + [node];
      size := size + 1;
    }

    /** 43-62: the other queue's nodes move to the end of this one, which leaves the other empty. */
    method PushQueue(other: Queue<T>)
      requires Valid() && other.Valid() && other != this
      requires forall i, j | 0 <= i < |nodes| && 0 <= j < |other.nodes| :: nodes[i] != other.nodes[j]
      modifies this, other, nodes
      ensures Valid() && other.Valid()
      ensures nodes == old(nodes) + old(other.nodes) && other.nodes == []
      ensures Items() == old(Items()) + old(other.Items())
    {
      if other.size == 0 {
        return;
      }
      if size == 0 {
        head, tail, size := other.head, other.tail, other.size;
      } else {
        tail.next := other.head;
        tail := other.tail;
        size := size + other.size;
      }
      nodes := nodes + other.nodes;
      other.head, other.tail, other.size, other.nodes := null, null, 0, [];
    }

    /**
     65-82: null when empty, and otherwise the first node.  Whatever the links are, the queue goes on at the
     node behind the one it hands out, or is empty when that was the tail.
     */
    method TryPop() returns (node: Node?<T>)
      requires head != null ==> size > 0
      modifies this
      ensures node == old(head)
      ensures head == if old(head) == null || old(head) == old(tail) then null else old(head.next)
      ensures size == if old(head) == null then old(size) else old(size) - 1
      ensures old(Valid()) ==>
        && Valid()
        && (node == null <==> old(nodes) == [])
        && (node == null ==> nodes == [])
        && (node != null ==> old(nodes) == [node] + nodes && old(Items()) == [node.item] + Items() && node !in nodes)
    {
      if head == null {
        return null;
      }
      ghost var valid := Valid();
      assert valid && head == tail ==> |nodes| == 1;
      assert valid && head != tail ==> nodes[0].next == nodes[1];
      node := head;
      size := size - 1;
      if head == tail {
        head, tail := null, null;
      } else {
        head := head.next;
      }
      nodes := if nodes == [] then [] else nodes[1..];
    }

    /** 84-88: the nodes are forgotten, not touched. */
    method Clear()
      modifies this
      ensures Valid() && nodes == []
    {
      head, tail, size, nodes := null, null, 0, [];
    }
  }

  /**
   A link cleared from outside costs everything behind it: the pop that follows it leaves a queue that answers
   null for good, although its size is not zero and whatever is done to the link afterwards.
   */
  method CutListLosesTheRest<T>(queue: Queue<T>, first: Node<T>) returns (popped: Node?<T>, after: Node?<T>)
    requires queue.Valid() && |queue.nodes| > 1 && queue.nodes[0] == first
    modifies queue, first
    ensures popped == first && after == null && queue.head == null && queue.size == old(|queue.nodes|) - 1 > 0
    ensures first.next == old(first.next)
  {
    var second := first.next;
    first.next := null;
    popped := queue.TryPop();
    first.next := second;
    after := queue.TryPop();
  }
}
