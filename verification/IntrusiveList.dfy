/** The doubly linked intrusive list of intrusive/structures/list.hpp, on heap nodes. */
module IntrusiveList {

  /** `BidirectionalListNode`; `id` names the object it is embedded in. */
  class Node {
    const id: nat
    var next: Node?
    var prev: Node?

    constructor (id: nat)
      ensures this.id == id && next == null && prev == null
    {
      this.id := id;
      next, prev := null, null;
    }
  }

  /** Both directions agree along exactly `nodes`. */
  ghost predicate Linked(nodes: seq<Node>)
    reads nodes
  {
    && (nodes != [] ==> nodes[0].prev == null)
    && (forall i | 0 < i < |nodes| :: nodes[i].prev == nodes[i - 1])
    && Chained(nodes)
  }

  /** The forward links run through exactly `nodes` and end in null. */
  ghost predicate Chained(nodes: seq<Node>)
    reads nodes
  {
    && (nodes != [] ==> nodes[|nodes| - 1].next == null)
    && (forall i | 0 <= i < |nodes| - 1 :: nodes[i].next == nodes[i + 1])
    && (forall i, j | 0 <= i < j < |nodes| :: nodes[i] != nodes[j])
  }

  function Without<T>(s: seq<T>, i: nat): (r: seq<T>)
    requires i < |s|
  {
    s[..i] + s[i + 1..]
  }

  class List {
    var head: Node?
    var tail: Node?
    var size: nat
    ghost var nodes: seq<Node>
    ghost var loop: bool

    ghost predicate Valid()
      reads this, nodes
    {
      Walkable() && !loop && Linked(nodes) && size == |nodes|
    }

    /**
     What `PushBack` and `TryPopFront` can make of a list: forward links through `nodes` from `head` to `tail`,
     or, when `loop` says so, a single node that is its own successor.  The size is whatever it is.
     */
    ghost predicate Walkable()
      reads this, nodes
    {
      && head == (if nodes == [] then null else nodes[0])
      && tail == (if nodes == [] then null else nodes[|nodes| - 1])
      && (nodes == [] <==> size == 0)
      && if loop then |nodes| == 1 && nodes[0].next == nodes[0] else Chained(nodes)
    }

    constructor ()
      ensures Valid() && nodes == [] && size == 0 && !loop
    {
      head, tail, size, nodes, loop := null, null, 0, [], false;
    }

    /** 24-39 */
    method PushFront(node: Node)
      requires Valid() && node !in nodes
      modifies this, node, nodes
      ensures Valid() && nodes == [node] + old(nodes)
    {
      if size == 0 {
        size := 1;
        node.next, node.prev := null, null;
        head, tail := node, node;
        nodes := [node];
        return;
      }
      size := size + 1;
      node.next := head;
      node.prev := null;
      head.prev := node;
      head := node;
      nodes := [node] + nodes;
    }

    /**
     41-51.  Whatever the links are, the tail is linked to the node and the node is the new tail; an empty list falls
     through after `PushFront`, and the node is appended to itself and counted twice.  The result is a list if and
     only if there was a node before.
     */
    method PushBack(node: Node)
      requires if size == 0 then head == tail == null else tail != null
      modifies this, node, (if tail == null then {} else {tail})`next
      ensures head == (if old(size) == 0 then node else old(head)) && tail == node
      ensures size == old(size) + if old(size) == 0 then 2 else 1
      ensures var last := if old(size) == 0 then node else old(tail); last.next == node && (last != node ==> node.next == null)
      ensures old(Walkable()) && node !in old(nodes) ==>
        && Walkable() && nodes == old(nodes) + [node]
        && (loop <==> old(nodes) == [])
        && (old(Valid()) ==> (Valid() <==> old(nodes) != []))
    {
      ghost var before := nodes;
      if size == 0 {
        nodes, loop := [], false;
        PushFront(node);
      } else {
        nodes := nodes + [node];
      }
      size := size + 1;
      node.next := null;
      node.prev := tail;
      tail.next := node;
      tail := node;
      loop := before == [];
    }

    /**
     54-72: null when the size is 0, and otherwise the node at the head, whatever the links are; if more are counted
     the list goes on behind it, where there must be a node.
     */
    method TryPopFront() returns (node: Node?)
      requires if size == 0 then head == tail == null else head != null
      requires size > 1 ==> head.next != null
      modifies this, (if size > 1 then {head.next} else {})`prev
      ensures node == old(head)
      ensures if old(size) <= 1 then size == 0 && head == tail == null
              else size == old(size) - 1 && head == old(head.next) && tail == old(tail)
      ensures old(Walkable()) && (old(|nodes|) == 1 && old(size) > 1 ==> old(loop)) && (old(|nodes|) > 1 ==> old(size) > 1) ==>
        && Walkable()
        && nodes == (if old(size) <= 1 then [] else if old(loop) then old(nodes) else old(nodes)[1..])
        && (loop <==> old(loop) && old(size) > 1)
      ensures old(Valid()) ==> Valid()
    {
      if size == 0 {
        nodes, loop := [], false;
        return null;
      }
      ghost var walks := Walkable();
      size := size - 1;
      node := head;
      if size == 0 {
        head, tail, nodes, loop := null, null, [], false;
        return;
      }
      assert walks && |nodes| > 1 ==> nodes[0].next == nodes[1];
      head := head.next;
      head.prev := null;
      if !loop {
        nodes := if nodes == [] then [] else nodes[1..];
      }
    }

    /** 74-92 */
    method TryPopBack() returns (node: Node?)
      requires Valid()
      modifies this, nodes
      ensures Valid()
      ensures old(nodes) == [] ==> node == null && nodes == []
      ensures old(nodes) != [] ==> node != null && old(nodes) == nodes + [node]
    {
      if size == 0 {
        return null;
      }
      size := size - 1;
      if size == 0 {
        node := head;
        head, tail, nodes := null, null, [];
        return;
      }
      node := tail;
      assert nodes[|nodes| - 1].prev == nodes[|nodes| - 2];
      tail := tail.prev;
      tail.next := null;
      nodes := nodes[..|nodes| - 1];
    }

    /** 94-114: takes out the node at any position; `i` is where it is. */
    method Unlink(node: Node?, ghost i: nat)
      requires Valid() && (node != null ==> i < |nodes| && nodes[i] == node)
      modifies this, nodes
      ensures Valid() && nodes == if node == null then old(nodes) else Without(old(nodes), i)
    {
      if node == null {
        return;
      }
      ghost var before := nodes;
      if node == head {
        assert |nodes| > 1 ==> head.next == nodes[1];
        var _ := TryPopFront();
        assert nodes == Without(before, i);
        return;
      }
      if node == tail {
        var _ := TryPopBack();
        assert nodes == Without(before, i);
        return;
      }
      assert 0 < i < |nodes| - 1 && nodes[i].prev == nodes[i - 1] && nodes[i].next == nodes[i + 1];
      var prev, next := node.prev, node.next;
      prev.next := next;
      next.prev := prev;
      size := size - 1;
      nodes := Without(nodes, i);
    }
  }

  /** Two pops after a `PushBack` on an empty list hand out the same node twice; only then is the list empty. */
  method PushBackDeliversTwice(list: List, node: Node) returns (first: Node?, second: Node?, third: Node?)
    requires list.Valid() && list.nodes == []
    modifies list, node
    ensures first == second == node && third == null && list.Valid() && list.nodes == []
  {
    list.PushBack(node);
    first := list.TryPopFront();
    second := list.TryPopFront();
    third := list.TryPopFront();
  }

  /**
   With two nodes pushed onto an empty list, the first pop leaves a list that claims a node behind its
   last one: its next pop would follow the null link of `head`.
   */
  method TwoWaitersMiscounted(list: List, c: Node, d: Node) returns (first: Node?)
    requires list.Valid() && list.nodes == [] && c != d
    modifies list, c, d
    ensures first == c && list.head == d && d.next == null && list.size == 2
  {
    list.PushBack(c);
    list.PushBack(d);
    first := list.TryPopFront();
  }
}
