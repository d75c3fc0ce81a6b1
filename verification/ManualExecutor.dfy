/**
 The single-threaded executor of executors/manual_executor.hpp over the intrusive queue.  A task is a
 tree: running it submits its children, in order, to the executor that is running it.
 */
module ManualExecutor {
  import opened Basics
  import opened IntrusiveQueue

  datatype Task = Task(id: nat, children: seq<Task>)

  /** How many tasks a forest comes to, spawned ones included. */
  function Size(forest: seq<Task>): (n: nat)
    ensures n >= |forest|
  {
    if forest == [] then 0 else 1 + Size(forest[0].children) + Size(forest[1..])
  }

  /** The order in which a queue of tasks runs: the first one, then what is left followed by its children. */
  function Order(forest: seq<Task>): seq<nat>
    decreases Size(forest)
  {
    if forest == [] then []
    else
      SizeAppend(forest[1..], forest[0].children);
      [forest[0].id] + Order(forest[1..] + forest[0].children)
  }

  lemma {:induction false} SizeAppend(a: seq<Task>, b: seq<Task>)
    ensures Size(a + b) == Size(a) + Size(b)
  {
    if a == [] {
      assert a + b == b;
    } else {
      assert (a + b)[1..] == a[1..] + b;
      SizeAppend(a[1..], b);
    }
  }

  // ---------------------------------------------------------------- level by level

  function Ids(forest: seq<Task>): (ids: seq<nat>)
    ensures |ids| == |forest|
  {
    seq(|forest|, i requires 0 <= i < |forest| => forest[i].id)
  }

  /** The tasks one level down. */
  function Children(forest: seq<Task>): seq<Task> {
    if forest == [] then [] else forest[0].children + Children(forest[1..])
  }

  lemma {:induction false} ChildrenSize(forest: seq<Task>)
    ensures Size(forest) == |forest| + Size(Children(forest))
  {
    if forest != [] {
      ChildrenSize(forest[1..]);
      SizeAppend(forest[0].children, Children(forest[1..]));
    }
  }

  lemma {:induction false} ChildrenAppend(a: seq<Task>, b: seq<Task>)
    ensures Children(a + b) == Children(a) + Children(b)
  {
    if a == [] {
      assert a + b == b;
    } else {
      assert (a + b)[1..] == a[1..] + b;
      ChildrenAppend(a[1..], b);
    }
  }

  /** All the tasks of one level, then all of the next, and so on. */
  function ByLevels(forest: seq<Task>): seq<nat>
    decreases Size(forest)
  {
    if forest == [] then []
    else
      ChildrenSize(forest);
      Ids(forest) + ByLevels(Children(forest))
  }

  /** Running the present level first, with part of the next one already waiting behind it. */
  lemma {:induction false} LevelFirst(level: seq<Task>, next: seq<Task>)
    ensures Order(level + next) == Ids(level) + Order(next + Children(level))
    decreases |level|
  {
    if level == [] {
      assert level + next == next && next + Children(level) == next;
    } else {
      var t := level[0];
      assert (level + next)[1..] + t.children == level[1..] + (next + t.children);
      LevelFirst(level[1..], next + t.children);
      assert (next + t.children) + Children(level[1..]) == next + Children(level);
      assert Ids(level) == [t.id] + Ids(level[1..]);
    }
  }

  /** The queue order is the level order of the forest. */
  lemma {:induction false} OrderIsLevels(forest: seq<Task>)
    ensures Order(forest) == ByLevels(forest)
    decreases Size(forest)
  {
    if forest != [] {
      assert forest + [] == forest && [] + Children(forest) == Children(forest);
      LevelFirst(forest, []);
      ChildrenSize(forest);
      OrderIsLevels(Children(forest));
    }
  }

  lemma {:induction false} OrderSize(forest: seq<Task>)
    ensures |Order(forest)| == Size(forest)
    decreases Size(forest)
  {
    if forest != [] {
      SizeAppend(forest[1..], forest[0].children);
      OrderSize(forest[1..] + forest[0].children);
    }
  }

  /** Every task of the forest, counted as often as it occurs in it. */
  function Occurrences(forest: seq<Task>): multiset<nat> {
    if forest == [] then multiset{}
    else multiset{forest[0].id} + Occurrences(forest[0].children) + Occurrences(forest[1..])
  }

  lemma {:induction false} OccurrencesAppend(a: seq<Task>, b: seq<Task>)
    ensures Occurrences(a + b) == Occurrences(a) + Occurrences(b)
  {
    if a == [] {
      assert a + b == b;
    } else {
      assert (a + b)[1..] == a[1..] + b;
      OccurrencesAppend(a[1..], b);
    }
  }

  /** The order runs every task of the forest exactly as often as it was submitted. */
  lemma {:induction false} OrderComplete(forest: seq<Task>)
    ensures multiset(Order(forest)) == Occurrences(forest)
    decreases Size(forest)
  {
    if forest != [] {
      SizeAppend(forest[1..], forest[0].children);
      var rest := forest[1..] + forest[0].children;
      OrderComplete(rest);
      OccurrencesAppend(forest[1..], forest[0].children);
      assert multiset([forest[0].id] + Order(rest)) == multiset{forest[0].id} + multiset(Order(rest));
    }
  }

  // ---------------------------------------------------------------- the executor

  class Executor {
    const tasks: Queue<Task>
    var size: int
    ghost var ran: seq<nat>

    /** Between calls the counter is the length of the queue. */
    ghost predicate Valid()
      reads this, tasks, tasks.nodes
    {
      tasks.Valid() && size == |tasks.nodes|
    }

    ghost function Nodes(): set<Node<Task>>
      reads this, tasks
    {
      set n | n in tasks.nodes
    }

    ghost function Pending(): seq<Task>
      reads this, tasks, tasks.nodes
    {
      tasks.Items()
    }

    /** Everything that has run, and what will run if nothing else is submitted. */
    ghost function Plan(): seq<nat>
      reads this, tasks, tasks.nodes
    {
      ran + Order(Pending())
    }

    constructor ()
      ensures Valid() && Pending() == [] && ran == [] && fresh(tasks)
    {
      tasks := new Queue();
      size, ran := 0, [];
    }

    /** 11-14 */
    method Execute(task: Task)
      requires tasks.Valid()
      modifies this, tasks, Nodes()
      ensures tasks.Valid() && size == old(size) + 1
      ensures Pending() == old(Pending()) + [task] && ran == old(ran)
      ensures fresh(Nodes() - old(Nodes()))
      ensures old(Valid()) ==> Valid()
    {
      var node := new Node(task);
      tasks.Push(node);
      size := size + 1;
    }

    /** `Run` of a task: it submits its children. */
    method RunTask(task: Task)
      requires tasks.Valid()
      modifies this, tasks, Nodes()
      ensures tasks.Valid() && size == old(size) + |task.children|
      ensures Pending() == old(Pending()) + task.children && ran == old(ran) + [task.id]
      ensures fresh(Nodes() - old(Nodes()))
    {
      ran := ran + [task.id];
      var i := 0;
      while i < |task.children|
        invariant 0 <= i <= |task.children| && tasks.Valid()
        invariant size == old(size) + i
        invariant Pending() == old(Pending()) + task.children[..i] && ran == old(ran) + [task.id]
        invariant fresh(Nodes() - old(Nodes()))
      {
        Execute(task.children[i]);
        i := i + 1;
      }
    }

    /** One iteration of the loop of `RunAtMost` (22-29): the first task leaves the queue and runs. */
    method RunFirst()
      requires tasks.Valid() && tasks.nodes != []
      modifies this, tasks, Nodes()
      ensures tasks.Valid() && fresh(Nodes() - old(Nodes()))
      ensures var t := old(Pending())[0];
        && Pending() == old(Pending())[1..] + t.children && ran == old(ran) + [t.id] && size == old(size) + |t.children|
    {
      var node := tasks.TryPop();
      assert old(Pending())[0] == node.item && Pending() == old(Pending())[1..];
      assert Nodes() <= old(Nodes());
      RunTask(node.item);
    }

    /** 20-32: the counter is corrected only after the loop. */
    method RunAtMost(limit: nat) returns (result: nat)
      requires Valid()
      modifies this, tasks, Nodes()
      ensures Valid() && fresh(Nodes() - old(Nodes()))
      ensures result == Min(|old(Pending())|, limit)
      ensures Plan() == old(Plan()) && |ran| == |old(ran)| + result
      ensures ran == old(ran) + Ids(old(Pending())[..result])
      ensures Pending() == old(Pending())[result..] + Children(old(Pending())[..result])
    {
      ghost var forest := Pending();
      NothingYet(ran, forest);
      hide Order, Children, Ids, Linked, Size;
      result := Min(size, limit);
      var i := 0;
      while i < result
        invariant 0 <= i <= result && tasks.Valid()
        invariant size - i == |tasks.nodes|
        invariant fresh(Nodes() - old(Nodes()))
        invariant ran == old(ran) + Ids(forest[..i])
        invariant Pending() == forest[i..] + Children(forest[..i])
      {
        NextPending(forest, i);
        RunFirst();
        i := i + 1;
      }
      size := size - result;
      PlanStays(old(ran), forest, result);
    }

    /** 34-36 */
    method RunNext() returns (moved: bool)
      requires Valid()
      modifies this, tasks, Nodes()
      ensures Valid() && fresh(Nodes() - old(Nodes()))
      ensures moved <==> old(Pending()) != []
      ensures Plan() == old(Plan()) && ran == old(ran) + if moved then [old(Pending())[0].id] else []
      ensures moved ==> Size(Pending()) < Size(old(Pending()))
      ensures !moved ==> Pending() == []
    {
      ghost var forest := Pending();
      var n := RunAtMost(1);
      moved := n == 1;
      if moved {
        SizeAppend(forest[1..], Children(forest[..1]));
        assert Children(forest[..1]) == forest[0].children;
      }
    }

    /** 38-40: runs exactly one level. */
    method Drain() returns (result: nat)
      requires Valid()
      modifies this, tasks, Nodes()
      ensures Valid() && fresh(Nodes() - old(Nodes()))
      ensures result == |old(Pending())| && Plan() == old(Plan())
      ensures ran == old(ran) + Ids(old(Pending())) && Pending() == Children(old(Pending()))
    {
      ghost var forest := Pending();
      result := RunAtMost(size);
      assert forest[..result] == forest;
    }

    /** 42-48: runs everything, spawned tasks included, and says how many that was. */
    method WaitIdle() returns (result: nat)
      requires Valid()
      modifies this, tasks, Nodes()
      ensures Valid() && Pending() == [] && size == 0
      ensures result == Size(old(Pending()))
      ensures ran == old(ran) + ByLevels(old(Pending()))
    {
      result := 0;
      ghost var plan := Plan();
      OrderSize(Pending());
      OrderIsLevels(Pending());
      var moved := RunNext();
      while moved
        invariant Valid() && fresh(Nodes() - old(Nodes()))
        invariant Plan() == plan && |ran| == |old(ran)| + result + if moved then 1 else 0
        invariant !moved ==> Pending() == []
        decreases moved, Size(Pending())
      {
        result := result + 1;
        moved := RunNext();
      }
    }
  }

  datatype Request = AtMost(limit: nat) | Next | Level

  /** Any mix of partial runs works through one fixed sequence, the level order of the submitted forest. */
  method Serve(executor: Executor, requests: seq<Request>)
    requires executor.Valid()
    modifies executor, executor.tasks, executor.Nodes()
    ensures executor.Valid()
    ensures old(executor.ran) <= executor.ran <= old(executor.ran) + ByLevels(old(executor.Pending()))
  {
    OrderIsLevels(executor.Pending());
    hide Order, ByLevels, Ids, Children, Size, Linked;
    var i := 0;
    while i < |requests|
      invariant 0 <= i <= |requests| && executor.Valid()
      invariant fresh(executor.Nodes() - old(executor.Nodes()))
      invariant executor.Plan() == old(executor.Plan()) && old(executor.ran) <= executor.ran
    {
      match requests[i] {
        case AtMost(limit) => var _ := executor.RunAtMost(limit);
        case Next => var _ := executor.RunNext();
        case Level => var _ := executor.Drain();
      }
      i := i + 1;
    }
  }

  /** Running the first `n` tasks of the queue changes nothing about the order of what follows. */
  lemma PlanStays(ran: seq<nat>, forest: seq<Task>, n: nat)
    requires n <= |forest|
    ensures (ran + Ids(forest[..n])) + Order(forest[n..] + Children(forest[..n])) == ran + Order(forest)
  {
    hide Order, Children, Ids;
    LevelFirst(forest[..n], forest[n..]);
    assert forest[..n] + forest[n..] == forest;
  }

  lemma NothingYet(ran: seq<nat>, forest: seq<Task>)
    ensures ran + Ids(forest[..0]) == ran && forest[0..] + Children(forest[..0]) == forest
  {
  }

  lemma NextPending(forest: seq<Task>, i: nat)
    requires i < |forest|
    ensures var queue := forest[i..] + Children(forest[..i]);
      queue[0] == forest[i] && queue[1..] + forest[i].children == forest[i + 1..] + Children(forest[..i + 1])
    ensures Children(forest[..i + 1]) == Children(forest[..i]) + forest[i].children
    ensures Ids(forest[..i + 1]) == Ids(forest[..i]) + [forest[i].id]
  {
    assert forest[..i + 1] == forest[..i] + [forest[i]];
    ChildrenAppend(forest[..i], [forest[i]]);
    assert Children([forest[i]]) == forest[i].children + Children([]);
    hide Children;
    var after := forest[i + 1..] + Children(forest[..i]);
    assert forest[i..] + Children(forest[..i]) == [forest[i]] + after;
    assert after + forest[i].children == forest[i + 1..] + (Children(forest[..i]) + forest[i].children);
  }
}
