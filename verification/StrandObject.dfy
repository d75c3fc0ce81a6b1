/**
 The strand of executors/strand.hpp over its tasks on the heap, one method per atomic operation, with its
 in-place `MakeQueue`.  A word holds the address of a task.
 */
module StrandObject {
  import opened Basics
  import opened Strand

  /** What the next step of a submitter or of the batch relies on. */
  lemma ReadyToMove(s: State)
    requires Inv(s)
    ensures forall t | 0 <= t < |s.threads| && (s.threads[t].PushLoad? || s.threads[t].PushSwing?) :: s.threads[t].task in s.next
    ensures forall t | 0 <= t < |s.threads| && s.threads[t].LockMake? :: s.batch.Absent?
    ensures s.batch.Running? && s.batch.queue.Link? ==> s.batch.queue.task in s.next && s.rest != []
  {
    hide Reverse, Distinct;
  }

  lemma SafeToMake(s: State, w: Word)
    requires Inv(s)
    requires s.batch == Remake(w) || exists t | 0 <= t < |s.threads| :: s.threads[t] == LockMake(w)
    ensures exists end: Word :: !end.Link? && Linked(s.next, w, s.taken, end) && Distinct(s.taken)
  {
    hide Reverse;
    assert Linked(s.next, w, s.taken, Null) || Linked(s.next, w, s.taken, Closed);
    var end := if Linked(s.next, w, s.taken, Null) then Null else Closed;
    assert !end.Link? && Linked(s.next, w, s.taken, end);
  }

  /** The list a `MakeQueue` is about to reverse comes back oldest first; `RelinkReverses` with nothing built yet. */
  lemma MadeQueue(next: map<Task, Word>, w: Word, taken: seq<Task>)
    requires exists end: Word :: !end.Link? && Linked(next, w, taken, end) && Distinct(taken)
    ensures var (next', queue) := Relink(next, next, w, Null);
      && Linked(next', queue, Reverse(taken), Null)
      && forall r | r in next && r !in taken :: r in next' && next'[r] == next[r]
  {
    hide Linked, Reverse, Distinct;
    var end: Word :| !end.Link? && Linked(next, w, taken, end) && Distinct(taken);
    NothingLinked(next);
    RelinkReverses(next, next, w, Null, taken, end, []);
    assert Reverse(taken) + [] == Reverse(taken);
  }

  lemma NothingLinked(next: map<Task, Word>)
    ensures Linked(next, Null, [], Null)
  {
  }

  /** The next task of the batch is the next one in the order of submission. */
  lemma NextInOrder(s: State)
    requires Inv(s)
    ensures s.batch.Running? && s.rest != [] ==> |s.done| < |s.log| && s.log[|s.done|] == s.rest[0]
    ensures s.batch.Running? && s.batch.queue.Link? ==> s.rest != [] && s.batch.queue == Link(s.rest[0])
    ensures s.batch.InTask? ==> |s.done| < |s.log| && s.log[|s.done|] == s.batch.task
    ensures s.batch.Closing? && s.head == Closed ==> s.log == s.done
  {
    hide Distinct;
  }

  lemma ExecuteKeeps(s: State, t: nat, task: Task)
    requires Inv(s) && t < |s.threads| && s.threads[t].Idle?
    ensures Inv(StepIdle(s, t, task))
  {
    hide Inv;
    StepKeeps(s, Submitter(t, task, false));
  }

  lemma SwingKeeps(s: State, t: nat)
    requires Inv(s) && t < |s.threads| && s.threads[t].PushSwing?
    ensures Inv(StepPushSwing(s, t))
  {
    hide Inv;
    StepKeeps(s, Submitter(t, 0, false));
  }

  lemma LockKeeps(s: State, t: nat, spurious: bool)
    requires Inv(s) && t < |s.threads| && s.threads[t].LockSwing?
    ensures Inv(StepLockSwing(s, t, spurious))
  {
    hide Inv;
    StepKeeps(s, Submitter(t, 0, spurious));
  }

  lemma MakeKeeps(s: State, t: nat)
    requires Inv(s) && t < |s.threads| && s.threads[t].LockMake?
    ensures Inv(StepLockMake(s, t)) && s.batch.Absent?
  {
    ReadyToMove(s);
    hide Inv;
    StepKeeps(s, Submitter(t, 0, false));
  }

  lemma WorkKeeps(s: State, spurious: bool)
    requires Inv(s)
    ensures Inv(StepWorker(s, spurious))
  {
    hide Inv;
    StepKeeps(s, Worker(spurious));
  }

  /** `Routine`: a task with its intrusive link. */
  class Routine {
    const id: Task
    var next: Word

    constructor (id: Task)
      ensures this.id == id && next == Null
    {
      this.id := id;
      next := Null;
    }
  }

  /** Different addresses are different tasks. */
  predicate Named(routines: map<Task, Routine>) {
    forall r | r in routines :: routines[r].id == r
  }

  ghost function Links(routines: map<Task, Routine>): map<Task, Word>
    reads routines.Values
  {
    map r | r in routines :: routines[r].next
  }

  lemma LinkAt(routines: map<Task, Routine>, r: Task)
    requires r in routines || r in Links(routines)
    ensures r in routines && r in Links(routines) && Links(routines)[r] == routines[r].next
  {
  }

  lemma LinksKeys(routines: map<Task, Routine>)
    ensures Links(routines).Keys == routines.Keys
  {
  }

  /** A task is submitted only while it is not queued. */
  predicate Legal(s: State, c: Choice) {
    c.Submitter? && c.t < |s.threads| && s.threads[c.t].Idle? ==> c.task !in s.place
  }

  class StrandExecutor {
    var head: Word
    var routines: map<Task, Routine>
    var threads: seq<Local>
    var batch: Batch
    ghost var list: seq<Task>
    ghost var taken: seq<Task>
    ghost var rest: seq<Task>
    ghost var end: Word
    ghost var locker: Option<nat>
    ghost var place: map<Task, Place>
    ghost var log: seq<Task>
    ghost var done: seq<Task>

    ghost function View(): State
      reads this, routines.Values
    {
      State(head, Links(routines), threads, batch, list, taken, rest, end, locker, place, log, done, false)
    }

    ghost predicate Valid()
      reads this, routines.Values
    {
      Inv(View()) && Named(routines)
    }

    constructor (count: nat)
      ensures Valid() && View() == Init(count)
    {
      head, routines, batch := Null, map[], Absent;
      threads := seq(count, i => Idle);
      list, taken, rest, end, locker, place, log, done := [], [], [], Null, None, map[], [], [];
      new;
      assert Links(routines) == map[];
      InitKeeps(count);
    }

    method SetNext(r: Task, routine: Routine, next: Word)
      requires Named(routines) && r in routines && routines[r] == routine
      modifies routine`next
      ensures routine.next == next && Links(routines) == old(Links(routines))[r := next]
    {
      routine.next := next;
    }

    /** The task exists, and its link is null. */
    method Register(task: Task)
      requires Named(routines)
      modifies this`routines, routines.Values
      ensures Named(routines) && task in routines && Links(routines) == old(Links(routines))[task := Null]
      ensures forall r | r in routines && r != task :: r in old(routines) && routines[r] == old(routines)[r]
      ensures if task in old(routines) then routines == old(routines) else fresh(routines[task])
    {
      if task !in routines {
        var routine := new Routine(task);
        routines := routines[task := routine];
      } else {
        SetNext(task, routines[task], Null);
      }
    }

    /** `Execute(routine)` is called with a task that is not queued (94-97). */
    method Executes(t: nat, task: Task)
      requires Valid() && t < |threads| && threads[t].Idle? && task !in place
      modifies this, routines.Values
      ensures Valid() && View() == StepIdle(old(View()), t, task)
      ensures task in routines && log == old(log) && forall r | r in routines && r != task :: r in old(routines) && routines[r] == old(routines)[r]
      ensures (if task in old(routines) then routines == old(routines) else fresh(routines[task]))
    {
      hide Inv, Named, Links;
      ExecuteKeeps(View(), t, task);
      place := place[task := Private(t)];
      Register(task);
      threads := threads[t := PushLoad(task)];
    }

    /** `routine->next = stack_head_.load()` (102) */
    method PushLoads(t: nat)
      requires Valid() && t < |threads| && threads[t].PushLoad?
      modifies this, routines.Values
      ensures Valid() && View() == StepPushLoad(old(View()), t) && routines == old(routines)
    {
      hide Inv, Links, Named;
      LinksKeys(routines);
      StepKeeps(View(), Submitter(t, 0, false));
      ReadyToMove(View());
      var r := threads[t].task;
      SetNext(r, routines[r], head);
      threads := threads[t := PushSwing(r)];
    }

    /** The compare-exchange of `PushInStack` and the test of its result (104-108, 95-98) */
    method PushSwings(t: nat)
      requires Valid() && t < |threads| && threads[t].PushSwing?
      modifies this, routines.Values
      ensures Valid() && View() == StepPushSwing(old(View()), t) && routines == old(routines)
      ensures var r := old(threads)[t].task;
        && r in routines
        && (if old(head) == old(routines[r].next) then
              head == Link(r) && log == old(log) + [r] && list == [r] + old(list) && (threads[t] == if old(head).Null? then LockLoad else Idle)
            else head == old(head) && routines[r].next == head && log == old(log) && threads[t] == PushSwing(r))
    {
      hide Inv, Named, Links;
      SwingKeeps(View(), t);
      ReadyToMove(View());
      LinkAt(routines, threads[t].task);
      var r := threads[t].task;
      var result := routines[r].next;
      if head == result {
        head := Link(r);
        list, log, place := [r] + list, log + [r], place[r := Listed];
        if result.Null? {
          locker := Some(t);
          threads := threads[t := LockLoad];
        } else {
          threads := threads[t := Idle];
        }
      } else {
        SetNext(r, routines[r], head);
        threads := threads[t := PushSwing(r)];
      }
    }

    /** `stack_head_.load()` in `Lock` (112) */
    method LockLoads(t: nat)
      requires Valid() && t < |threads| && threads[t].LockLoad?
      modifies this`threads
      ensures Valid() && View() == Go(old(View()), t, LockSwing(old(head)))
    {
      hide Inv;
      StepKeeps(View(), Submitter(t, 0, false));
      threads := threads[t := LockSwing(head)];
    }

    /** The weak compare-exchange of `Lock` (113-115) */
    method LockSwings(t: nat, spurious: bool)
      requires Valid() && t < |threads| && threads[t].LockSwing?
      modifies this
      ensures Valid() && View() == StepLockSwing(old(View()), t, spurious) && routines == old(routines)
      ensures if old(head) == old(threads)[t].seen && !spurious
              then head == Closed && taken == old(list) && list == [] && threads[t] == LockMake(old(head))
              else head == old(head) && list == old(list) && threads[t] == LockSwing(head)
    {
      hide Inv, Named, Links, Boarded;
      LockKeeps(View(), t, spurious);
      var seen := threads[t].seen;
      if head == seen && !spurious {
        head := Closed;
        list, taken, end, place := [], list, Closed, Boarded(place);
        threads := threads[t := LockMake(seen)];
      } else {
        threads := threads[t := LockSwing(head)];
      }
    }

    /**
     `MakeQueue` (84-92): pops the taken list into a new stack by rewriting every link once.  The tasks taken
     come back oldest first, and no other task's link changes.
     */
    method MakeQueue(w: Word) returns (queue: Word)
      requires Named(routines)
      requires exists end: Word :: !end.Link? && Linked(Links(routines), w, taken, end) && Distinct(taken)
      modifies routines.Values
      ensures (Links(routines), queue) == Relink(old(Links(routines)), old(Links(routines)), w, Null)
      ensures Linked(Links(routines), queue, Reverse(taken), Null)
      ensures forall r | r in routines && r !in taken :: routines[r].next == old(routines[r].next)
    {
      ghost var mark: Word :| !mark.Link? && Linked(Links(routines), w, taken, mark) && Distinct(taken);
      LinkedIn(Links(routines), w, taken, mark);
      MadeQueue(Links(routines), w, taken);
      ghost var start := Links(routines);
      ghost var links := start;
      ghost var left := taken;
      var current := w;
      queue := Null;
      while current.Link?
        invariant Relink(start, start, w, Null) == Relink(Links(routines), links, current, queue)
        invariant Linked(links, current, left, mark) && Distinct(left)
        invariant forall i | 0 <= i < |left| :: left[i] in links && left[i] in routines && routines[left[i]].next == links[left[i]]
        decreases |left|
      {
        var r := current.task;
        var after := routines[r].next;
        LinkedFrame(links, links - {r}, links[r], left[1..], mark);
        links := links - {r};
        left := left[1..];
        SetNext(r, routines[r], queue);
        queue := current;
        current := after;
      }
    }

    /** Building the batch and handing it to the executor (118-121) */
    method LockMakes(t: nat)
      requires Valid() && t < |threads| && threads[t].LockMake?
      modifies this, routines.Values
      ensures Valid() && View() == StepLockMake(old(View()), t) && routines == old(routines)
      ensures batch.Scheduled? && rest == Reverse(old(taken)) && Linked(Links(routines), batch.queue, rest, Null)
    {
      hide Inv, Named, Links, Linked, Distinct, Relink, Reverse;
      MakeKeeps(View(), t);
      SafeToMake(View(), threads[t].taken);
      var queue := MakeQueue(threads[t].taken);
      batch := Scheduled(queue);
      rest, taken, locker := Reverse(taken), [], None;
      threads := threads[t := Idle];
    }

    /**
     One step of the worker that runs the batch: `TasksBatch::Run` and `Unlock` (24-35, 124-131).  The task it
     starts is the next one in the order of submission, and it leaves when every task submitted has run.
     */
    method Works(spurious: bool)
      requires Valid()
      modifies this, routines.Values
      ensures Valid() && View() == StepWorker(old(View()), spurious) && routines == old(routines)
      ensures batch.InTask? ==> |done| < |log| && batch.task == log[|done|]
      ensures old(batch).InTask? ==> |old(done)| < |log| && done == old(done) + [log[|old(done)|]]
      ensures batch.Absent? && !old(batch).Absent? ==> head == Null && done == log
    {
      hide Inv, Named, Links, Linked, Distinct, Reverse, Schedule;
      match batch
      case Absent =>
      case Scheduled(_) => Passes();
      case Running(_) => Starts();
      case InTask(_, _) => Finishes();
      case Closing => Closes();
      case Reload => Passes();
      case Retake(_) => Retakes(spurious);
      case Remake(_) => Rebuilds();
    }

    /** The worker takes up the batch, or reads the head again (112). */
    method Passes()
      requires Valid() && (batch.Scheduled? || batch.Reload?)
      modifies this`batch
      ensures Valid() && View() == StepWorker(old(View()), false)
      ensures batch.Running? || batch.Retake?
    {
      hide Inv, Named, Links;
      WorkKeeps(View(), false);
      batch := if batch.Scheduled? then Running(batch.queue) else Retake(head);
    }

    /** A task has run (28). */
    method Finishes()
      requires Valid() && batch.InTask?
      modifies this`batch, this`done
      ensures Valid() && View() == StepWorker(old(View()), false)
      ensures |old(done)| < |log| && done == old(done) + [log[|old(done)|]] && batch.Running?
    {
      hide Inv, Named, Links;
      WorkKeeps(View(), false);
      NextInOrder(View());
      done := done + [batch.task];
      batch := Running(batch.queue);
    }

    /** The compare-exchange of `Unlock` (125-128): the strand is open only when everything has run. */
    method Closes()
      requires Valid() && batch.Closing?
      modifies this`batch, this`head, this`end
      ensures Valid() && View() == StepWorker(old(View()), false)
      ensures if old(head) == Closed then batch == Absent && head == Null && done == log else batch == Reload && head == old(head)
    {
      hide Inv, Named, Links;
      WorkKeeps(View(), false);
      NextInOrder(View());
      if head == Closed {
        head, end, batch := Null, Null, Absent;
      } else {
        batch := Reload;
      }
    }

    /** The weak compare-exchange of `Lock` in the worker (113-115). */
    method Retakes(spurious: bool)
      requires Valid() && batch.Retake?
      modifies this`batch, this`head, this`list, this`taken, this`end, this`place
      ensures Valid() && View() == StepWorker(old(View()), spurious)
      ensures if old(head) == old(batch).seen && !spurious
              then head == Closed && taken == old(list) && list == [] && batch == Remake(old(head))
              else head == old(head) && list == old(list) && batch == Retake(head)
    {
      hide Inv, Named, Links, Boarded;
      WorkKeeps(View(), spurious);
      var seen := batch.seen;
      if head == seen && !spurious {
        head := Closed;
        list, taken, end, place := [], list, Closed, Boarded(place);
        batch := Remake(seen);
      } else {
        batch := Retake(head);
      }
    }

    /** `stack_.TryPop()` in the batch's loop (26-31). */
    method Starts()
      requires Valid() && batch.Running?
      modifies this`place, this`rest, this`batch
      ensures Valid() && View() == StepRunning(old(View()))
      ensures batch.InTask? ==> |done| < |log| && batch.task == log[|done|] && old(rest) == [batch.task] + rest
      ensures batch.Closing? || batch.InTask?
    {
      hide Inv, Named, Links;
      WorkKeeps(View(), false);
      ReadyToMove(View());
      NextInOrder(View());
      var q := batch.queue;
      if q.Link? {
        LinkAt(routines, q.task);
        place, rest := place - {q.task}, rest[1..];
        batch := InTask(q.task, routines[q.task].next);
      } else {
        batch := Closing;
      }
    }

    /** The batch that found new tasks is rebuilt from them (126-130). */
    method Rebuilds()
      requires Valid() && batch.Remake?
      modifies this`batch, this`rest, this`taken, routines.Values
      ensures Valid() && View() == Schedule(old(View()), old(batch).taken)
      ensures batch.Scheduled? && rest == Reverse(old(taken)) && Linked(Links(routines), batch.queue, rest, Null)
    {
      hide Inv, Named, Links, Linked, Distinct, Relink, Reverse;
      WorkKeeps(View(), false);
      SafeToMake(View(), batch.taken);
      var queue := MakeQueue(batch.taken);
      batch := Scheduled(queue);
      rest, taken := Reverse(taken), [];
    }

    /** Whatever the scheduler picks; the clients submit only tasks that are not queued. */
    method Act(c: Choice)
      requires Valid() && Legal(View(), c)
      modifies this, routines.Values
      ensures Valid() && View() == Step(old(View()), c)
      ensures forall r | r in routines :: (r in old(routines) && routines[r] == old(routines)[r]) || fresh(routines[r])
    {
      hide Inv, Links, Named;
      if c.Worker? {
        Works(c.spurious);
        return;
      }
      if c.t >= |threads| {
        return;
      }
      match threads[c.t]
      case Idle => Executes(c.t, c.task);
      case PushLoad(_) => PushLoads(c.t);
      case PushSwing(_) => PushSwings(c.t);
      case LockLoad => LockLoads(c.t);
      case LockSwing(_) => LockSwings(c.t, c.spurious);
      case LockMake(_) => LockMakes(c.t);
    }

    /** Any schedule of the submitters and the batch, one atomic operation at a time. */
    method Drive(schedule: seq<Choice>)
      requires Valid() && forall k | 0 <= k < |schedule| :: Legal(Run(View(), schedule[..k]), schedule[k])
      modifies this, routines.Values
      ensures Valid() && View() == Run(old(View()), schedule)
    {
      hide Inv, Step, Links, Named;
      ghost var start := View();
      for k := 0 to |schedule|
        invariant Valid() && View() == Run(start, schedule[..k])
        invariant forall r | r in routines :: (r in old(routines) && routines[r] == old(routines)[r]) || fresh(routines[r])
      {
        assert schedule[..k + 1][..k] == schedule[..k];
        assert forall routine | routine in routines.Values :: routine in old(routines).Values || fresh(routine);
        Act(schedule[k]);
      }
      assert schedule[..|schedule|] == schedule;
    }
  }
}
