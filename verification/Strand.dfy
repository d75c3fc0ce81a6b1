/**
 The asynchronous mutex of executors/strand.hpp as a machine of atomic steps.

 One word, `head`, is null, the closed mark, or the newest of a list of submitted tasks that ends in
 null or in the closed mark.  The submitter that finds null, or the running batch that finds new tasks
 when it is done, takes the whole list, reverses it in place and schedules it as the next batch.

 `threads` are the submitters; `batch` is the single batch object together with the worker running it.
 A task may be submitted whenever it is not queued.  Bookkeeping: `list`, `taken` and `rest` are the
 tasks linked from `head`, being reversed, and left in the batch; `end` is the mark that terminates
 `list`; `locker` is the submitter inside `Lock`; `place` says where each queued task is; `log` and
 `done` are the order of the successful compare-exchanges in `PushInStack` and of the finished tasks.
 */
module Strand {
  import opened Basics

  type Task = nat

  datatype Word = Null | Closed | Link(task: Task)

  datatype Place = Private(t: nat) | Listed | Batched

  /** A submitter: `PushInStack` (strand.hpp:101-109) and `Lock` (111-122). */
  datatype Local =
    | Idle
    | PushLoad(task: Task)
    | PushSwing(task: Task)
    | LockLoad
    | LockSwing(seen: Word)
    | LockMake(taken: Word)

  /** The batch: `Run` (24-35), `Unlock` (124-131) and the `Lock` it may fall into. */
  datatype Batch =
    | Absent
    | Scheduled(queue: Word)
    | Running(queue: Word)
    | InTask(task: Task, queue: Word)
    | Closing
    | Reload
    | Retake(seen: Word)
    | Remake(taken: Word)

  datatype State = State(
    head: Word,
    next: map<Task, Word>,
    threads: seq<Local>,
    batch: Batch,
    list: seq<Task>,
    taken: seq<Task>,
    rest: seq<Task>,
    end: Word,
    locker: Option<nat>,
    place: map<Task, Place>,
    log: seq<Task>,
    done: seq<Task>,
    fault: bool)

  /** Who moves, the task an idle submitter submits, and whether a weak compare-exchange fails for no reason. */
  datatype Choice = Submitter(t: nat, task: Task, spurious: bool) | Worker(spurious: bool)

  function Go(s: State, t: nat, l: Local): State
    requires t < |s.threads|
  {
    s.(threads := s.threads[t := l])
  }

  function Reverse(q: seq<Task>): (r: seq<Task>)
    ensures |r| == |q|
  {
    if q == [] then [] else Reverse(q[1..]) + [q[0]]
  }

  /**
   `MakeQueue` (84-92): follows the links from `w`, turning each one towards `built`.  `links` are the
   links not followed yet.
   */
  function Relink(next: map<Task, Word>, links: map<Task, Word>, w: Word, built: Word): (map<Task, Word>, Word)
    decreases |links|
  {
    if w.Link? && w.task in links then
      Relink(next[w.task := built], links - {w.task}, links[w.task], w)
    else
      (next, built)
  }

  function StepIdle(s: State, t: nat, task: Task): State
    requires t < |s.threads|
  {
    if task in s.place then s
    else Go(s.(place := s.place[task := Private(t)], next := s.next[task := Null]), t, PushLoad(task))
  }

  function StepPushLoad(s: State, t: nat): State
    requires t < |s.threads| && s.threads[t].PushLoad?
  {
    var r := s.threads[t].task;
    Go(s.(next := s.next[r := s.head]), t, PushSwing(r))
  }

  /** The compare-exchange whose expected value lives in `routine->next`. */
  function StepPushSwing(s: State, t: nat): State
    requires t < |s.threads| && s.threads[t].PushSwing?
  {
    var r := s.threads[t].task;
    if r !in s.next then s.(fault := true)
    else if s.head == s.next[r] then
      var pushed := s.(head := Link(r), list := [r] + s.list, log := s.log + [r], place := s.place[r := Listed]);
      if s.next[r].Null? then Go(pushed.(locker := Some(t)), t, LockLoad) else Go(pushed, t, Idle)
    else Go(s.(next := s.next[r := s.head]), t, PushSwing(r))
  }

  /** A task leaves the list for the batch being built. */
  function Boarded(place: map<Task, Place>): map<Task, Place> {
    map r | r in place :: if place[r].Listed? then Batched else place[r]
  }

  /** The successful compare-exchange of `Lock`: the whole list is taken. */
  function Take(s: State): State {
    s.(head := Closed, list := [], taken := s.list, end := Closed, place := Boarded(s.place))
  }

  function StepLockSwing(s: State, t: nat, spurious: bool): State
    requires t < |s.threads| && s.threads[t].LockSwing?
  {
    var seen := s.threads[t].seen;
    if s.head == seen && !spurious then Go(Take(s), t, LockMake(seen)) else Go(s, t, LockSwing(s.head))
  }

  /** Reversing the taken list and scheduling it; the batch object must be free. */
  function Schedule(s: State, w: Word): State {
    var (next', queue) := Relink(s.next, s.next, w, Null);
    s.(next := next', batch := Scheduled(queue), rest := Reverse(s.taken), taken := [])
  }

  function StepLockMake(s: State, t: nat): State
    requires t < |s.threads| && s.threads[t].LockMake?
  {
    if !s.batch.Absent? then s.(fault := true)
    else Go(Schedule(s, s.threads[t].taken).(locker := None), t, Idle)
  }

  function StepThread(s: State, c: Choice): State
    requires c.Submitter?
  {
    var t := c.t;
    if t >= |s.threads| then s
    else
      match s.threads[t]
      case Idle => StepIdle(s, t, c.task)
      case PushLoad(_) => StepPushLoad(s, t)
      case PushSwing(_) => StepPushSwing(s, t)
      case LockLoad => Go(s, t, LockSwing(s.head))
      case LockSwing(_) => StepLockSwing(s, t, c.spurious)
      case LockMake(_) => StepLockMake(s, t)
  }

  /** `stack_.TryPop()` in the batch's loop. */
  function StepRunning(s: State): State
    requires s.batch.Running?
  {
    var q := s.batch.queue;
    if !q.Link? then s.(batch := Closing)
    else if q.task !in s.next then s.(fault := true)
    else
      s.(batch := InTask(q.task, s.next[q.task]), place := s.place - {q.task},
         rest := if s.rest == [] then [] else s.rest[1..])
  }

  function StepWorker(s: State, spurious: bool): State {
    match s.batch
    case Absent => s
    case Scheduled(q) => s.(batch := Running(q))
    case Running(_) => StepRunning(s)
    case InTask(r, q) => s.(batch := Running(q), done := s.done + [r])
    case Closing => if s.head == Closed then s.(head := Null, end := Null, batch := Absent) else s.(batch := Reload)
    case Reload => s.(batch := Retake(s.head))
    case Retake(seen) => if s.head == seen && !spurious then Take(s).(batch := Remake(seen)) else s.(batch := Retake(s.head))
    case Remake(w) => Schedule(s, w)
  }

  function Step(s: State, c: Choice): State {
    match c
    case Submitter(_, _, _) => StepThread(s, c)
    case Worker(spurious) => StepWorker(s, spurious)
  }

  function Init(threads: nat): State {
    State(Null, map[], seq(threads, i => Idle), Absent, [], [], [], Null, None, map[], [], [], false)
  }

  function Run(s: State, schedule: seq<Choice>): State
    decreases |schedule|
  {
    if schedule == [] then s
    else Step(Run(s, schedule[..|schedule| - 1]), schedule[|schedule| - 1])
  }

  // ---------------------------------------------------------------- invariant

  /** From `w` the links run through exactly `tasks` and end at `end`. */
  ghost predicate Linked(next: map<Task, Word>, w: Word, tasks: seq<Task>, end: Word)
    decreases |tasks|
  {
    if tasks == [] then w == end
    else w == Link(tasks[0]) && tasks[0] in next && Linked(next, next[tasks[0]], tasks[1..], end)
  }

  ghost predicate Distinct(q: seq<Task>) {
    forall i, j | 0 <= i < j < |q| :: q[i] != q[j]
  }

  ghost predicate At(s: State, q: seq<Task>, p: Place) {
    forall i | 0 <= i < |q| :: q[i] in s.place && s.place[q[i]] == p
  }

  predicate InLock(l: Local) {
    l.LockLoad? || l.LockSwing? || l.LockMake?
  }

  predicate Taking(b: Batch) {
    b.Remake?
  }

  ghost predicate ListOk(s: State) {
    && (s.end.Null? || s.end.Closed?)
    && Linked(s.next, s.head, s.list, s.end)
    && Distinct(s.list) && At(s, s.list, Listed)
  }

  function BatchWord(b: Batch): Word {
    match b
    case Scheduled(q) => q
    case Running(q) => q
    case InTask(_, q) => q
    case _ => Null
  }

  ghost predicate RestOk(s: State) {
    && Linked(s.next, BatchWord(s.batch), s.rest, Null)
    && Distinct(s.rest) && At(s, s.rest, Batched)
    && (forall i, j | 0 <= i < |s.rest| && 0 <= j < |s.taken| :: s.rest[i] != s.taken[j])
  }

  /** The word a taker holds leads through the taken tasks. */
  ghost predicate TakenOk(s: State) {
    && Distinct(s.taken) && At(s, s.taken, Batched)
    && (s.taken != [] ==> s.batch.Remake? || (s.locker.Some? && s.locker.value < |s.threads| && s.threads[s.locker.value].LockMake?))
    && (s.batch.Remake? ==> s.taken != [] && (Linked(s.next, s.batch.taken, s.taken, Null) || Linked(s.next, s.batch.taken, s.taken, Closed)))
    && (forall t | 0 <= t < |s.threads| && s.threads[t].LockMake? ::
          s.taken != [] && (Linked(s.next, s.threads[t].taken, s.taken, Null) || Linked(s.next, s.threads[t].taken, s.taken, Closed)))
  }

  ghost predicate PrivatesOk(s: State) {
    && (forall r :: r in s.place ==> r in s.next)
    && (forall t | 0 <= t < |s.threads| && (s.threads[t].PushLoad? || s.threads[t].PushSwing?) ::
          s.threads[t].task in s.place && s.place[s.threads[t].task] == Private(t))
  }

  /** Exactly one submitter or batch is responsible for a non-null head, and none for a null one. */
  ghost predicate ResponsibleOk(s: State) {
    && (forall t | 0 <= t < |s.threads| :: InLock(s.threads[t]) <==> s.locker == Some(t))
    && (s.locker.Some? ==> s.locker.value < |s.threads|)
    && (if s.end.Null? then
          && s.batch.Absent? && (s.list == [] <==> s.locker.None?)
          && (s.locker.Some? ==> !s.threads[s.locker.value].LockMake?)
        else
          && (s.batch.Absent? <==> s.locker.Some?)
          && (s.locker.Some? ==> s.threads[s.locker.value].LockMake?)
          && ((s.batch.Reload? || s.batch.Retake?) ==> s.list != []))
  }

  function Current(b: Batch): seq<Task> {
    if b.InTask? then [b.task] else []
  }

  /** Every submitted task is finished, running, in the batch, being moved, or in the list: in that order. */
  ghost predicate Accounted(s: State) {
    s.log == s.done + Current(s.batch) + s.rest + Reverse(s.taken) + Reverse(s.list)
  }

  ghost predicate Inv(s: State) {
    && !s.fault && ListOk(s) && RestOk(s) && TakenOk(s) && PrivatesOk(s) && ResponsibleOk(s) && Accounted(s)
  }

  // ---------------------------------------------------------------- linked words

  lemma {:induction false} LinkedFrame(next: map<Task, Word>, next': map<Task, Word>, w: Word, tasks: seq<Task>, end: Word)
    requires Linked(next, w, tasks, end)
    requires forall i | 0 <= i < |tasks| :: tasks[i] in next && tasks[i] in next' && next'[tasks[i]] == next[tasks[i]]
    ensures Linked(next', w, tasks, end)
    decreases |tasks|
  {
    if tasks != [] {
      LinkedFrame(next, next', next[tasks[0]], tasks[1..], end);
    }
  }

  lemma {:induction false} LinkedIn(next: map<Task, Word>, w: Word, tasks: seq<Task>, end: Word)
    requires Linked(next, w, tasks, end)
    ensures forall i | 0 <= i < |tasks| :: tasks[i] in next
    decreases |tasks|
  {
    if tasks != [] {
      LinkedIn(next, next[tasks[0]], tasks[1..], end);
    }
  }

  /** Two disjoint runs of links, where the second is left alone by a change to the first. */
  lemma Undisturbed(next: map<Task, Word>, next': map<Task, Word>, w: Word, tasks: seq<Task>, end: Word, changed: set<Task>)
    requires Linked(next, w, tasks, end)
    requires forall r | r in next && r !in changed :: r in next' && next'[r] == next[r]
    requires forall i | 0 <= i < |tasks| :: tasks[i] !in changed
    ensures Linked(next', w, tasks, end)
  {
    LinkedIn(next, w, tasks, end);
    LinkedFrame(next, next', w, tasks, end);
  }

  /**
   `MakeQueue` reverses in place: the taken tasks, newest first, become a run of links from the oldest
   on, in front of what was built before, and no other task's link changes.
   */
  lemma {:induction false} RelinkReverses(next: map<Task, Word>, links: map<Task, Word>, w: Word, built: Word,
                                          tasks: seq<Task>, end: Word, before: seq<Task>)
    requires Linked(links, w, tasks, end) && !end.Link? && Distinct(tasks)
    requires Linked(next, built, before, Null)
    requires forall i, j | 0 <= i < |tasks| && 0 <= j < |before| :: tasks[i] != before[j]
    ensures var (next', queue) := Relink(next, links, w, built);
      && Linked(next', queue, Reverse(tasks) + before, Null)
      && (forall r | r in next :: r in next')
      && (forall r | r in next && r !in tasks :: next'[r] == next[r])
    decreases |tasks|
  {
    if tasks == [] {
      assert Reverse(tasks) + before == before;
    } else {
      var r := tasks[0];
      var next1 := next[r := built];
      LinkedFrame(next, next1, built, before, Null) by {
        LinkedIn(next, built, before, Null);
      }
      LinkedFrame(links, links - {r}, links[r], tasks[1..], end) by {
        LinkedIn(links, links[r], tasks[1..], end);
      }
      assert ([r] + before)[1..] == before;
      RelinkReverses(next1, links - {r}, links[r], w, tasks[1..], end, [r] + before);
      assert Reverse(tasks) + before == Reverse(tasks[1..]) + ([r] + before);
    }
  }

  lemma {:induction false} ReverseMembers(q: seq<Task>)
    ensures forall r :: r in Reverse(q) <==> r in q
  {
    if q != [] {
      ReverseMembers(q[1..]);
      assert forall r :: r in q <==> r == q[0] || r in q[1..];
    }
  }

  lemma {:induction false} ReverseDistinct(q: seq<Task>)
    requires Distinct(q)
    ensures Distinct(Reverse(q))
  {
    if q != [] {
      var front := Reverse(q[1..]);
      ReverseDistinct(q[1..]);
      ReverseMembers(q[1..]);
      assert q[0] !in front;
      assert Reverse(q) == front + [q[0]];
    }
  }

  // ---------------------------------------------------------------- submitters

  lemma IdleKeeps(s: State, t: nat, task: Task)
    requires Inv(s) && t < |s.threads| && s.threads[t].Idle?
    ensures Inv(StepIdle(s, t, task))
  {
    var s' := StepIdle(s, t, task);
    if task !in s.place {
      LinksSurvive(s, s', {task});
    }
  }

  /** The list, the batch and the taken tasks keep their links when only other tasks' links change. */
  lemma LinksSurvive(s: State, s': State, changed: set<Task>)
    requires ListOk(s) && RestOk(s) && TakenOk(s)
    requires forall r | r in s.next && r !in changed :: r in s'.next && s'.next[r] == s.next[r]
    requires forall r | r in changed :: r !in s.place || s.place[r].Private?
    ensures Linked(s'.next, s.head, s.list, s.end)
    ensures Linked(s'.next, BatchWord(s.batch), s.rest, Null)
    ensures forall w, e :: Linked(s.next, w, s.taken, e) ==> Linked(s'.next, w, s.taken, e)
  {
    Undisturbed(s.next, s'.next, s.head, s.list, s.end, changed);
    Undisturbed(s.next, s'.next, BatchWord(s.batch), s.rest, Null, changed);
    forall w, e | Linked(s.next, w, s.taken, e) ensures Linked(s'.next, w, s.taken, e) {
      Undisturbed(s.next, s'.next, w, s.taken, e, changed);
    }
  }

  lemma PrivateWriteKeeps(s: State, t: nat, r: Task)
    requires Inv(s) && t < |s.threads| && (s.threads[t] == PushLoad(r) || s.threads[t] == PushSwing(r))
    ensures Inv(Go(s.(next := s.next[r := s.head]), t, PushSwing(r)))
  {
    LinksSurvive(s, Go(s.(next := s.next[r := s.head]), t, PushSwing(r)), {r});
    hide Linked, Reverse, Distinct;
  }

  lemma PushKeeps(s: State, t: nat)
    requires Inv(s) && t < |s.threads| && s.threads[t].PushSwing?
    requires s.threads[t].task in s.next && s.head == s.next[s.threads[t].task]
    ensures Inv(StepPushSwing(s, t))
  {
    var r := s.threads[t].task;
    var s' := StepPushSwing(s, t);
    assert s'.list[1..] == s.list;
    assert Linked(s'.next, s'.head, s'.list, s'.end);
    assert s.head.Null? <==> s.end.Null? && s.list == [];
    hide Linked, Reverse;
    assert Accounted(s') by {
      ReversePush(s.list, r);
    }
  }

  lemma ReversePush(q: seq<Task>, r: Task)
    ensures Reverse([r] + q) == Reverse(q) + [r]
  {
    assert ([r] + q)[1..] == q;
  }

  lemma PushSwingKeeps(s: State, t: nat)
    requires Inv(s) && t < |s.threads| && s.threads[t].PushSwing?
    ensures Inv(StepPushSwing(s, t))
  {
    assert s.threads[t].task in s.next;
    hide Inv;
    if s.head == s.next[s.threads[t].task] {
      PushKeeps(s, t);
    } else {
      PrivateWriteKeeps(s, t, s.threads[t].task);
    }
  }

  lemma LockLoadKeeps(s: State, t: nat, l: Local)
    requires Inv(s) && t < |s.threads| && (s.threads[t].LockLoad? || s.threads[t].LockSwing?) && l.LockSwing?
    ensures Inv(Go(s, t, l))
  {
    hide Linked, Reverse, Distinct;
  }

  lemma ThreadTakes(s: State, t: nat)
    requires Inv(s) && t < |s.threads| && s.threads[t] == LockSwing(s.head)
    ensures Inv(Go(Take(s), t, LockMake(s.head)))
  {
    hide Reverse;
  }

  lemma WorkerTakes(s: State)
    requires Inv(s) && s.batch == Retake(s.head)
    ensures Inv(Take(s).(batch := Remake(s.head)))
  {
    hide Reverse;
  }

  /** The new batch holds the taken tasks, oldest first. */
  lemma ScheduleLinks(s: State, w: Word)
    requires ListOk(s) && TakenOk(s) && s.taken != []
    requires Linked(s.next, w, s.taken, Null) || Linked(s.next, w, s.taken, Closed)
    ensures var s' := Schedule(s, w);
      && Linked(s'.next, s'.head, s'.list, s'.end)
      && Linked(s'.next, BatchWord(s'.batch), s'.rest, Null)
      && (forall r | r in s.next :: r in s'.next)
      && Distinct(s'.rest) && At(s', s'.rest, Batched)
  {
    var end := if Linked(s.next, w, s.taken, Null) then Null else Closed;
    RelinkReverses(s.next, s.next, w, Null, s.taken, end, []);
    assert Reverse(s.taken) + [] == Reverse(s.taken);
    ReverseMembers(s.taken);
    ReverseDistinct(s.taken);
    var s' := Schedule(s, w);
    hide Relink, Reverse;
    Undisturbed(s.next, s'.next, s.head, s.list, s.end, set r | r in s.taken);
    forall i | 0 <= i < |s'.rest| ensures s'.rest[i] in s'.place && s'.place[s'.rest[i]] == Batched {
      assert s'.rest[i] in s.taken;
    }
  }

  lemma ThreadSchedules(s: State, t: nat)
    requires Inv(s) && t < |s.threads| && s.threads[t].LockMake?
    ensures s.batch.Absent? && Inv(StepLockMake(s, t))
  {
    ScheduleLinks(s, s.threads[t].taken);
    assert s.rest == [];
    hide Linked, Reverse, Distinct, At, Relink;
    assert Reverse([]) == [] by {
      ReverseMembers([]);
    }
  }

  lemma WorkerSchedules(s: State)
    requires Inv(s) && s.batch.Remake?
    ensures Inv(Schedule(s, s.batch.taken))
  {
    ScheduleLinks(s, s.batch.taken);
    assert s.rest == [];
    hide Linked, Reverse, Distinct, At, Relink;
  }

  // ---------------------------------------------------------------- the batch

  lemma RunningKeeps(s: State)
    requires Inv(s) && s.batch.Running?
    ensures Inv(StepRunning(s))
  {
    var q := s.batch.queue;
    if q.Link? {
      assert s.rest != [] && s.rest[0] == q.task;
      assert s.rest == [q.task] + s.rest[1..];
    } else {
      assert s.rest == [];
    }
    hide Reverse;
  }

  /** Steps of the batch that touch no link: starting, finishing a task, loading the head. */
  lemma BatchMoves(s: State, b: Batch, finished: seq<Task>)
    requires Inv(s)
    requires BatchWord(b) == BatchWord(s.batch) && finished + Current(b) == Current(s.batch)
    requires !s.batch.Absent? && !b.Absent? && !b.Remake? && !s.batch.Remake?
    requires b.Reload? || b.Retake? ==> s.list != []
    ensures Inv(s.(batch := b, done := s.done + finished))
  {
    hide Linked, Reverse, Distinct;
    var s' := s.(batch := b, done := s.done + finished);
    assert s.done + (finished + Current(b)) == s'.done + Current(b);
  }

  lemma WorkerStepKeeps(s: State, spurious: bool)
    requires Inv(s)
    ensures Inv(StepWorker(s, spurious))
  {
    var b := s.batch;
    assert b.Reload? || b.Retake? ==> s.list != [];
    hide Inv;
    assert s.done + [] == s.done;
    match b
    case Absent =>
    case Scheduled(q) => BatchMoves(s, Running(q), []);
    case Running(_) => RunningKeeps(s);
    case InTask(r, q) => BatchMoves(s, Running(q), [r]);
    case Closing => ClosingKeeps(s, spurious);
    case Reload => BatchMoves(s, Retake(s.head), []);
    case Retake(seen) =>
      if s.head == seen && !spurious {
        WorkerTakes(s);
      } else {
        BatchMoves(s, Retake(s.head), []);
      }
    case Remake(_) => WorkerSchedules(s);
  }

  lemma ClosingKeeps(s: State, spurious: bool)
    requires Inv(s) && s.batch.Closing?
    ensures Inv(StepWorker(s, spurious))
  {
    assert s.head == Closed <==> s.list == [];
    assert s.list == [] ==> Linked(s.next, Null, s.list, Null);
    hide Linked, Reverse, Distinct;
  }

  lemma StepKeeps(s: State, c: Choice)
    requires Inv(s)
    ensures Inv(Step(s, c)) && |Step(s, c).threads| == |s.threads|
  {
    hide Inv;
    if c.Worker? {
      WorkerStepKeeps(s, c.spurious);
    } else if c.t < |s.threads| {
      var t := c.t;
      match s.threads[t]
      case Idle => IdleKeeps(s, t, c.task);
      case PushLoad(r) => PrivateWriteKeeps(s, t, r);
      case PushSwing(_) => PushSwingKeeps(s, t);
      case LockLoad => LockLoadKeeps(s, t, LockSwing(s.head));
      case LockSwing(seen) =>
        if s.head == seen && !c.spurious {
          ThreadTakes(s, t);
        } else {
          LockLoadKeeps(s, t, LockSwing(s.head));
        }
      case LockMake(_) => ThreadSchedules(s, t);
    }
  }

  lemma {:induction false} RunKeeps(s: State, schedule: seq<Choice>)
    requires Inv(s)
    ensures Inv(Run(s, schedule)) && |Run(s, schedule).threads| == |s.threads|
    decreases |schedule|
  {
    hide Inv, Step;
    if schedule != [] {
      RunKeeps(s, schedule[..|schedule| - 1]);
      StepKeeps(Run(s, schedule[..|schedule| - 1]), schedule[|schedule| - 1]);
    }
  }

  lemma InitKeeps(threads: nat)
    ensures Inv(Init(threads))
  {
  }
}
