/** What the strand guarantees in every run. */
module StrandTheorems {
  import opened Basics
  import opened Strand

  /**
   Tasks run one at a time, in submission order, each once: the finished tasks and the running one are a
   prefix of the submission log, and everything not started is in the batch, on its way there, or in the
   list.  No batch is ever scheduled over one that is not finished.
   */
  lemma InOrderOneAtATime(threads: nat, schedule: seq<Choice>)
    ensures var s := Run(Init(threads), schedule);
      && !s.fault
      && s.done + Current(s.batch) <= s.log
      && s.log == s.done + Current(s.batch) + s.rest + Reverse(s.taken) + Reverse(s.list)
  {
    hide Linked, Reverse, Distinct;
    InitKeeps(threads);
    RunKeeps(Init(threads), schedule);
  }

  /**
   A head that is not null always has exactly one submitter or batch responsible for it, and a null one
   has none.
   */
  lemma OneResponsible(threads: nat, schedule: seq<Choice>, t: nat)
    requires t < threads
    ensures var s := Run(Init(threads), schedule);
      && |s.threads| == threads
      && (s.head.Null? <==> s.batch.Absent? && s.locker.None?)
      && (InLock(s.threads[t]) ==> s.head != Null && s.batch.Absent? && forall u | 0 <= u < threads && u != t :: !InLock(s.threads[u]))
  {
    hide Reverse, Distinct, Run;
    InitKeeps(threads);
    InitSize(threads);
    hide Init;
    RunKeeps(Init(threads), schedule);
  }

  lemma InitSize(threads: nat)
    ensures |Init(threads).threads| == threads
  {
  }

  /** When nobody is submitting and no batch is alive, every task ever submitted has run. */
  lemma NoneStranded(threads: nat, schedule: seq<Choice>)
    requires var s := Run(Init(threads), schedule);
      s.batch.Absent? && forall t | 0 <= t < |s.threads| :: s.threads[t].Idle?
    ensures var s := Run(Init(threads), schedule); s.done == s.log && s.head == Null
  {
    hide Distinct, Run, Init;
    InitKeeps(threads);
    RunKeeps(Init(threads), schedule);
  }

  // ---------------------------------------------------------------- the strand drains

  function BatchWork(s: State): nat {
    match s.batch
    case Absent => 0
    case Scheduled(_) => 9
    case Running(_) => 8
    case InTask(_, _) => 9
    case Closing => 7
    case Reload => 6
    case Retake(seen) => if s.head == seen then 4 else 5
    case Remake(_) => 3
  }

  function LockWork(s: State): nat {
    if s.locker.None? || s.locker.value >= |s.threads| then 0
    else
      match s.threads[s.locker.value]
      case LockLoad => 8
      case LockSwing(seen) => if s.head == seen then 6 else 7
      case _ => 5
  }

  /** An upper bound on the steps until every task submitted so far has run. */
  function Work(s: State): nat {
    20 * (|s.list| + |s.taken|) + 4 * |s.rest| + BatchWork(s) + LockWork(s)
  }

  /** Whoever is responsible for the head. */
  function Responsible(s: State): Choice {
    if s.locker.Some? then Submitter(s.locker.value, 0, false) else Worker(false)
  }

  lemma WorkerProgress(s: State)
    requires Inv(s) && !s.batch.Absent?
    ensures Work(StepWorker(s, false)) < Work(s) && StepWorker(s, false).log == s.log
  {
    hide Linked, Distinct, At, Accounted;
    if s.batch.Running? && s.batch.queue.Link? {
      RestNotEmpty(s);
    }
  }

  lemma RestNotEmpty(s: State)
    requires RestOk(s) && BatchWord(s.batch).Link?
    ensures s.rest != [] && BatchWord(s.batch).task in s.next
  {
  }

  lemma LockerProgress(s: State)
    requires Inv(s) && s.locker.Some?
    ensures var s' := Step(s, Responsible(s)); Work(s') < Work(s) && s'.log == s.log
  {
    hide Linked, Distinct, At, Accounted;
  }

  /** No state is stuck: a non-null head always has a responsible party whose next step makes progress. */
  lemma AlwaysProgress(s: State)
    requires Inv(s) && s.head != Null
    ensures var s' := Step(s, Responsible(s)); Work(s') < Work(s) && s'.log == s.log
  {
    assert s.locker.Some? || !s.batch.Absent?;
    hide Inv, Work;
    if s.locker.Some? {
      LockerProgress(s);
    } else {
      WorkerProgress(s);
    }
  }

  /** From any reachable state at most `Work` steps of the responsible party run every task pushed so far. */
  lemma {:induction false} Drains(s: State) returns (schedule: seq<Choice>)
    requires Inv(s)
    ensures |schedule| <= Work(s)
    ensures var s' := Run(s, schedule); Inv(s') && s'.head == Null && s'.log == s.log && s'.done == s.log
    decreases Work(s)
  {
    if s.head == Null {
      schedule := [];
      assert s.list == [] && s.batch.Absent? && s.rest == [] && s.taken == [];
    } else {
      var c := Responsible(s);
      hide Inv, Step, Work, Responsible;
      AlwaysProgress(s);
      StepKeeps(s, c);
      var rest := Drains(Step(s, c));
      schedule := [c] + rest;
      RunPrepend(s, c, rest);
    }
  }

  lemma {:induction false} RunPrepend(s: State, c: Choice, rest: seq<Choice>)
    ensures Run(s, [c] + rest) == Run(Step(s, c), rest)
    decreases |rest|
  {
    hide Step;
    if rest == [] {
      assert [c] + rest == [c] && [c][..0] == [];
    } else {
      var n := |rest| - 1;
      RunPrepend(s, c, rest[..n]);
      assert ([c] + rest)[..n + 1] == [c] + rest[..n];
    }
  }

  /** A submission that runs alone is in the log, as its last task, within two steps; a failed exchange has read the new head. */
  lemma SubmitsAlone(s: State, t: nat, next: Task) returns (n: nat)
    requires Inv(s) && t < |s.threads| && (s.threads[t].PushLoad? || s.threads[t].PushSwing?)
    ensures 1 <= n <= 2
    ensures var s' := Run(s, seq(n, i => Submitter(t, next, false))); s'.log == s.log + [s.threads[t].task] && s'.head == Link(s.threads[t].task)
  {
    var c, r := Submitter(t, next, false), s.threads[t].task;
    n := if s.threads[t].PushSwing? && r in s.next && s.next[r] == s.head then 1 else 2;
    assert r in s.next;
    var s1 := Step(s, c);
    assert n == 2 ==> s1.next[r] == s1.head == s.head && s1.threads[t] == PushSwing(r) && s1.log == s.log;
    RunAlone(s, c);
    hide Inv;
  }

  lemma RunAlone(s: State, c: Choice)
    ensures Run(s, seq(1, i => c)) == Step(s, c) && Run(s, seq(2, i => c)) == Step(Step(s, c), c)
  {
    hide Step;
    assert seq(1, i => c)[..0] == [] && seq(2, i => c)[..1] == seq(1, i => c);
  }
}
