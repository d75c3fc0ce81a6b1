/** What the futures pipeline guarantees in every run. */
module FuturesTheorems {
  import opened Basics
  import opened Futures
  import opened Results

  // ---------------------------------------------------------------- one lane

  lemma PromiseLane(l: Lane, r: Result, spurious: bool)
    requires l == BLANK || LaneOk(l, r)
    ensures CanMove(l, SettingPromise)
    ensures var l' := PromiseStep(l, spurious);
      && (l == BLANK ==> l' == BLANK) && (l != BLANK ==> LaneOk(l', r) && l' != BLANK)
      && l'.future == l.future && (l'.promise.Held? <==> l.promise.Held?) && (l'.task.Finished? <==> l.task.Finished?)
  {
  }

  lemma HookLane(l: Lane, r: Result, spurious: bool)
    requires l == BLANK || LaneOk(l, r)
    ensures CanMove(l, HookingFuture)
    ensures var l' := FutureStep(l, spurious);
      && (l == BLANK ==> l' == BLANK) && (l != BLANK ==> LaneOk(l', r) && l' != BLANK)
      && l'.promise == l.promise && (l'.future.Later? <==> l.future.Later?) && (l'.task.Finished? <==> l.task.Finished?)
  {
  }

  lemma SentNext(stages: seq<Stage>, input: Result, i: nat)
    requires i < |stages|
    ensures Sent(stages, input, i + 1) == Apply(stages[i], Sent(stages, input, i))
  {
    assert stages[..i + 1][..i] == stages[..i];
  }

  // ---------------------------------------------------------------- every step keeps the invariant

  lemma PromiseKeeps(s: State, input: Result, i: nat, spurious: bool)
    requires Inv(s, input) && i < |s.lanes|
    ensures Inv(Step(s, Choice(i, SettingPromise, spurious)), input)
  {
    PromiseLane(s.lanes[i], Sent(s.stages, input, i), spurious);
    hide PromiseStep, CanMove, LaneOk, Fold;
    var s' := Step(s, Choice(i, SettingPromise, spurious));
    forall j | 0 <= j < |s'.lanes| - 1 ensures Chained(s'.lanes[j], s'.lanes[j + 1]) {
      assert Chained(s.lanes[j], s.lanes[j + 1]);
    }
  }

  lemma HookKeeps(s: State, input: Result, i: nat, spurious: bool)
    requires Inv(s, input) && i < |s.lanes|
    ensures Inv(Step(s, Choice(i, HookingFuture, spurious)), input)
  {
    var l := s.lanes[i];
    HookLane(l, Sent(s.stages, input, i), spurious);
    hide LaneOk, Fold, FutureStep, Carried, Sent;
    var s' := Step(s, Choice(i, HookingFuture, spurious));
    if i + 1 < |s.lanes| {
      NextLane(s, input, i, spurious);
    }
    hide CanMove;
    forall j | 0 <= j < |s'.lanes| - 1 ensures Chained(s'.lanes[j], s'.lanes[j + 1]) {
      assert Chained(s.lanes[j], s.lanes[j + 1]);
    }
  }

  /** The client's step in lane `i` leaves the next lane in order, and in the right distance. */
  lemma NextLane(s: State, input: Result, i: nat, spurious: bool)
    requires Inv(s, input) && i + 1 < |s.lanes| && CanMove(s.lanes[i], HookingFuture)
    ensures var l' := FutureStep(s.lanes[i], spurious);
      var next := Carried(s.lanes[i].future, l'.future, s.lanes[i + 1]);
      && (next == BLANK || LaneOk(next, Sent(s.stages, input, i + 1)))
      && Chained(l', next)
      && next.task == s.lanes[i + 1].task
      && (next == BLANK ==> s.lanes[i + 1] == BLANK)
      && (i + 2 < |s.lanes| ==> Chained(next, s.lanes[i + 2]))
  {
    hide Fold, Sent;
    assert Chained(s.lanes[i], s.lanes[i + 1]);
  }

  /** A worker taking or finishing the task of a lane. */
  lemma TaskLane(l: Lane, r: Result, task: TaskAt)
    requires LaneOk(l, r) && (l.task.Pending? || l.task.Running?)
    requires task == Running(r) || task == Finished
    ensures LaneOk(l.(task := task), r) && Hooked(l.future) && l.task.r == r && l.(task := task) != BLANK
  {
  }

  /** The continuation of one lane sets the promise of the next. */
  lemma Delivered(l: Lane, next: Lane, r: Result)
    requires Chained(l, next) && Hooked(l.future) && !l.task.Finished? && LaneOk(next, r)
    ensures Chained(l.(task := Finished), next.(promise := Write(r))) && LaneOk(next.(promise := Write(r)), r)
    ensures next.(promise := Write(r)) != BLANK && next.task.Unscheduled?
  {
  }

  lemma WorkerKeeps(s: State, input: Result, i: nat, spurious: bool)
    requires Inv(s, input) && i < |s.lanes|
    ensures Inv(Step(s, Choice(i, Worker, spurious)), input)
  {
    var s' := Step(s, Choice(i, Worker, spurious));
    var l := s.lanes[i];
    var r := Sent(s.stages, input, i);
    assert s.stages[..|s.stages|] == s.stages;
    if l.task.Pending? {
      TaskLane(l, r, Running(r));
    } else if l.task.Running? {
      TaskLane(l, r, Finished);
      if i < |s.stages| {
        SentNext(s.stages, input, i);
        assert Chained(l, s.lanes[i + 1]);
        Delivered(l, s.lanes[i + 1], Sent(s.stages, input, i + 1));
      }
    }
    hide LaneOk, Fold, Apply, CellOk, Met;
    forall j | 0 <= j < |s'.lanes| - 1 ensures Chained(s'.lanes[j], s'.lanes[j + 1]) {
      assert Chained(s.lanes[j], s.lanes[j + 1]);
    }
  }

  lemma StepKeeps(s: State, input: Result, c: Choice)
    requires Inv(s, input)
    ensures Inv(Step(s, c), input) && Step(s, c).stages == s.stages
  {
    if c.lane < |s.lanes| {
      match c.party
      case SettingPromise => PromiseKeeps(s, input, c.lane, c.spurious);
      case HookingFuture => HookKeeps(s, input, c.lane, c.spurious);
      case Worker => WorkerKeeps(s, input, c.lane, c.spurious);
    }
  }

  lemma InitKeeps(stages: seq<Stage>, input: Result)
    ensures Inv(Init(stages, input), input)
  {
    assert stages[..0] == [];
  }

  lemma {:induction false} RunKeeps(stages: seq<Stage>, input: Result, schedule: seq<Choice>)
    ensures Inv(Run(Init(stages, input), schedule), input) && Run(Init(stages, input), schedule).stages == stages
    decreases |schedule|
  {
    InitKeeps(stages, input);
    hide Inv, Step;
    if schedule != [] {
      RunKeeps(stages, input, schedule[..|schedule| - 1]);
      StepKeeps(Run(Init(stages, input), schedule[..|schedule| - 1]), input, schedule[|schedule| - 1]);
    }
  }

  // ---------------------------------------------------------------- the result does not depend on the schedule

  /** Whatever the order of setting, hooking and running: no output, or the fold of the stages, once. */
  lemma ResultIsFold(stages: seq<Stage>, input: Result, schedule: seq<Choice>)
    ensures var s := Run(Init(stages, input), schedule);
      !s.fault && (s.outputs == [] || s.outputs == [Fold(stages, input)])
  {
    hide Run, Init, Fold, LaneOk, Chained;
    RunKeeps(stages, input, schedule);
  }

  /**
   In every lane the two sides schedule the continuation once between them, with the value that was set
   and with an executor, and the cell is freed exactly when neither side will touch it again.
   */
  lemma RendezvousOnce(stages: seq<Stage>, input: Result, schedule: seq<Choice>, i: nat)
    requires i <= |stages|
    ensures var s := Run(Init(stages, input), schedule);
      && |s.lanes| == |stages| + 1
      && CanMove(s.lanes[i], SettingPromise) && CanMove(s.lanes[i], HookingFuture)
      && !(s.lanes[i].promise.SetSchedule? && s.lanes[i].future.HookSchedule?)
      && (s.lanes[i].promise.SetSchedule? || s.lanes[i].future.HookSchedule? ==>
            s.lanes[i].task.Unscheduled? && s.lanes[i].cell.Some? && s.lanes[i].cell.value.executor
            && s.lanes[i].cell.value.value == Some(Sent(stages, input, i)))
      && (s.lanes[i] != BLANK ==> (s.lanes[i].cell.None? <==> s.lanes[i].promise.PromiseGone? && s.lanes[i].future.FutureGone?))
  {
    hide Run, Init, Fold, Sent;
    RunKeeps(stages, input, schedule);
    var l := Run(Init(stages, input), schedule).lanes[i];
    PromiseLane(l, Sent(stages, input, i), false);
    HookLane(l, Sent(stages, input, i), false);
  }

  // ---------------------------------------------------------------- every maximal run delivers

  function PromiseRank(l: Lane): nat {
    match l.promise
    case Held => 9
    case Write(_) => 8
    case SetLoad => 7
    case SetSwing(seen) => if l.cell.Some? && l.cell.value.word != seen then 6 else 5
    case SetSchedule => 3
    case PromiseDrop => 2
    case PromiseGone => 0
  }

  function FutureRank(l: Lane): nat {
    match l.future
    case Later => 9
    case Attach => 8
    case HookLoad => 7
    case HookSwing(seen) => if l.cell.Some? && l.cell.value.word != seen then 6 else 5
    case HookSchedule => 3
    case FutureDrop => 2
    case FutureGone => 0
  }

  function LaneWork(l: Lane): nat {
    PromiseRank(l) + FutureRank(l) +
    match l.task
    case Unscheduled => 3
    case Pending(_) => 2
    case Running(_) => 1
    case Finished => 0
  }

  function Work(lanes: seq<Lane>): nat {
    if lanes == [] then 0 else Work(lanes[..|lanes| - 1]) + LaneWork(lanes[|lanes| - 1])
  }

  lemma {:induction false} WorkUpdate(lanes: seq<Lane>, i: nat, l: Lane)
    requires i < |lanes|
    ensures Work(lanes[i := l]) == Work(lanes) - LaneWork(lanes[i]) + LaneWork(l)
  {
    var n := |lanes| - 1;
    hide LaneWork;
    if i == n {
      assert lanes[i := l][..n] == lanes[..n];
    } else {
      assert lanes[i := l][..n] == lanes[..n][i := l];
      WorkUpdate(lanes[..n], i, l);
    }
  }

  /** The party still has something to do. */
  predicate Enabled(s: State, c: Choice) {
    c.lane < |s.lanes| &&
    match c.party
    case SettingPromise => !s.lanes[c.lane].promise.Held? && !s.lanes[c.lane].promise.PromiseGone?
    case HookingFuture => !s.lanes[c.lane].future.Later? && !s.lanes[c.lane].future.FutureGone?
    case Worker => s.lanes[c.lane].task.Pending? || s.lanes[c.lane].task.Running?
  }

  lemma LaneProgress(l: Lane, r: Result)
    requires LaneOk(l, r)
    ensures CanMove(l, SettingPromise) && CanMove(l, HookingFuture)
    ensures !l.promise.Held? && !l.promise.PromiseGone? ==> LaneWork(PromiseStep(l, false)) < LaneWork(l)
    ensures !l.future.Later? && !l.future.FutureGone? ==> LaneWork(FutureStep(l, false)) < LaneWork(l)
  {
    PromiseLane(l, r, false);
    HookLane(l, r, false);
  }

  lemma CarriedWork(f: FutureAt, f': FutureAt, next: Lane)
    requires next == BLANK || !f.Attach?
    ensures !Hooked(f) && Hooked(f') ==> next.future.Later? ==> LaneWork(Carried(f, f', next)) <= LaneWork(next)
    ensures Hooked(f) || !Hooked(f') ==> LaneWork(Carried(f, f', next)) <= LaneWork(next)
  {
  }

  /** Every step of a party that has something to do, not failing for no reason, brings the end nearer. */
  lemma Progress(s: State, input: Result, c: Choice)
    requires Inv(s, input) && Enabled(s, c) && !c.spurious
    ensures Work(Step(s, c).lanes) < Work(s.lanes)
  {
    var i, l := c.lane, s.lanes[c.lane];
    var s' := Step(s, c);
    match c.party
    case SettingPromise =>
      LaneProgress(l, Sent(s.stages, input, i));
      hide LaneWork, LaneOk, PromiseStep, CanMove, Chained;
      WorkUpdate(s.lanes, i, s'.lanes[i]);
    case HookingFuture =>
      HookProgress(s, input, i);
    case Worker =>
      WorkerProgress(s, input, i);
  }

  lemma HookProgress(s: State, input: Result, i: nat)
    requires Inv(s, input) && Enabled(s, Choice(i, HookingFuture, false))
    ensures Work(Step(s, Choice(i, HookingFuture, false)).lanes) < Work(s.lanes)
  {
    var l := s.lanes[i];
    LaneProgress(l, Sent(s.stages, input, i));
    var l' := FutureStep(l, false);
    WorkUpdate(s.lanes, i, l');
    if i + 1 < |s.lanes| {
      var next := s.lanes[i + 1];
      assert Chained(l, next);
      assert next == BLANK || !l.future.Attach?;
      assert !Hooked(l.future) ==> next.future.Later?;
      CarriedWork(l.future, l'.future, next);
      hide LaneWork, LaneOk, FutureStep, Chained, Carried;
      WorkUpdate(s.lanes[i := l'], i + 1, Carried(l.future, l'.future, next));
    }
  }

  lemma TaskWork(l: Lane)
    ensures l.task.Pending? ==> LaneWork(l.(task := Running(l.task.r))) < LaneWork(l)
    ensures l.task.Running? ==> LaneWork(l.(task := Finished)) < LaneWork(l)
    ensures l.promise.Held? ==> forall r :: LaneWork(l.(promise := Write(r))) < LaneWork(l)
  {
  }

  lemma WorkerProgress(s: State, input: Result, i: nat)
    requires Inv(s, input) && Enabled(s, Choice(i, Worker, false))
    ensures Work(Step(s, Choice(i, Worker, false)).lanes) < Work(s.lanes)
  {
    hide LaneWork, LaneOk, Apply, Fold, Work;
    var l := s.lanes[i];
    TaskWork(l);
    if l.task.Pending? {
      WorkUpdate(s.lanes, i, l.(task := Running(l.task.r)));
    } else {
      var settled := l.(task := Finished);
      WorkUpdate(s.lanes, i, settled);
      if i < |s.stages| {
        var next := s.lanes[i + 1];
        assert Chained(l, next);
        TaskWork(next);
        WorkUpdate(s.lanes[i := settled], i + 1, next.(promise := Write(Apply(s.stages[i], l.task.r))));
      }
    }
  }

  /** When no party has anything left to do, lane `i` is over. */
  lemma {:induction false} LaneSettled(s: State, input: Result, i: nat)
    requires Inv(s, input) && i < |s.lanes| && forall c :: !Enabled(s, c)
    ensures s.lanes[i].cell.None? && s.lanes[i].promise.PromiseGone? && s.lanes[i].future.FutureGone? && s.lanes[i].task.Finished?
  {
    assert !Enabled(s, Choice(i, SettingPromise, false));
    assert !Enabled(s, Choice(i, HookingFuture, false));
    assert !Enabled(s, Choice(i, Worker, false));
    if i > 0 {
      LaneSettled(s, input, i - 1);
      assert Chained(s.lanes[i - 1], s.lanes[i]);
    }
    assert s.lanes[i] == BLANK || LaneOk(s.lanes[i], Sent(s.stages, input, i));
  }

  /** Every maximal run has delivered the fold of the stages once and freed every cell. */
  lemma MaximalRunDelivers(stages: seq<Stage>, input: Result, schedule: seq<Choice>)
    requires forall c :: !Enabled(Run(Init(stages, input), schedule), c)
    ensures var s := Run(Init(stages, input), schedule);
      s.outputs == [Fold(stages, input)] && forall i | 0 <= i < |s.lanes| :: s.lanes[i].cell.None?
  {
    hide Run, Init, Fold, LaneOk, Enabled, Chained;
    RunKeeps(stages, input, schedule);
    var s := Run(Init(stages, input), schedule);
    forall i | 0 <= i < |s.lanes| ensures s.lanes[i].cell.None? && s.lanes[i].task.Finished? {
      LaneSettled(s, input, i);
    }
  }

  /** Maximal runs are short: a run of steps that do something takes at most 20 steps a lane. */
  lemma {:induction false} RunsAreFinite(stages: seq<Stage>, input: Result, schedule: seq<Choice>)
    requires forall n | 0 <= n < |schedule| ::
      Enabled(Run(Init(stages, input), schedule[..n]), schedule[n]) && !schedule[n].spurious
    ensures |schedule| + Work(Run(Init(stages, input), schedule).lanes) <= 21 * (|stages| + 1)
    decreases |schedule|
  {
    if schedule == [] {
      InitWork(Init(stages, input).lanes);
    } else {
      var front := schedule[..|schedule| - 1];
      hide Enabled, Init, Work;
      forall n | 0 <= n < |front| ensures Enabled(Run(Init(stages, input), front[..n]), front[n]) {
        assert front[..n] == schedule[..n];
      }
      RunsAreFinite(stages, input, front);
      RunKeeps(stages, input, front);
      hide Step, Inv;
      Progress(Run(Init(stages, input), front), input, schedule[|schedule| - 1]);
    }
  }

  lemma {:induction false} InitWork(lanes: seq<Lane>)
    requires forall i | 0 <= i < |lanes| :: LaneWork(lanes[i]) <= 21
    ensures Work(lanes) <= 21 * |lanes|
  {
    if lanes != [] {
      InitWork(lanes[..|lanes| - 1]);
    }
  }

  // ---------------------------------------------------------------- what the stages compute

  /**
   The stages from left to right: a value goes through the functors of the `Then` stages in turn, past every
   `Recover`; what a functor throws goes past every `Then` up to a `Recover`, whose handler, given null, answers anew.
   */
  function Passed(stages: seq<Stage>, r: Result): Result
    decreases |stages|
  {
    if stages == [] then r
    else
      match (stages[0], r)
      case (Then(f), Ok(v)) => Passed(stages[1..], f(v))
      case (Then(_), Raised(e)) => Passed(stages[1..], Raised(e))
      case (Recover(_), Ok(v)) => Passed(stages[1..], Ok(v))
      case (Recover(h), Raised(_)) => Passed(stages[1..], h(None))
  }

  lemma {:induction false} PassedOn(stages: seq<Stage>, last: Stage, r: Result)
    ensures Passed(stages + [last], r) == Passed([last], Passed(stages, r))
    decreases |stages|
  {
    if stages == [] {
      assert stages + [last] == [last];
    } else {
      var rest := stages[1..];
      assert (stages + [last])[0] == stages[0] && (stages + [last])[1..] == rest + [last];
      match (stages[0], r) {
        case (Then(f), Ok(v)) => PassedOn(rest, last, f(v));
        case (Then(_), Raised(e)) => PassedOn(rest, last, Raised(e));
        case (Recover(_), Ok(v)) => PassedOn(rest, last, Ok(v));
        case (Recover(h), Raised(_)) => PassedOn(rest, last, h(None));
      }
    }
  }

  /** What a pipeline delivers is its input passed through its stages. */
  lemma {:induction false} FoldIsPassed(stages: seq<Stage>, r: Result)
    ensures Fold(stages, r) == Passed(stages, r)
  {
    if stages != [] {
      var front, last := stages[..|stages| - 1], stages[|stages| - 1];
      FoldIsPassed(front, r);
      PassedOn(front, last, r);
      assert stages == front + [last] && [last][1..] == [];
    }
  }

  function Thens(fs: seq<Value -> Result>): (stages: seq<Stage>)
    ensures |stages| == |fs| && forall i | 0 <= i < |fs| :: stages[i] == Then(fs[i])
  {
    seq(|fs|, i requires 0 <= i < |fs| => Then(fs[i]))
  }

  /** The functors composed, up to the first one that throws. */
  function Composed(fs: seq<Value -> Result>, v: Value): Result {
    if fs == [] then Ok(v)
    else
      match fs[0](v)
      case Ok(w) => Composed(fs[1..], w)
      case Raised(e) => Raised(e)
  }

  lemma {:induction false} RaisedPasses(fs: seq<Value -> Result>, e: Exception)
    ensures Passed(Thens(fs), Raised(e)) == Raised(e)
  {
    if fs != [] {
      assert Thens(fs)[1..] == Thens(fs[1..]);
      RaisedPasses(fs[1..], e);
    }
  }

  lemma {:induction false} ThenComposes(fs: seq<Value -> Result>, v: Value)
    ensures Fold(Thens(fs), Ok(v)) == Composed(fs, v)
  {
    FoldIsPassed(Thens(fs), Ok(v));
    if fs != [] {
      assert Thens(fs)[1..] == Thens(fs[1..]);
      match fs[0](v) {
        case Ok(w) =>
          FoldIsPassed(Thens(fs[1..]), Ok(w));
          ThenComposes(fs[1..], w);
        case Raised(e) => RaisedPasses(fs[1..], e);
      }
    }
  }

  /**
   In every run a pipeline of `Then` stages over a value outputs nothing or, once, its functors composed, up to the
   first that throws; over an exception, that exception.
   */
  lemma ThenPipeline(fs: seq<Value -> Result>, input: Result, schedule: seq<Choice>)
    ensures var s := Run(Init(Thens(fs), input), schedule);
      s.outputs == [] || s.outputs == [match input case Ok(v) => Composed(fs, v) case Raised(e) => Raised(e)]
  {
    ResultIsFold(Thens(fs), input, schedule);
    if input.Ok? {
      ThenComposes(fs, input.value);
    } else {
      RaisedPasses(fs, input.exception);
      FoldIsPassed(Thens(fs), input);
    }
    hide Run, Init, Fold, Composed, Thens;
  }

  // ---------------------------------------------------------------- what Recover was meant to do

  /** The documented meaning: a recover handler is passed the exception that was raised. */
  function Intended(stage: Stage, r: Result): Result {
    match stage
    case Then(f) => (match r case Ok(v) => f(v) case Raised(e) => Raised(e))
    case Recover(h) => (match r case Ok(v) => Ok(v) case Raised(e) => h(Some(e)))
  }

  function IntendedFold(stages: seq<Stage>, r: Result): Result {
    if stages == [] then r else Intended(stages[|stages| - 1], IntendedFold(stages[..|stages| - 1], r))
  }

  /** The handler answers a null pointer and this result alike. */
  predicate Blind(stage: Stage, r: Result) {
    stage.Recover? && r.Raised? ==> stage.handler(None) == stage.handler(Some(r.exception))
  }

  predicate Agrees(stages: seq<Stage>, r: Result) {
    forall n {:trigger stages[..n]} | 0 <= n <= |stages| :: Fold(stages[..n], r) == IntendedFold(stages[..n], r)
  }

  predicate Unnoticed(stages: seq<Stage>, r: Result) {
    forall n | 0 <= n < |stages| :: Blind(stages[n], Fold(stages[..n], r))
  }

  lemma LastPrefix(stages: seq<Stage>, r: Result)
    requires stages != []
    ensures var front := stages[..|stages| - 1];
      && (Agrees(stages, r) <==> Agrees(front, r) && Fold(stages, r) == IntendedFold(stages, r))
      && (Unnoticed(stages, r) <==> Unnoticed(front, r) && Blind(stages[|stages| - 1], Fold(front, r)))
  {
    hide Fold, IntendedFold, Blind;
    var front := stages[..|stages| - 1];
    assert stages[..|stages|] == stages;
    assert forall n | 0 <= n <= |front| :: front[..n] == stages[..n];
  }

  /**
   `RecoverCallback` hands its handler the exception of an empty result, always null.  A pipeline gives
   the documented result after each of its stages if and only if no exception reaches a handler that
   would tell it from null.
   */
  lemma {:induction false} RecoverAsDocumented(stages: seq<Stage>, r: Result)
    ensures Agrees(stages, r) <==> Unnoticed(stages, r)
  {
    if stages == [] {
      assert stages[..0] == [];
    } else {
      var front := stages[..|stages| - 1];
      RecoverAsDocumented(front, r);
      LastPrefix(stages, r);
      LastStage(stages, r);
      assert front[..|front|] == front;
    }
  }

  lemma LastStage(stages: seq<Stage>, r: Result)
    requires stages != []
    ensures var front := stages[..|stages| - 1];
      Fold(front, r) == IntendedFold(front, r) ==>
        (Fold(stages, r) == IntendedFold(stages, r) <==> Blind(stages[|stages| - 1], Fold(front, r)))
  {
  }

  /** A handler that rethrows what it is given loses the exception. */
  lemma RecoverLosesException(e: Exception, v: Value) returns (stage: Stage)
    ensures Fold([stage], Raised(e)) == Ok(v) && IntendedFold([stage], Raised(e)) == Raised(e)
  {
    stage := Recover((x: Option<Exception>) => if x.Some? then Raised(x.value) else Ok(v));
    assert [stage][..0] == [];
  }

  /** The shape of a pipeline: its `Then` functions are given, the handlers of its `Recover` stages are not. */
  datatype Slot = Given(f: Value -> Result) | Handler

  type Handlers = seq<Option<Exception> -> Result>

  function Filled(shape: seq<Slot>, handlers: Handlers): (stages: seq<Stage>)
    requires |handlers| == |shape|
    ensures |stages| == |shape|
  {
    if shape == [] then []
    else
      var n := |shape| - 1;
      Filled(shape[..n], handlers[..n]) +
        [match shape[n] case Given(f) => Then(f) case Handler => Recover(handlers[n])]
  }

  /** The result when no handler is asked. */
  function Plain(shape: seq<Slot>, r: Result): Result {
    if shape == [] then r
    else
      var before := Plain(shape[..|shape| - 1], r);
      match shape[|shape| - 1]
      case Given(f) => if before.Ok? then f(before.value) else before
      case Handler => before
  }

  /** An exception reaches a `Recover` stage: the input's, or one raised on the way to the first. */
  predicate Reached(shape: seq<Slot>, r: Result) {
    shape != [] &&
    var n := |shape| - 1;
    Reached(shape[..n], r) || (shape[n].Handler? && Plain(shape[..n], r).Raised?)
  }

  lemma FilledLast(shape: seq<Slot>, handlers: Handlers)
    requires |handlers| == |shape| > 0
    ensures var n, stages := |shape| - 1, Filled(shape, handlers);
      && stages[..n] == Filled(shape[..n], handlers[..n])
      && stages[n] == match shape[n] case Given(f) => Then(f) case Handler => Recover(handlers[n])
  {
  }

  lemma {:induction false} Unreached(shape: seq<Slot>, handlers: Handlers, r: Result)
    requires |handlers| == |shape| && !Reached(shape, r)
    ensures Fold(Filled(shape, handlers), r) == IntendedFold(Filled(shape, handlers), r) == Plain(shape, r)
  {
    if shape != [] {
      var n := |shape| - 1;
      FilledLast(shape, handlers);
      Unreached(shape[..n], handlers[..n], r);
      hide Filled;
    }
  }

  /** A handler that tells null from an exception. */
  function Telling(none: Exception, some: Exception): Option<Exception> -> Result {
    (x: Option<Exception>) => Raised(if x.None? then none else some)
  }

  lemma {:induction false} Told(shape: seq<Slot>, handlers: Handlers, r: Result, none: Exception, some: Exception)
    requires |handlers| == |shape| && Reached(shape, r)
    requires forall i | 0 <= i < |handlers| :: handlers[i] == Telling(none, some)
    ensures Fold(Filled(shape, handlers), r) == Raised(none) && IntendedFold(Filled(shape, handlers), r) == Raised(some)
  {
    var n := |shape| - 1;
    FilledLast(shape, handlers);
    hide Filled;
    if Reached(shape[..n], r) {
      Told(shape[..n], handlers[..n], r, none, some);
    } else {
      Unreached(shape[..n], handlers[..n], r);
    }
  }

  /**
   What a caller can rely on: a pipeline gives the documented final result whatever its handlers do if and
   only if no exception reaches any of its `Recover` stages.
   */
  lemma FinalAsDocumented(shape: seq<Slot>, r: Result, none: Exception, some: Exception)
    requires none != some
    ensures (forall handlers: Handlers | |handlers| == |shape| ::
               Fold(Filled(shape, handlers), r) == IntendedFold(Filled(shape, handlers), r)) <==> !Reached(shape, r)
  {
    if Reached(shape, r) {
      var handlers: Handlers := seq(|shape|, i => Telling(none, some));
      Told(shape, handlers, r, none, some);
      assert Fold(Filled(shape, handlers), r) != IntendedFold(Filled(shape, handlers), r);
    } else {
      forall handlers: Handlers | |handlers| == |shape|
        ensures Fold(Filled(shape, handlers), r) == IntendedFold(Filled(shape, handlers), r)
      {
        Unreached(shape, handlers, r);
      }
    }
  }
}
