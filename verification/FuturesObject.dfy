/**
 The futures pipeline over its heap: one `FutureValue` object for each lane, created by the client,
 shared by a promise and a future, and released by the last of the two.
 */
module FuturesObject {
  import opened Basics
  import opened Futures
  import opened Results
  import opened FuturesTheorems

  /** futures/future_value.hpp:11-39 */
  class FutureValue {
    var value: Option<Result>
    var callback: Word
    var executor: bool
    var owners: int

    constructor ()
      ensures value == None && callback == Null && !executor && owners == 2
    {
      value, callback, executor, owners := None, Null, false, 2;
    }

    /** `Destroy`: whether the caller was the last owner (34-38). */
    method Destroy() returns (last: bool)
      modifies this`owners
      ensures last <==> old(owners) == 1
      ensures owners == old(owners) - 1
    {
      last := owners == 1;
      owners := owners - 1;
    }
  }

  /** `ThenCallback::Invoke` (then_callback.hpp:25-35): a raised input is rethrown and caught. */
  method InvokeThen(f: Value -> Result, r: Result) returns (res: Result)
    ensures r.Ok? ==> res == f(r.value)
    ensures r.Raised? ==> res == r
  {
    if r.Raised? {
      return Raised(r.exception);
    }
    var computed := f(r.value);
    match computed
    case Ok(v) => res := Ok(v);
    case Raised(e) => res := Raised(e);
  }

  /** `RecoverCallback::Invoke` (recover_callback.hpp:23-39): the handler is passed `res`'s exception, not `result`'s. */
  method InvokeRecover(handler: Option<Exception> -> Result, result: Result) returns (answer: Result)
    ensures result.Ok? ==> answer == result
    ensures result.Raised? ==> answer == handler(None)
  {
    if !result.Raised? {
      return result;
    }
    var res: Option<Exception> := None;
    answer := handler(res);
  }

  lemma Ready(s: State, input: Result, i: nat)
    requires Inv(s, input) && i < |s.lanes|
    ensures CanMove(s.lanes[i], SettingPromise) && CanMove(s.lanes[i], HookingFuture)
    ensures i + 1 < |s.lanes| && s.lanes[i].future.Attach? ==> s.lanes[i + 1] == BLANK
    ensures i + 1 < |s.lanes| && (s.lanes[i].future.HookSwing? || s.lanes[i].future.HookSchedule?) ==> s.lanes[i + 1].future.Later?
  {
    PromiseLane(s.lanes[i], Sent(s.stages, input, i), false);
    HookLane(s.lanes[i], Sent(s.stages, input, i), false);
    if i + 1 < |s.lanes| {
      assert Chained(s.lanes[i], s.lanes[i + 1]);
    }
  }

  /** The lanes after the compare-exchange of `SetCallback`. */
  lemma HookSwingEffect(s: State, input: Result, i: nat, spurious: bool)
    requires Inv(s, input) && i < |s.lanes| && s.lanes[i].future.HookSwing?
    ensures s.lanes[i].cell.Some?
    ensures var l, s' := s.lanes[i], Step(s, Choice(i, HookingFuture, spurious));
      s' == s.(lanes := s'.lanes) && |s'.lanes| == |s.lanes| && forall j | 0 <= j < |s.lanes| ::
        s'.lanes[j] ==
          if l.cell.value.word != l.future.seen || spurious then
            if j == i then l.(future := HookSwing(l.cell.value.word)) else s.lanes[j]
          else if j == i then
            l.(cell := Some(l.cell.value.(word := Installed)), future := if l.future.seen.ValueIsSet? then HookSchedule else FutureDrop)
          else if j == i + 1 && !l.future.seen.ValueIsSet? then s.lanes[j].(future := Attach)
          else s.lanes[j]
  {
    Ready(s, input, i);
  }

  /** What the promise finds in its lane. */
  lemma PromiseFinds(s: State, input: Result, i: nat)
    requires Inv(s, input) && i < |s.lanes| && !s.lanes[i].promise.Held? && !s.lanes[i].promise.PromiseGone?
    ensures s.lanes[i].cell.Some?
    ensures var l, c := s.lanes[i], s.lanes[i].cell.value; var r := Sent(s.stages, input, i);
      && (l.promise.Write? ==> c.value == None && c.word != ValueIsSet && l.promise.r == r)
      && (l.promise.SetSwing? ==> c.value == Some(r) && !l.promise.seen.ValueIsSet? && (c.word.Installed? ==> c.executor && Hooked(l.future)))
      && (l.promise.SetSchedule? ==> c.value == Some(r) && c.executor && l.task.Unscheduled?)
      && (l.promise.PromiseDrop? ==> c.owners == if l.future.FutureGone? then 1 else 2)
  {
    assert LaneOk(s.lanes[i], Sent(s.stages, input, i));
  }

  /** What the client finds there. */
  lemma ClientFinds(s: State, input: Result, i: nat)
    requires Inv(s, input) && i < |s.lanes| && !s.lanes[i].future.Later? && !s.lanes[i].future.FutureGone?
    ensures s.lanes[i].cell.Some?
    ensures var l, c := s.lanes[i], s.lanes[i].cell.value; var r := Sent(s.stages, input, i);
      && (l.future.Attach? ==> c.word != Installed && !c.executor)
      && (l.future.HookSwing? ==> c.executor && (c.word.ValueIsSet? ==> c.value == Some(r) && Published(l.promise)))
      && (l.future.HookSwing? && i + 1 < |s.lanes| ==> s.lanes[i + 1].cell.Some?)
      && (l.future.HookSchedule? ==> c.value == Some(r) && c.executor && l.task.Unscheduled?)
      && (l.future.FutureDrop? ==> c.owners == if l.promise.PromiseGone? then 1 else 2)
  {
    assert LaneOk(s.lanes[i], Sent(s.stages, input, i));
    if i + 1 < |s.lanes| {
      assert Chained(s.lanes[i], s.lanes[i + 1]);
      assert s.lanes[i + 1] == BLANK || LaneOk(s.lanes[i + 1], Sent(s.stages, input, i + 1));
    }
  }

  /** A stage's answer: of its functor to a value, of its handler, given null, to an exception. */
  function Answer(stage: Stage, r: Result): (answer: Result)
    ensures answer == Apply(stage, r)
  {
    match (stage, r)
    case (Then(f), Ok(v)) => f(v)
    case (Recover(h), Raised(_)) => h(None)
    case _ => r
  }

  /** What a worker finds there. */
  lemma WorkerFinds(s: State, input: Result, i: nat)
    requires Inv(s, input) && i < |s.lanes| && (s.lanes[i].task.Pending? || s.lanes[i].task.Running?)
    ensures s.lanes[i].task.r == Sent(s.stages, input, i)
    ensures i == |s.stages| ==> s.outputs == [] && Sent(s.stages, input, i) == Fold(s.stages, input)
    ensures i < |s.stages| ==> i + 1 < |s.lanes| && s.lanes[i + 1].promise.Held?
  {
    assert LaneOk(s.lanes[i], Sent(s.stages, input, i));
    assert s.stages[..|s.stages|] == s.stages;
    if i < |s.stages| {
      assert Chained(s.lanes[i], s.lanes[i + 1]);
    }
  }

  /** The lanes after the compare-exchange of `Set`. */
  lemma SetSwingEffect(s: State, input: Result, i: nat, spurious: bool)
    requires Inv(s, input) && i < |s.lanes| && s.lanes[i].promise.SetSwing?
    ensures s.lanes[i].cell.Some?
    ensures var l := s.lanes[i];
      Step(s, Choice(i, SettingPromise, spurious)) == s.(lanes := s.lanes[i :=
        if l.cell.value.word != l.promise.seen || spurious then l.(promise := SetSwing(l.cell.value.word))
        else l.(cell := Some(l.cell.value.(word := ValueIsSet)), promise := if l.promise.seen.Null? then PromiseDrop else SetSchedule)])
  {
    Ready(s, input, i);
  }

  /** The lanes after a destructor. */
  lemma DropEffect(s: State, input: Result, i: nat)
    requires Inv(s, input) && i < |s.lanes|
    ensures s.lanes[i].promise.PromiseDrop? ==>
      s.lanes[i].cell.Some? &&
      Step(s, Choice(i, SettingPromise, false)) == s.(lanes := s.lanes[i := s.lanes[i].(cell := Dropped(s.lanes[i].cell), promise := PromiseGone)])
    ensures s.lanes[i].future.FutureDrop? ==>
      s.lanes[i].cell.Some? &&
      Step(s, Choice(i, HookingFuture, false)) == s.(lanes := s.lanes[i := s.lanes[i].(cell := Dropped(s.lanes[i].cell), future := FutureGone)])
  {
    Ready(s, input, i);
    if i + 1 < |s.lanes| && s.lanes[i].future.FutureDrop? {
      var after := s.lanes[i := s.lanes[i].(cell := Dropped(s.lanes[i].cell), future := FutureGone)];
      assert after[i + 1 := s.lanes[i + 1]] == after;
    }
  }

  /** The lanes after a worker's step. */
  lemma WorkEffect(s: State, input: Result, i: nat)
    requires Inv(s, input) && i < |s.lanes| && (s.lanes[i].task.Pending? || s.lanes[i].task.Running?)
    ensures |s.lanes| == |s.stages| + 1
    ensures var l, s' := s.lanes[i], Step(s, Choice(i, Worker, false)); var done := s.lanes[i := l.(task := Finished)];
      s' == if l.task.Pending? then s.(lanes := s.lanes[i := l.(task := Running(l.task.r))])
            else if i == |s.stages| then s.(lanes := done, outputs := s.outputs + [l.task.r])
            else s.(lanes := done[i + 1 := s.lanes[i + 1].(promise := Write(Apply(s.stages[i], l.task.r)))])
  {
  }

  function Proceeded(futures: seq<FutureAt>, i: nat): seq<FutureAt>
    requires i < |futures|
  {
    var done := futures[i := FutureDrop];
    if i + 1 < |done| then done[i + 1 := Attach] else done
  }

  /** Only the weak compare-exchanges fail for no reason. */
  lemma NoExchange(s: State, i: nat, party: Party, spurious: bool)
    requires i < |s.lanes|
    requires party.SettingPromise? ==> !s.lanes[i].promise.SetSwing?
    requires party.HookingFuture? ==> !s.lanes[i].future.HookSwing?
    ensures Step(s, Choice(i, party, spurious)) == Step(s, Choice(i, party, false))
  {
  }

  /** A party that is through, or has not been reached, does nothing. */
  lemma NoMove(s: State, i: nat, party: Party, spurious: bool)
    requires i < |s.lanes| == |s.stages| + 1
    requires match party
      case SettingPromise => s.lanes[i].promise.Held? || s.lanes[i].promise.PromiseGone?
      case HookingFuture => s.lanes[i].future.Later? || s.lanes[i].future.FutureGone?
      case Worker => s.lanes[i].task.Unscheduled? || s.lanes[i].task.Finished?
    ensures Step(s, Choice(i, party, spurious)) == s
  {
    assert s.lanes[i := s.lanes[i]] == s.lanes;
    if i + 1 < |s.lanes| {
      assert s.lanes[i + 1 := s.lanes[i + 1]] == s.lanes;
    }
  }

  class Pipeline {
    const stages: seq<Stage>
    ghost const input: Result
    var cells: seq<FutureValue?>
    var promises: seq<PromiseAt>
    var futures: seq<FutureAt>
    var tasks: seq<TaskAt>
    var outputs: seq<Result>

    ghost function Repr(): set<object>
      reads this
    {
      set i | 0 <= i < |cells| && cells[i] != null :: cells[i]
    }

    ghost function CellAt(i: nat): Option<Cell>
      requires i < |cells|
      reads this, Repr()
    {
      var c := cells[i];
      if c == null then None
      else
        assert c in Repr();
        Some(Cell(c.value, c.callback, c.executor, c.owners))
    }

    ghost predicate Shape()
      reads this
    {
      && |cells| == |promises| == |futures| == |tasks| == |stages| + 1
      && forall i, j | 0 <= i < j < |cells| && cells[i] != null :: cells[i] != cells[j]
    }

    ghost function View(): State
      requires Shape()
      reads this, Repr()
    {
      State(stages,
            seq(|cells|, i requires 0 <= i < |cells| reads this, Repr() requires Shape() => Lane(CellAt(i), promises[i], futures[i], tasks[i])),
            outputs, false)
    }

    ghost predicate Valid()
      reads this, Repr()
    {
      Shape() && Inv(View(), input)
    }

    constructor (stages: seq<Stage>, input: Result)
      ensures Valid() && View() == Init(stages, input) && fresh(Repr())
    {
      var n := |stages| + 1;
      var first := new FutureValue();
      this.stages := stages;
      this.input := input;
      cells := seq(n, i => if i == 0 then first else null);
      promises := seq(n, i => if i == 0 then Write(input) else Held);
      futures := seq(n, i => if i == 0 then Attach else Later);
      tasks := seq(n, i => Unscheduled);
      outputs := [];
      new;
      InitKeeps(stages, input);
      assert View().lanes == Init(stages, input).lanes;
    }

    /** `value_->value = std::move(result)` (promise.hpp:62) */
    method SetWrites(i: nat)
      requires Valid() && i < |promises| && promises[i].Write?
      modifies this, Repr()
      ensures Valid() && Repr() == old(Repr())
      ensures View() == Step(old(View()), Choice(i, SettingPromise, false))
      ensures cells == old(cells) && cells[i] != null && old(cells[i].value) == None && old(cells[i].callback) != ValueIsSet
      ensures old(promises)[i].r == Sent(stages, input, i) && cells[i].value == Some(Sent(stages, input, i))
    {
      hide Inv;
      PromiseFinds(View(), input, i);
      Ready(View(), input, i);
      StepKeeps(View(), input, Choice(i, SettingPromise, false));
      ghost var s' := Step(View(), Choice(i, SettingPromise, false));
      cells[i].value := Some(promises[i].r);
      promises := promises[i := SetLoad];
      assert View().lanes == s'.lanes;
    }

    /** `value_->callback.load()` in `Set` (64) */
    method SetLoads(i: nat)
      requires Valid() && i < |promises| && promises[i].SetLoad?
      modifies this
      ensures Valid() && Repr() == old(Repr())
      ensures View() == Step(old(View()), Choice(i, SettingPromise, false))
    {
      hide Inv;
      Ready(View(), input, i);
      StepKeeps(View(), input, Choice(i, SettingPromise, false));
      ghost var s' := Step(View(), Choice(i, SettingPromise, false));
      promises := promises[i := SetSwing(cells[i].callback)];
      assert View().lanes == s'.lanes;
    }

    method ExchangeSet(i: nat, cell: FutureValue, spurious: bool)
      requires i < |promises| && promises[i].SetSwing?
      modifies this`promises, cell`callback
      ensures if old(cell.callback) == old(promises)[i].seen && !spurious
              then cell.callback == ValueIsSet && promises == old(promises)[i := if old(cell.callback).Null? then PromiseDrop else SetSchedule]
              else cell.callback == old(cell.callback) && promises == old(promises)[i := SetSwing(cell.callback)]
    {
      var seen := promises[i].seen;
      if cell.callback == seen && !spurious {
        cell.callback := ValueIsSet;
        promises := promises[i := if seen.Null? then PromiseDrop else SetSchedule];
      } else {
        promises := promises[i := SetSwing(cell.callback)];
      }
    }

    /** The weak compare-exchange of `Set` (65-66) */
    method SetSwings(i: nat, spurious: bool)
      requires Valid() && i < |promises| && promises[i].SetSwing?
      modifies this, Repr()
      ensures Valid() && Repr() == old(Repr())
      ensures View() == Step(old(View()), Choice(i, SettingPromise, spurious))
      ensures cells == old(cells) && cells[i] != null && cells[i].value == old(cells[i].value) == Some(Sent(stages, input, i))
      ensures if old(cells[i].callback) == old(promises)[i].seen && !spurious
              then cells[i].callback == ValueIsSet && promises[i] == if old(cells[i].callback) == Null then PromiseDrop else SetSchedule
              else cells[i].callback == old(cells[i].callback) && promises[i] == SetSwing(cells[i].callback)
      ensures promises[i].SetSchedule? ==> cells[i].executor && Hooked(futures[i])
    {
      hide Inv;
      PromiseFinds(View(), input, i);
      SetSwingEffect(View(), input, i, spurious);
      StepKeeps(View(), input, Choice(i, SettingPromise, spurious));
      hide Step, Sent;
      ghost var s' := Step(View(), Choice(i, SettingPromise, spurious));
      ExchangeSet(i, cells[i], spurious);
      assert View().lanes == s'.lanes;
    }

    /** `Set` hands the value and the callback to the executor (68-74). */
    method SetSchedules(i: nat)
      requires Valid() && i < |promises| && promises[i].SetSchedule?
      modifies this, Repr()
      ensures Valid() && Repr() == old(Repr())
      ensures View() == Step(old(View()), Choice(i, SettingPromise, false))
      ensures old(cells[i]) != null && old(cells[i].executor) && old(cells[i].value) == Some(Sent(stages, input, i))
      ensures old(tasks)[i].Unscheduled? && tasks == old(tasks)[i := Pending(Sent(stages, input, i))] && cells == old(cells)
    {
      hide Inv;
      PromiseFinds(View(), input, i);
      Ready(View(), input, i);
      StepKeeps(View(), input, Choice(i, SettingPromise, false));
      ghost var s' := Step(View(), Choice(i, SettingPromise, false));
      tasks := tasks[i := Pending(cells[i].value.value)];
      cells[i].value := None;
      promises := promises[i := PromiseDrop];
      assert View().lanes == s'.lanes;
    }

    /** The promise's destructor (105-109) */
    method PromiseDrops(i: nat)
      requires Valid() && i < |promises| && promises[i].PromiseDrop?
      modifies this, Repr()
      ensures Valid() && Repr() <= old(Repr())
      ensures View() == Step(old(View()), Choice(i, SettingPromise, false))
      ensures old(cells[i]) != null && cells == old(cells)[i := cells[i]]
      ensures cells[i] == if futures[i].FutureGone? then null else old(cells[i])
    {
      hide Inv;
      PromiseFinds(View(), input, i);
      DropEffect(View(), input, i);
      StepKeeps(View(), input, Choice(i, SettingPromise, false));
      hide Step;
      ghost var s' := Step(View(), Choice(i, SettingPromise, false));
      var last := cells[i].Destroy();
      if last {
        cells := cells[i := null];
      }
      promises := promises[i := PromiseGone];
      assert View().lanes == s'.lanes;
    }

    /** `Via`, and the new contract that `Then` and `Recover` allocate (future.hpp:125-134, 166-170, 177-186, 206-211) */
    method Attaches(i: nat)
      requires Valid() && i < |futures| && futures[i].Attach?
      modifies this, Repr()
      ensures Valid() && fresh(Repr() - old(Repr()))
      ensures View() == Step(old(View()), Choice(i, HookingFuture, false))
      ensures cells[i] != null && cells[i] == old(cells[i]) && cells[i].executor && old(cells[i].callback) != Installed
      ensures i + 1 < |cells| ==> cells[i + 1] != null && fresh(cells[i + 1]) && cells[i + 1].callback == Null && cells[i + 1].owners == 2
    {
      hide Inv;
      ClientFinds(View(), input, i);
      Ready(View(), input, i);
      StepKeeps(View(), input, Choice(i, HookingFuture, false));
      ghost var s' := Step(View(), Choice(i, HookingFuture, false));
      cells[i].executor := true;
      futures := futures[i := HookLoad];
      if i + 1 < |cells| {
        var cell := new FutureValue();
        cells := cells[i + 1 := cell];
      }
      assert View().lanes == s'.lanes;
    }

    /** `value_->callback.load()` in `SetCallback` (146) */
    method HookLoads(i: nat)
      requires Valid() && i < |futures| && futures[i].HookLoad?
      modifies this
      ensures Valid() && Repr() == old(Repr())
      ensures View() == Step(old(View()), Choice(i, HookingFuture, false))
    {
      hide Inv;
      Ready(View(), input, i);
      StepKeeps(View(), input, Choice(i, HookingFuture, false));
      ghost var s' := Step(View(), Choice(i, HookingFuture, false));
      futures := futures[i := HookSwing(cells[i].callback)];
      assert View().lanes == s'.lanes;
    }

    method ExchangeHook(i: nat, cell: FutureValue, spurious: bool)
      requires i < |futures| && futures[i].HookSwing?
      modifies this`futures, cell`callback
      ensures if old(cell.callback) == old(futures)[i].seen && !spurious
              then
                && cell.callback == Installed
                && futures == if old(cell.callback).ValueIsSet? then old(futures)[i := HookSchedule] else Proceeded(old(futures), i)
              else cell.callback == old(cell.callback) && futures == old(futures)[i := HookSwing(cell.callback)]
    {
      var seen := futures[i].seen;
      if cell.callback == seen && !spurious {
        cell.callback := Installed;
        if seen.ValueIsSet? {
          futures := futures[i := HookSchedule];
        } else {
          Proceed(i);
        }
      } else {
        futures := futures[i := HookSwing(cell.callback)];
      }
    }

    /** The weak compare-exchange of `SetCallback` (147-148) */
    method HookSwings(i: nat, spurious: bool)
      requires Valid() && i < |futures| && futures[i].HookSwing?
      modifies this, Repr()
      ensures Valid() && Repr() == old(Repr())
      ensures View() == Step(old(View()), Choice(i, HookingFuture, spurious))
      ensures cells == old(cells) && cells[i] != null && cells[i].executor && (i + 1 < |cells| ==> cells[i + 1] != null)
      ensures if old(cells[i].callback) == old(futures)[i].seen && !spurious
              then cells[i].callback == Installed && futures[i] == if old(cells[i].callback) == ValueIsSet then HookSchedule else FutureDrop
              else cells[i].callback == old(cells[i].callback) && futures[i] == HookSwing(cells[i].callback)
      ensures futures[i].HookSchedule? ==> cells[i].value == Some(Sent(stages, input, i)) && Published(promises[i])
    {
      hide Inv;
      ClientFinds(View(), input, i);
      HookSwingEffect(View(), input, i, spurious);
      StepKeeps(View(), input, Choice(i, HookingFuture, spurious));
      hide Step;
      ghost var s' := Step(View(), Choice(i, HookingFuture, spurious));
      ExchangeHook(i, cells[i], spurious);
      assert View().lanes == s'.lanes;
    }

    /** The client is through with lane `i` and turns to the next one. */
    method Proceed(i: nat)
      requires i < |futures|
      modifies this`futures
      ensures futures == Proceeded(old(futures), i)
    {
      futures := futures[i := FutureDrop];
      if i + 1 < |futures| {
        futures := futures[i + 1 := Attach];
      }
    }

    /** `SetCallback` found the value set and schedules (150-156). */
    method HookSchedules(i: nat)
      requires Valid() && i < |futures| && futures[i].HookSchedule?
      modifies this, Repr()
      ensures Valid() && Repr() == old(Repr())
      ensures View() == Step(old(View()), Choice(i, HookingFuture, false))
      ensures old(cells[i]) != null && old(cells[i].executor) && old(cells[i].value) == Some(Sent(stages, input, i))
      ensures old(tasks)[i].Unscheduled? && tasks == old(tasks)[i := Pending(Sent(stages, input, i))] && cells == old(cells)
    {
      hide Inv;
      ClientFinds(View(), input, i);
      Ready(View(), input, i);
      StepKeeps(View(), input, Choice(i, HookingFuture, false));
      ghost var s' := Step(View(), Choice(i, HookingFuture, false));
      tasks := tasks[i := Pending(cells[i].value.value)];
      cells[i].value := None;
      Proceed(i);
      assert View().lanes == s'.lanes;
    }

    /** The future's destructor (159-164) */
    method FutureDrops(i: nat)
      requires Valid() && i < |futures| && futures[i].FutureDrop?
      modifies this, Repr()
      ensures Valid() && Repr() <= old(Repr())
      ensures View() == Step(old(View()), Choice(i, HookingFuture, false))
      ensures old(cells[i]) != null && cells == old(cells)[i := cells[i]]
      ensures cells[i] == if promises[i].PromiseGone? then null else old(cells[i])
    {
      hide Inv;
      ClientFinds(View(), input, i);
      DropEffect(View(), input, i);
      StepKeeps(View(), input, Choice(i, HookingFuture, false));
      hide Step;
      ghost var s' := Step(View(), Choice(i, HookingFuture, false));
      var last := cells[i].Destroy();
      if last {
        cells := cells[i := null];
      }
      futures := futures[i := FutureGone];
      assert View().lanes == s'.lanes;
    }

    /** `ICallback::Invoke` */
    method Invoke(stage: Stage, r: Result) returns (answer: Result)
      ensures answer == Apply(stage, r)
      ensures stage.Then? ==> answer == if r.Ok? then stage.f(r.value) else r
      ensures stage.Recover? ==> answer == if r.Ok? then r else stage.handler(None)
    {
      match stage {
        case Then(f) => answer := InvokeThen(f, r);
        case Recover(h) => answer := InvokeRecover(h, r);
      }
    }

    /** A worker of the executor takes the task, or runs it to the point where it sets the next promise. */
    method Works(i: nat)
      requires Valid() && i < |tasks| && (tasks[i].Pending? || tasks[i].Running?)
      modifies this
      ensures Valid() && Repr() == old(Repr())
      ensures View() == Step(old(View()), Choice(i, Worker, false))
      ensures cells == old(cells) && old(tasks)[i].r == Sent(stages, input, i)
      ensures if old(tasks)[i].Pending? then tasks == old(tasks)[i := Running(old(tasks)[i].r)] && promises == old(promises) && outputs == old(outputs)
              else
                && tasks == old(tasks)[i := Finished]
                && if i == |stages| then old(outputs) == [] && outputs == [Fold(stages, input)] && promises == old(promises)
                   else outputs == old(outputs) && old(promises)[i + 1].Held? && promises == old(promises)[i + 1 := Write(Answer(stages[i], old(tasks)[i].r))]
    {
      hide Inv, Apply, Sent;
      WorkerFinds(View(), input, i);
      WorkEffect(View(), input, i);
      StepKeeps(View(), input, Choice(i, Worker, false));
      hide Step;
      ghost var s' := Step(View(), Choice(i, Worker, false));
      var r := tasks[i].r;
      if tasks[i].Pending? {
        tasks := tasks[i := Running(r)];
      } else {
        tasks := tasks[i := Finished];
        if i == |stages| {
          outputs := outputs + [r];
        } else {
          var answer := Invoke(stages[i], r);
          promises := promises[i + 1 := Write(answer)];
        }
      }
      assert View().lanes == s'.lanes;
    }

    /** The promise of lane `i` takes its next step. */
    method Sets(i: nat, spurious: bool)
      requires Valid() && i < |cells|
      modifies this, Repr()
      ensures Valid() && Repr() <= old(Repr()) && View() == Step(old(View()), Choice(i, SettingPromise, spurious))
    {
      hide Inv, Step;
      if promises[i].SetSwing? {
        SetSwings(i, spurious);
      } else if promises[i].Held? || promises[i].PromiseGone? {
        NoMove(View(), i, SettingPromise, spurious);
      } else {
        NoExchange(View(), i, SettingPromise, spurious);
        match promises[i] {
          case Write(_) => SetWrites(i);
          case SetLoad => SetLoads(i);
          case SetSchedule => SetSchedules(i);
          case PromiseDrop => PromiseDrops(i);
        }
      }
    }

    /** The client takes its next step in lane `i`. */
    method Hooks(i: nat, spurious: bool)
      requires Valid() && i < |cells|
      modifies this, Repr()
      ensures Valid() && fresh(Repr() - old(Repr())) && View() == Step(old(View()), Choice(i, HookingFuture, spurious))
    {
      hide Inv, Step;
      if futures[i].HookSwing? {
        HookSwings(i, spurious);
      } else if futures[i].Later? || futures[i].FutureGone? {
        NoMove(View(), i, HookingFuture, spurious);
      } else {
        NoExchange(View(), i, HookingFuture, spurious);
        match futures[i] {
          case Attach => Attaches(i);
          case HookLoad => HookLoads(i);
          case HookSchedule => HookSchedules(i);
          case FutureDrop => FutureDrops(i);
        }
      }
    }

    /** Whatever the scheduler picks. */
    method Act(c: Choice)
      requires Valid()
      modifies this, Repr()
      ensures Valid() && fresh(Repr() - old(Repr())) && View() == Step(old(View()), c)
    {
      hide Inv;
      var i := c.lane;
      if i >= |cells| {
        return;
      }
      hide Step;
      match c.party {
        case SettingPromise => Sets(i, c.spurious);
        case HookingFuture => Hooks(i, c.spurious);
        case Worker =>
          if tasks[i].Pending? || tasks[i].Running? {
            NoExchange(View(), i, Worker, c.spurious);
            Works(i);
          } else {
            NoMove(View(), i, Worker, c.spurious);
          }
      }
    }

    /** Any schedule of all parties, one atomic operation at a time. */
    method Drive(schedule: seq<Choice>)
      requires Valid()
      modifies this, Repr()
      ensures Valid() && fresh(Repr() - old(Repr())) && View() == Run(old(View()), schedule)
    {
      hide Inv, Step;
      ghost var start := View();
      for k := 0 to |schedule|
        invariant Valid() && fresh(Repr() - old(Repr())) && View() == Run(start, schedule[..k])
      {
        assert schedule[..k + 1][..k] == schedule[..k];
        assert forall cell | cell in Repr() :: cell in old(Repr()) || fresh(cell);
        Act(schedule[k]);
      }
      assert schedule[..|schedule|] == schedule;
    }
  }
}
