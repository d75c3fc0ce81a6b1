/**
 A pipeline of futures (futures/future.hpp, futures/promise.hpp, futures/future_value.hpp) as a machine of
 atomic steps.

 Lane `i` is one shared `FutureValue` with the promise that will be set, the future whose continuation
 will be installed, and the executor task that runs the continuation.  The continuation of the last
 lane is a subscriber; every other one is a `Then` or a `Recover` that sets the promise of the next
 lane.  Any enabled party of any lane may move next.
 */
module Futures {
  import opened Basics
  import opened Results

  /** A functor answers a value or throws.  A recover handler is passed an `exception_ptr`, which may be null. */
  datatype Stage = Then(f: Value -> Result) | Recover(handler: Option<Exception> -> Result)

  /** `ThenCallback::Invoke` (then_callback.hpp:25-35) and `RecoverCallback::Invoke` (recover_callback.hpp:23-39) */
  function Apply(stage: Stage, r: Result): Result {
    match stage
    case Then(f) => if r.Raised? then r else f(r.value)
    case Recover(h) => if r.Raised? then h(None) else r
  }

  /** The stages from left to right. */
  function Fold(stages: seq<Stage>, r: Result): Result {
    if stages == [] then r else Apply(stages[|stages| - 1], Fold(stages[..|stages| - 1], r))
  }

  // ---------------------------------------------------------------- state

  /** The callback word (future_value.hpp:21-25) */
  datatype Word = Null | ValueIsSet | Installed

  datatype Cell = Cell(value: Option<Result>, word: Word, executor: bool, owners: int)

  /** `Promise::Set` (promise.hpp:60-79) and the promise's destructor. */
  datatype PromiseAt =
    | Held
    | Write(r: Result)
    | SetLoad
    | SetSwing(seen: Word)
    | SetSchedule
    | PromiseDrop
    | PromiseGone

  /** `Via`, `Then`/`Recover`/`Subscribe` up to `SetCallback` (future.hpp:144-157), and the future's destructor. */
  datatype FutureAt =
    | Later
    | Attach
    | HookLoad
    | HookSwing(seen: Word)
    | HookSchedule
    | FutureDrop
    | FutureGone

  datatype TaskAt = Unscheduled | Pending(r: Result) | Running(r: Result) | Finished

  datatype Lane = Lane(cell: Option<Cell>, promise: PromiseAt, future: FutureAt, task: TaskAt)

  datatype State = State(stages: seq<Stage>, lanes: seq<Lane>, outputs: seq<Result>, fault: bool)

  datatype Party = SettingPromise | HookingFuture | Worker

  /** Lane, party, and whether a weak compare-exchange fails for no reason. */
  datatype Choice = Choice(lane: nat, party: Party, spurious: bool)

  /** Nothing of this lane exists yet. */
  const BLANK := Lane(None, Held, Later, Unscheduled)

  const FRESH := Cell(None, Null, false, 2)

  // ---------------------------------------------------------------- one lane

  /** One owner less; the last one deletes the cell. */
  function Dropped(cell: Option<Cell>): Option<Cell>
    requires cell.Some?
  {
    var owners := cell.value.owners;
    if owners == 1 then None else Some(cell.value.(owners := owners - 1))
  }

  /** The value moves into the closure handed to the executor. */
  function Scheduled(l: Lane): Lane
    requires l.cell.Some? && l.cell.value.value.Some?
  {
    l.(task := Pending(l.cell.value.value.value), cell := Some(l.cell.value.(value := None)))
  }

  /** Whether the party's next step finds what it needs: a live cell, and a value and an executor to schedule with. */
  predicate CanMove(l: Lane, party: Party) {
    match party
    case SettingPromise =>
      (!l.promise.Held? && !l.promise.PromiseGone? ==> l.cell.Some?)
      && (l.promise.SetSchedule? ==> l.cell.value.value.Some? && l.cell.value.executor && l.task.Unscheduled?)
    case HookingFuture =>
      (!l.future.Later? && !l.future.FutureGone? ==> l.cell.Some?)
      && (l.future.HookSchedule? ==> l.cell.value.value.Some? && l.cell.value.executor && l.task.Unscheduled?)
    case Worker => true
  }

  function PromiseStep(l: Lane, spurious: bool): Lane
    requires CanMove(l, SettingPromise)
  {
    match l.promise
    case Held => l
    case Write(r) => l.(cell := Some(l.cell.value.(value := Some(r))), promise := SetLoad)
    case SetLoad => l.(promise := SetSwing(l.cell.value.word))
    case SetSwing(seen) =>
      if l.cell.value.word == seen && !spurious then
        l.(cell := Some(l.cell.value.(word := ValueIsSet)), promise := if seen.Null? then PromiseDrop else SetSchedule)
      else
        l.(promise := SetSwing(l.cell.value.word))
    case SetSchedule => Scheduled(l).(promise := PromiseDrop)
    case PromiseDrop => l.(cell := Dropped(l.cell), promise := PromiseGone)
    case PromiseGone => l
  }

  function FutureStep(l: Lane, spurious: bool): Lane
    requires CanMove(l, HookingFuture)
  {
    match l.future
    case Later => l
    case Attach => l.(cell := Some(l.cell.value.(executor := true)), future := HookLoad)
    case HookLoad => l.(future := HookSwing(l.cell.value.word))
    case HookSwing(seen) =>
      if l.cell.value.word == seen && !spurious then
        l.(cell := Some(l.cell.value.(word := Installed)), future := if seen.ValueIsSet? then HookSchedule else FutureDrop)
      else
        l.(future := HookSwing(l.cell.value.word))
    case HookSchedule => Scheduled(l).(future := FutureDrop)
    case FutureDrop => l.(cell := Dropped(l.cell), future := FutureGone)
    case FutureGone => l
  }

  // ---------------------------------------------------------------- the pipeline

  /** The client is past `SetCallback` on this lane. */
  predicate Hooked(f: FutureAt) {
    f.FutureDrop? || f.FutureGone?
  }

  /** What a step of the client in one lane does to the next: it creates the cell, then moves on to it. */
  function Carried(f: FutureAt, f': FutureAt, next: Lane): Lane {
    if f.Attach? && !f'.Attach? then next.(cell := Some(FRESH))
    else if !Hooked(f) && Hooked(f') then next.(future := Attach)
    else next
  }

  /** A worker takes the task, then runs the continuation, which sets the next promise or the output. */
  function WorkerStep(s: State, i: nat): State
    requires i < |s.lanes| == |s.stages| + 1
  {
    var l := s.lanes[i];
    match l.task
    case Unscheduled => s
    case Pending(r) => s.(lanes := s.lanes[i := l.(task := Running(r))])
    case Running(r) =>
      var s' := s.(lanes := s.lanes[i := l.(task := Finished)]);
      if i == |s.stages| then s'.(outputs := s.outputs + [r])
      else s'.(lanes := s'.lanes[i + 1 := s.lanes[i + 1].(promise := Write(Apply(s.stages[i], r)))])
    case Finished => s
  }

  function HookStep(s: State, i: nat, spurious: bool): State
    requires i < |s.lanes| && CanMove(s.lanes[i], HookingFuture)
  {
    var l := s.lanes[i];
    var l' := FutureStep(l, spurious);
    var s' := s.(lanes := s.lanes[i := l']);
    if i + 1 == |s.lanes| then s'
    else s'.(lanes := s'.lanes[i + 1 := Carried(l.future, l'.future, s.lanes[i + 1])])
  }

  function Step(s: State, c: Choice): State {
    if c.lane >= |s.lanes| || |s.lanes| != |s.stages| + 1 then s
    else if !CanMove(s.lanes[c.lane], c.party) then s.(fault := true)
    else
      match c.party
      case SettingPromise => s.(lanes := s.lanes[c.lane := PromiseStep(s.lanes[c.lane], c.spurious)])
      case HookingFuture => HookStep(s, c.lane, c.spurious)
      case Worker => WorkerStep(s, c.lane)
  }

  /** A contract whose promise will be set to `input` and whose future will get the stages and a subscriber. */
  function Init(stages: seq<Stage>, input: Result): State {
    State(stages,
          seq(|stages| + 1, i => if i == 0 then Lane(Some(FRESH), Write(input), Attach, Unscheduled) else BLANK),
          [], false)
  }

  function Run(s: State, schedule: seq<Choice>): State
    decreases |schedule|
  {
    if schedule == [] then s
    else Step(Run(s, schedule[..|schedule| - 1]), schedule[|schedule| - 1])
  }

  // ---------------------------------------------------------------- invariant

  /** The promise side is past its compare-exchange. */
  predicate Published(p: PromiseAt) {
    p.SetSchedule? || p.PromiseDrop? || p.PromiseGone?
  }

  predicate HookIn(f: FutureAt) {
    f.HookSchedule? || Hooked(f)
  }

  predicate Exists(l: Lane) {
    !(l.promise.PromiseGone? && l.future.FutureGone?)
  }

  /** The word says which sides have arrived. */
  predicate WordOk(l: Lane, word: Word) {
    && (!Published(l.promise) && !HookIn(l.future) ==> word == Null)
    && (Published(l.promise) && !HookIn(l.future) ==> word == ValueIsSet)
    && (!Published(l.promise) && HookIn(l.future) ==> word == Installed)
    && (l.promise.SetSwing? ==> l.promise.seen.Null? || (l.promise.seen.Installed? && word == Installed))
    && (l.future.HookSwing? ==> l.future.seen.Null? || (l.future.seen.ValueIsSet? && word == ValueIsSet))
  }

  /** The two sides met: exactly one of them schedules the continuation, once. */
  predicate Met(l: Lane) {
    if Published(l.promise) && HookIn(l.future) then
      && !(l.promise.SetSchedule? && l.future.HookSchedule?)
      && (l.task.Unscheduled? <==> l.promise.SetSchedule? || l.future.HookSchedule?)
    else
      l.task.Unscheduled? && !l.promise.SetSchedule? && !l.future.HookSchedule?
  }

  predicate CellOk(l: Lane, c: Cell, r: Result) {
    && WordOk(l, c.word)
    && c.owners == (if l.promise.PromiseGone? then 0 else 1) + (if l.future.FutureGone? then 0 else 1)
    && (c.executor <==> !l.future.Later? && !l.future.Attach?)
    && c.value == if l.promise.Held? || l.promise.Write? || !l.task.Unscheduled? then None else Some(r)
  }

  /** A lane whose cell exists, has existed, or is gone; `r` is the value it transports. */
  predicate LaneOk(l: Lane, r: Result) {
    && (l.cell.Some? <==> Exists(l))
    && (l.cell.Some? ==> CellOk(l, l.cell.value, r))
    && Met(l)
    && (l.promise.Write? ==> l.promise.r == r)
    && (l.task.Pending? || l.task.Running? ==> l.task.r == r)
  }

  /** How far the next lane can be. */
  predicate Chained(l: Lane, next: Lane) {
    && (l.future.Later? || l.future.Attach? <==> next == BLANK)
    && (next.promise.Held? <==> !l.task.Finished?)
    && (next.future.Later? <==> !Hooked(l.future))
  }

  function Sent(stages: seq<Stage>, input: Result, i: nat): Result
    requires i <= |stages|
  {
    Fold(stages[..i], input)
  }

  ghost predicate Inv(s: State, input: Result) {
    && !s.fault
    && |s.lanes| == |s.stages| + 1
    && (forall i | 0 <= i < |s.lanes| :: s.lanes[i] == BLANK || LaneOk(s.lanes[i], Sent(s.stages, input, i)))
    && (forall i | 0 <= i < |s.lanes| - 1 :: Chained(s.lanes[i], s.lanes[i + 1]))
    && s.lanes[0] != BLANK && !s.lanes[0].promise.Held? && !s.lanes[0].future.Later?
    && s.outputs == if s.lanes[|s.stages|].task.Finished? then [Fold(s.stages, input)] else []
  }
}
