/**
 `All` over a vector of futures (futures/api/all.hpp): every input's subscriber stores its result in its
 own slot and counts down; the one that reaches zero collects the slots, sets the promise and deletes
 the shared block.  The subscribers run in any order and interleave at every step.  `last` records which
 subscriber that was; no step tests it.
 */
module FuturesAll {
  import opened Basics
  import opened Results

  /** The result of `All`: the values in input order, or an exception. */
  datatype AllResult = Values(values: seq<Value>) | Threw(exception: Exception)

  /** Where one subscriber is (28-49). */
  datatype Subscriber = Waiting | CountDown | Collect | Delete | Returned

  datatype State = State(
    inputs: seq<Result>,
    slots: seq<Option<Result>>,
    count: int,
    alive: bool,
    subscribers: seq<Subscriber>,
    outputs: seq<AllResult>,
    last: Option<nat>,
    fault: bool)

  /** What `All` promises: all the values in input order, or the exception of the first input that has one. */
  function Expected(inputs: seq<Result>): AllResult {
    if inputs == [] then Values([])
    else
      match Expected(inputs[..|inputs| - 1])
      case Threw(e) => Threw(e)
      case Values(vs) =>
        match inputs[|inputs| - 1]
        case Raised(e) => Threw(e)
        case Ok(v) => Values(vs + [v])
  }

  function Move(s: State, i: nat, p: Subscriber): State
    requires i < |s.subscribers|
  {
    s.(subscribers := s.subscribers[i := p])
  }

  /** A slot that was never written would be collected as garbage: that is a fault. */
  function Collected(slots: seq<Option<Result>>): seq<Result>
    requires forall i | 0 <= i < |slots| :: slots[i].Some?
  {
    seq(|slots|, i requires 0 <= i < |slots| => slots[i].value)
  }

  function Step(s: State, i: nat): State {
    if i >= |s.subscribers| || i >= |s.inputs| || i >= |s.slots| || s.subscribers[i].Returned? then s
    else if !s.alive then s.(fault := true)
    else if s.subscribers[i].Waiting? then
      Move(s.(slots := s.slots[i := Some(s.inputs[i])]), i, CountDown)
    else if s.subscribers[i].CountDown? then
      if s.count == 1 then Move(s.(count := 0, last := Some(i)), i, Collect)
      else Move(s.(count := s.count - 1), i, Returned)
    else if s.subscribers[i].Collect? then
      if exists k | 0 <= k < |s.slots| :: s.slots[k].None? then s.(fault := true)
      else Move(s.(outputs := s.outputs + [Expected(Collected(s.slots))]), i, Delete)
    else
      Move(s.(alive := false), i, Returned)
  }

  function Init(inputs: seq<Result>): State {
    State(inputs, seq(|inputs|, i => None), |inputs|, true, seq(|inputs|, i => Waiting), [], None, false)
  }

  function Run(s: State, schedule: seq<nat>): State
    decreases |schedule|
  {
    if schedule == [] then s
    else Step(Run(s, schedule[..|schedule| - 1]), schedule[|schedule| - 1])
  }

  // ---------------------------------------------------------------- invariant

  predicate Early(p: Subscriber) {
    p.Waiting? || p.CountDown?
  }

  /** How many subscribers have not counted down. */
  function Pending(subscribers: seq<Subscriber>): nat {
    if subscribers == [] then 0
    else Pending(subscribers[..|subscribers| - 1]) + if Early(subscribers[|subscribers| - 1]) then 1 else 0
  }

  /** Only the last subscriber gets past the countdown, and it is the one that sets and deletes. */
  ghost predicate LastOk(s: State)
    requires |s.inputs| == |s.subscribers|
  {
    && (forall i | 0 <= i < |s.subscribers| && Late(s.subscribers[i]) :: s.last == Some(i))
    && (if s.last.None? then
          s.alive && s.outputs == [] && (s.count > 0 || s.inputs == [])
        else
          && s.count == 0 && s.last.value < |s.subscribers|
          && match s.subscribers[s.last.value]
             case Collect => s.alive && s.outputs == []
             case Delete => s.alive && s.outputs == [Expected(s.inputs)]
             case _ => !s.alive && s.outputs == [Expected(s.inputs)])
  }

  ghost predicate Inv(s: State) {
    && !s.fault
    && |s.inputs| == |s.slots| == |s.subscribers|
    && s.count == Pending(s.subscribers)
    && (forall i | 0 <= i < |s.slots| :: s.slots[i] == if s.subscribers[i].Waiting? then None else Some(s.inputs[i]))
    && LastOk(s)
  }

  /** The subscriber that counted down to zero, until it deletes the shared block. */
  predicate Late(p: Subscriber) {
    p.Collect? || p.Delete?
  }

  lemma {:induction false} PendingUpdate(subscribers: seq<Subscriber>, i: nat, p: Subscriber)
    requires i < |subscribers|
    ensures Pending(subscribers[i := p]) ==
            Pending(subscribers) - (if Early(subscribers[i]) then 1 else 0) + if Early(p) then 1 else 0
    ensures Early(subscribers[i]) ==> Pending(subscribers) > 0
  {
    var n := |subscribers| - 1;
    if i == n {
      assert subscribers[i := p][..n] == subscribers[..n];
    } else {
      assert subscribers[i := p][..n] == subscribers[..n][i := p];
      PendingUpdate(subscribers[..n], i, p);
    }
  }

  lemma {:induction false} NonePending(subscribers: seq<Subscriber>)
    ensures Pending(subscribers) == 0 <==> forall i | 0 <= i < |subscribers| :: !Early(subscribers[i])
  {
    if subscribers != [] {
      NonePending(subscribers[..|subscribers| - 1]);
    }
  }

  /** One is left to count down exactly if nobody else is. */
  lemma LastPending(subscribers: seq<Subscriber>, i: nat)
    requires i < |subscribers| && Early(subscribers[i])
    ensures Pending(subscribers) == 1 <==> forall k | 0 <= k < |subscribers| && k != i :: !Early(subscribers[k])
  {
    PendingUpdate(subscribers, i, Returned);
    NonePending(subscribers[i := Returned]);
    hide Pending;
  }

  lemma StoreKeeps(s: State, i: nat)
    requires Inv(s) && i < |s.subscribers| && s.subscribers[i].Waiting?
    ensures Inv(Step(s, i))
  {
    NonePending(s.subscribers);
    PendingUpdate(s.subscribers, i, CountDown);
    hide Pending, Expected;
  }

  lemma CountDownKeeps(s: State, i: nat)
    requires Inv(s) && i < |s.subscribers| && s.subscribers[i].CountDown?
    ensures Inv(Step(s, i))
  {
    NonePending(s.subscribers);
    PendingUpdate(s.subscribers, i, if s.count == 1 then Collect else Returned);
    hide Pending, Expected;
  }

  /** The last subscriber collects the inputs' own results: every slot is written by then. */
  lemma LateKeeps(s: State, i: nat)
    requires Inv(s) && i < |s.subscribers| && Late(s.subscribers[i])
    ensures Inv(Step(s, i))
  {
    NonePending(s.subscribers);
    if s.subscribers[i].Collect? {
      assert Collected(s.slots) == s.inputs;
    }
    PendingUpdate(s.subscribers, i, if s.subscribers[i].Collect? then Delete else Returned);
    hide Pending, Expected;
  }

  lemma StepKeeps(s: State, i: nat)
    requires Inv(s)
    ensures Inv(Step(s, i)) && Step(s, i).inputs == s.inputs
  {
    hide Inv;
    if i < |s.subscribers| {
      match s.subscribers[i]
      case Waiting => StoreKeeps(s, i);
      case CountDown => CountDownKeeps(s, i);
      case Returned =>
      case _ => LateKeeps(s, i);
    }
  }

  lemma {:induction false} InitPending(n: nat)
    ensures Pending(seq(n, i => Waiting)) == n
  {
    if n > 0 {
      InitPending(n - 1);
      assert seq(n, i => Waiting)[..n - 1] == seq(n - 1, i => Waiting);
    }
  }

  lemma {:induction false} RunKeeps(inputs: seq<Result>, schedule: seq<nat>)
    ensures Inv(Run(Init(inputs), schedule)) && Run(Init(inputs), schedule).inputs == inputs
    decreases |schedule|
  {
    hide Step;
    if schedule == [] {
      InitPending(|inputs|);
    } else {
      hide Inv;
      RunKeeps(inputs, schedule[..|schedule| - 1]);
      StepKeeps(Run(Init(inputs), schedule[..|schedule| - 1]), schedule[|schedule| - 1]);
    }
  }

  // ---------------------------------------------------------------- theorems

  /** In every order the output is set at most once, to the promised result, and nothing is used after deletion. */
  lemma AllSetsOnce(inputs: seq<Result>, schedule: seq<nat>)
    ensures var s := Run(Init(inputs), schedule);
      !s.fault && (s.outputs == [] || s.outputs == [Expected(inputs)])
  {
    hide Run, Expected, Pending;
    RunKeeps(inputs, schedule);
  }

  /** When every subscriber has returned, the output is set and the shared block is deleted. */
  lemma AllDelivers(inputs: seq<Result>, schedule: seq<nat>)
    requires inputs != []
    requires var s := Run(Init(inputs), schedule); forall i | 0 <= i < |s.subscribers| :: s.subscribers[i].Returned?
    ensures var s := Run(Init(inputs), schedule); s.outputs == [Expected(inputs)] && !s.alive
  {
    hide Run, Expected;
    RunKeeps(inputs, schedule);
    NonePending(Run(Init(inputs), schedule).subscribers);
  }

  /** How often subscriber `i` moves. */
  function Moves(schedule: seq<nat>, i: nat): nat {
    if schedule == [] then 0 else Moves(schedule[..|schedule| - 1], i) + if schedule[|schedule| - 1] == i then 1 else 0
  }

  /** How many steps a subscriber has left at most. */
  function StepsLeft(p: Subscriber): nat {
    match p
    case Waiting => 4
    case CountDown => 3
    case Collect => 2
    case Delete => 1
    case Returned => 0
  }

  lemma SubscriberMoves(s: State, i: nat, k: nat)
    requires Inv(s) && k < |s.subscribers|
    ensures |Step(s, i).subscribers| == |s.subscribers|
    ensures var p, p' := s.subscribers[k], Step(s, i).subscribers[k];
      if i != k || p.Returned? then p' == p else StepsLeft(p') < StepsLeft(p)
  {
    if i == k && !s.subscribers[k].Returned? {
      Alive(s, k);
      StepKeeps(s, i);
    }
    hide Inv, LastOk, Pending, Expected;
  }

  lemma {:induction false} MovesOn(inputs: seq<Result>, schedule: seq<nat>, k: nat)
    requires k < |inputs|
    ensures var s := Run(Init(inputs), schedule);
      |s.subscribers| == |inputs| && (s.subscribers[k].Returned? || StepsLeft(s.subscribers[k]) + Moves(schedule, k) <= 4)
    decreases |schedule|
  {
    if schedule != [] {
      var front := schedule[..|schedule| - 1];
      MovesOn(inputs, front, k);
      RunKeeps(inputs, front);
      SubscriberMoves(Run(Init(inputs), front), schedule[|schedule| - 1], k);
      hide Step, Init;
    }
  }

  /** Nobody waits for anybody: once every subscriber has moved four times, in any order, the result is there. */
  lemma AllEnds(inputs: seq<Result>, schedule: seq<nat>)
    requires inputs != [] && forall k | 0 <= k < |inputs| :: Moves(schedule, k) >= 4
    ensures var s := Run(Init(inputs), schedule); s.outputs == [Expected(inputs)] && !s.alive
  {
    hide Run, Expected;
    RunKeeps(inputs, schedule);
    forall k | 0 <= k < |inputs| ensures Run(Init(inputs), schedule).subscribers[k].Returned? {
      MovesOn(inputs, schedule, k);
    }
    AllDelivers(inputs, schedule);
  }

  /** The promised result when every input has a value: all of them, in input order. */
  lemma {:induction false} ExpectedValues(inputs: seq<Result>)
    requires forall i | 0 <= i < |inputs| :: inputs[i].Ok?
    ensures Expected(inputs).Values? && |Expected(inputs).values| == |inputs|
    ensures forall i | 0 <= i < |inputs| :: Expected(inputs).values[i] == inputs[i].value
  {
    if inputs != [] {
      ExpectedValues(inputs[..|inputs| - 1]);
    }
  }

  /** The promised result otherwise: the exception of the input with the lowest index, whoever finished first. */
  lemma ExpectedException(inputs: seq<Result>, k: nat)
    requires k < |inputs| && inputs[k].Raised? && forall i | 0 <= i < k :: inputs[i].Ok?
    ensures Expected(inputs) == Threw(inputs[k].exception)
  {
    ExpectedValues(inputs[..k]);
    assert inputs[..k + 1][..k] == inputs[..k];
    FirstExceptionStays(inputs, k + 1, inputs[k].exception);
  }

  /** With no inputs nobody ever counts down and the promise is never set. */
  lemma {:induction false} AllOfNothing(schedule: seq<nat>)
    ensures Run(Init([]), schedule).outputs == [] && Run(Init([]), schedule).subscribers == []
    decreases |schedule|
  {
    if schedule != [] {
      AllOfNothing(schedule[..|schedule| - 1]);
    }
  }

  // ---------------------------------------------------------------- the shared block

  /** The block of futures/api/all.hpp:13-25, one method per atomic step of a subscriber. */
  class VectorPromise {
    const inputs: seq<Result>
    const slots: array<Option<Result>>
    var count: int
    var alive: bool
    var subscribers: seq<Subscriber>
    var outputs: seq<AllResult>
    ghost var last: Option<nat>

    ghost function View(): State
      reads this, slots
    {
      State(inputs, slots[..], count, alive, subscribers, outputs, last, false)
    }

    ghost predicate Valid()
      reads this, slots
    {
      Inv(View())
    }

    constructor (inputs: seq<Result>)
      ensures Valid() && View() == Init(inputs) && fresh(slots)
    {
      this.inputs := inputs;
      slots := new Option<Result>[|inputs|](i => None);
      count, alive, outputs, last := |inputs|, true, [], None;
      subscribers := seq(|inputs|, i => Waiting);
      new;
      assert slots[..] == Init(inputs).slots;
      InitPending(|inputs|);
    }

    /** `promise->promise_value[index] = std::move(result)` (29) */
    method Stores(i: nat)
      requires Valid() && i < |subscribers| && subscribers[i].Waiting?
      modifies this, slots
      ensures Valid() && View() == Step(old(View()), i)
      ensures i < slots.Length && old(slots[i]) == None && slots[..] == old(slots[..])[i := Some(inputs[i])]
      ensures alive && subscribers == old(subscribers)[i := CountDown]
    {
      StepKeeps(View(), i);
      Alive(View(), i);
      hide Inv;
      slots[i] := Some(inputs[i]);
      subscribers := subscribers[i := CountDown];
    }

    /** `promise->count.fetch_sub(1) != 1` (31-33) */
    method CountsDown(i: nat)
      requires Valid() && i < |subscribers| && subscribers[i].CountDown?
      modifies this
      ensures Valid() && View() == Step(old(View()), i)
      ensures |subscribers| == |old(subscribers)| && (forall k | 0 <= k < |subscribers| && k != i :: subscribers[k] == old(subscribers)[k])
      ensures if forall k | 0 <= k < |subscribers| && k != i :: !Early(subscribers[k]) then subscribers[i] == Collect
              else subscribers[i] == Returned
    {
      LastPending(subscribers, i);
      StepKeeps(View(), i);
      Alive(View(), i);
      hide Inv;
      var before := count;
      count := count - 1;
      if before == 1 {
        last := Some(i);
        subscribers := subscribers[i := Collect];
      } else {
        subscribers := subscribers[i := Returned];
      }
    }

    /** The loop that moves the results out and stops at the first exception (37-46). */
    method Gather() returns (result: AllResult)
      requires forall k | 0 <= k < slots.Length :: slots[..][k].Some?
      ensures result == Expected(Collected(slots[..]))
    {
      ghost var collected := Collected(slots[..]);
      var vec: seq<Value> := [];
      var k := 0;
      while k < slots.Length && slots[k].value.Ok?
        invariant 0 <= k <= slots.Length && Expected(collected[..k]) == Values(vec)
      {
        assert collected[..k + 1][..k] == collected[..k];
        vec := vec + [slots[k].value.value];
        k := k + 1;
      }
      if k < slots.Length {
        assert collected[..k + 1][..k] == collected[..k];
        result := Threw(slots[k].value.exception);
        FirstExceptionStays(collected, k + 1, result.exception);
      } else {
        assert collected[..k] == collected;
        result := Values(vec);
      }
    }

    /** Setting the promise from the collected results (36-47). */
    method Collects(i: nat)
      requires Valid() && i < |subscribers| && subscribers[i].Collect?
      modifies this
      ensures Valid() && View() == Step(old(View()), i)
      ensures (forall k | 0 <= k < slots.Length :: slots[k].Some?) && (forall k | 0 <= k < |subscribers| :: !Early(subscribers[k]))
      ensures alive && old(outputs) == [] && outputs == [Expected(inputs)] && subscribers == old(subscribers)[i := Delete]
    {
      LastFinds(View(), i);
      StepKeeps(View(), i);
      Alive(View(), i);
      NonePending(subscribers);
      assert forall k | 0 <= k < slots.Length :: slots[..][k].Some?;
      hide Inv, Expected, Collected;
      var result := Gather();
      outputs := outputs + [result];
      subscribers := subscribers[i := Delete];
    }

    /** `delete promise` (48) */
    method Deletes(i: nat)
      requires Valid() && i < |subscribers| && subscribers[i].Delete?
      modifies this
      ensures Valid() && View() == Step(old(View()), i)
      ensures old(alive) && !alive && outputs == [Expected(inputs)]
      ensures forall k | 0 <= k < |subscribers| :: subscribers[k].Returned?
    {
      LastFinds(View(), i);
      StepKeeps(View(), i);
      Alive(View(), i);
      hide Inv;
      alive := false;
      subscribers := subscribers[i := Returned];
    }

    /** Whatever the scheduler picks. */
    method Act(i: nat)
      requires Valid()
      modifies this, slots
      ensures Valid() && View() == Step(old(View()), i)
    {
      Sizes(View());
      hide Inv, Step;
      if i >= |subscribers| || subscribers[i].Returned? {
        Rests(View(), i);
        return;
      }
      match subscribers[i] {
        case Waiting => Stores(i);
        case CountDown => CountsDown(i);
        case Collect => Collects(i);
        case Delete => Deletes(i);
      }
    }

    /** Any order of the subscribers, one atomic operation at a time. */
    method Drive(schedule: seq<nat>)
      requires Valid()
      modifies this, slots
      ensures Valid() && View() == Run(old(View()), schedule)
    {
      hide Inv, Step;
      ghost var start := View();
      for k := 0 to |schedule|
        invariant Valid() && View() == Run(start, schedule[..k])
      {
        assert schedule[..k + 1][..k] == schedule[..k];
        Act(schedule[k]);
      }
      assert schedule[..|schedule|] == schedule;
    }
  }

  lemma Sizes(s: State)
    requires Inv(s)
    ensures |s.inputs| == |s.slots| == |s.subscribers|
  {
  }

  lemma Rests(s: State, i: nat)
    requires i >= |s.subscribers| || s.subscribers[i].Returned?
    ensures Step(s, i) == s
  {
  }

  /** What the last subscriber knows when it has counted down. */
  lemma LastFinds(s: State, i: nat)
    requires Inv(s) && i < |s.subscribers| && Late(s.subscribers[i])
    ensures |s.slots| == |s.inputs| && (forall k | 0 <= k < |s.slots| :: s.slots[k] == Some(s.inputs[k]))
    ensures forall k | 0 <= k < |s.subscribers| && k != i :: s.subscribers[k].Returned?
    ensures s.outputs == if s.subscribers[i].Collect? then [] else [Expected(s.inputs)]
  {
    NonePending(s.subscribers);
    hide Pending, Expected;
  }

  /** A subscriber that has not returned finds the shared block alive. */
  lemma Alive(s: State, i: nat)
    requires Inv(s) && i < |s.subscribers| && !s.subscribers[i].Returned?
    ensures s.alive
  {
    NonePending(s.subscribers);
  }

  lemma {:induction false} FirstExceptionStays(inputs: seq<Result>, k: nat, e: Exception)
    requires k <= |inputs| && Expected(inputs[..k]) == Threw(e)
    ensures Expected(inputs) == Threw(e)
  {
    if k < |inputs| {
      assert inputs[..|inputs| - 1][..k] == inputs[..k];
      FirstExceptionStays(inputs[..|inputs| - 1], k, e);
    } else {
      assert inputs[..k] == inputs;
    }
  }
}
