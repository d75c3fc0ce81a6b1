/**
 Histories of concurrent operations and what it means for one to be linearizable.

 A history records, in real-time order, the call and the return of every operation, and (between
 the two) the instant at which the operation took effect.  Erasing the effects leaves what a
 client can observe.
 */
module Histories {
  import opened Basics

  datatype Event<Op, Res> =
    | Call(t: nat, op: Op)
    | Effect(t: nat, op: Op, res: Res)
    | Return(t: nat, res: Res)

  /** Where one thread stands with respect to its current operation. */
  datatype Phase<Op, Res> = Quiet | Called(op: Op) | Done(op: Op, res: Res) | Malformed

  /** A sequential object: the state after `op` answered `res`, or None when that answer is illegal. */
  type Spec<!S, !Op, !Res> = (S, Op, Res) -> Option<S>

  function Advance<Op(==), Res(==)>(p: Phase<Op, Res>, e: Event<Op, Res>): Phase<Op, Res> {
    match (p, e)
    case (Quiet, Call(_, op)) => Called(op)
    case (Called(op), Effect(_, op', res)) => if op == op' then Done(op, res) else Malformed
    case (Done(_, res), Return(_, res')) => if res == res' then Quiet else Malformed
    case _ => Malformed
  }

  /** Replays the events of thread `t`: call, effect, return, call, ... */
  function PhaseOf<Op(==), Res(==)>(h: seq<Event<Op, Res>>, t: nat): Phase<Op, Res> {
    if h == [] then Quiet
    else
      var e := h[|h| - 1];
      var before := PhaseOf(h[..|h| - 1], t);
      if e.t == t then Advance(before, e) else before
  }

  /** Runs the effects, in order, on the sequential object. */
  function Replay<S, Op, Res>(spec: Spec<S, Op, Res>, init: S, h: seq<Event<Op, Res>>): Option<S> {
    if h == [] then Some(init)
    else
      var e := h[|h| - 1];
      match Replay(spec, init, h[..|h| - 1])
      case None => None
      case Some(s) => if e.Effect? then spec(s, e.op, e.res) else Some(s)
  }

  /** What a client sees: calls and returns only. */
  function Observed<Op, Res>(h: seq<Event<Op, Res>>): seq<Event<Op, Res>> {
    if h == [] then []
    else
      var e := h[|h| - 1];
      Observed(h[..|h| - 1]) + if e.Effect? then [] else [e]
  }

  /**
   `calls` is linearizable: one can insert, for every returned operation and possibly for some
   pending ones, an effect between its call and its return so that the effects in order are a legal
   sequential run giving exactly the answers returned.
   */
  ghost predicate Linearizable<S(!new), Op(!new), Res(!new)>
    (spec: Spec<S, Op, Res>, init: S, calls: seq<Event<Op, Res>>)
  {
    exists h: seq<Event<Op, Res>> ::
      Observed(h) == calls && Witness(spec, init, h)
  }

  ghost predicate Witness<S(!new), Op(!new), Res(!new)>
    (spec: Spec<S, Op, Res>, init: S, h: seq<Event<Op, Res>>)
  {
    (forall t: nat :: !PhaseOf(h, t).Malformed?) && Replay(spec, init, h).Some?
  }

  lemma Appended<S, Op, Res>(spec: Spec<S, Op, Res>, init: S, h: seq<Event<Op, Res>>, e: Event<Op, Res>)
    ensures forall t: nat :: PhaseOf(h + [e], t) == if e.t == t then Advance(PhaseOf(h, t), e) else PhaseOf(h, t)
    ensures Replay(spec, init, h + [e]) ==
            match Replay(spec, init, h)
            case None => None
            case Some(s) => if e.Effect? then spec(s, e.op, e.res) else Some(s)
  {
    assert (h + [e])[..|h|] == h;
  }
}
