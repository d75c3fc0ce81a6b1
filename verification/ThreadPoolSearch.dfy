/**
 A worker's search for a task over whole runs (thread_pool.cpp:141-211, 218-268), with every other thread moving in
 between: it ends, it takes from the first place in order that has something, and it comes back without a task only if
 every place had nothing.
 */
module ThreadPoolSearch {
  import opened Basics
  import opened ThreadPool
  import opened ThreadPoolTheorems
  import opened ThreadPoolPlaces

  /** How many of these steps are `w`'s. */
  function OwnSteps(after: seq<Choice>, w: nat): nat {
    if after == [] then 0 else OwnSteps(after[..|after| - 1], w) + if after[|after| - 1].t == w then 1 else 0
  }

  predicate Looking(l: Local) {
    l.Take? || l.StealGrab?
  }

  /** The steps `after` begin a search of worker `w`, which is still going on. */
  ghost predicate InSearch(workers: nat, clients: nat, before: seq<Choice>, after: seq<Choice>, w: nat) {
    && w < workers && Run(workers, clients, before).threads[w].Loop?
    && after != [] && after[0].t == w
    && forall i | 0 < i <= |after| :: Looking(Run(workers, clients, before + after[..i]).threads[w])
  }

  /** The `i`-th step of the search is a theft that took nothing. */
  ghost predicate TookNothing(workers: nat, clients: nat, before: seq<Choice>, after: seq<Choice>, w: nat, i: nat)
    requires w < workers && i < |after|
  {
    var s, s' := Run(workers, clients, before + after[..i]), Run(workers, clients, before + after[..i + 1]);
    s.threads[w].StealGrab? && s'.threads[w].Take? && s'.rings == s.rings
  }

  /**
   The search found nothing at this place: the worker's own slot or ring is still empty, the global queue was
   empty at some moment of the search, no theft was left, or the theft took nothing.
   */
  ghost predicate NothingAt(p: Source, workers: nat, clients: nat, before: seq<Choice>, after: seq<Choice>, w: nat)
    requires w < workers
  {
    var s := Run(workers, clients, before + after);
    match p
    case LifoSlot => s.slots[w].None?
    case LocalQueue => s.rings[w] == []
    case GlobalQueue => exists i | 0 < i <= |after| :: Run(workers, clients, before + after[..i]).global == []
    case Steal => s.robbers >= workers || exists i | 0 <= i < |after| :: TookNothing(workers, clients, before, after, w, i)
  }

  /** All that the places before turn `k` showed, of a worker that has not come back from its theft yet if it set out to steal. */
  ghost predicate SearchedSoFar(workers: nat, clients: nat, before: seq<Choice>, after: seq<Choice>, w: nat, k: nat)
    requires InSearch(workers, clients, before, after, w)
  {
    var draw, bypasses := after[0].draw, Run(workers, clients, before).bypasses[w];
    var l := Run(workers, clients, before + after).threads[w];
    && Searching(l, k, draw, bypasses)
    && forall p | Turn(p, draw, bypasses) < k && !(p.Steal? && l.StealGrab?) :: NothingAt(p, workers, clients, before, after, w)
  }

  lemma RunMore(workers: nat, clients: nat, schedule: seq<Choice>, c: Choice)
    ensures Run(workers, clients, schedule + [c]) == Step(Run(workers, clients, schedule), c)
  {
    RunLast(workers, clients, schedule + [c]);
    assert (schedule + [c])[..|schedule|] == schedule;
  }

  /** The front of a search is a search. */
  lemma FrontOf(workers: nat, clients: nat, before: seq<Choice>, front: seq<Choice>, c: Choice, w: nat)
    requires InSearch(workers, clients, before, front + [c], w) && front != []
    ensures InSearch(workers, clients, before, front, w)
    ensures Looking(Run(workers, clients, before + front + [c]).threads[w])
  {
    hide Run;
    var after := front + [c];
    forall i | 0 < i <= |front| ensures Looking(Run(workers, clients, before + front[..i]).threads[w]) {
      assert front[..i] == after[..i];
    }
    assert after[..|after|] == after && before + after == before + front + [c];
  }

  /** What the search saw before is still seen when it goes on. */
  lemma StillSeen(workers: nat, clients: nat, before: seq<Choice>, front: seq<Choice>, c: Choice, w: nat)
    requires w < workers
    ensures NothingAt(GlobalQueue, workers, clients, before, front, w) ==> NothingAt(GlobalQueue, workers, clients, before, front + [c], w)
    ensures forall i | 0 <= i < |front| && TookNothing(workers, clients, before, front, w, i) :: TookNothing(workers, clients, before, front + [c], w, i)
  {
    hide Run;
    var after := front + [c];
    assert forall i | 0 <= i <= |front| :: front[..i] == after[..i];
  }

  /** What was found missing stays missing: nobody else fills a worker's slot or ring, and a search fills neither. */
  lemma StillNothing(p: Source, workers: nat, clients: nat, before: seq<Choice>, front: seq<Choice>, c: Choice, w: nat)
    requires w < workers && NothingAt(p, workers, clients, before, front, w)
    requires var s, s' := Run(workers, clients, before + front), Run(workers, clients, before + front + [c]);
      s'.robbers >= s.robbers && (s.slots[w].None? ==> s'.slots[w].None?) && (s.rings[w] == [] ==> s'.rings[w] == [])
    ensures NothingAt(p, workers, clients, before, front + [c], w)
  {
    hide Run;
    StillSeen(workers, clients, before, front, c, w);
    hide TookNothing;
    assert before + (front + [c]) == before + front + [c];
  }

  /** A place that shows nothing now has nothing for the search. */
  lemma NothingNow(p: Source, workers: nat, clients: nat, before: seq<Choice>, after: seq<Choice>, w: nat)
    requires w < workers && after != [] && Empty(p, Run(workers, clients, before + after), w)
    ensures NothingAt(p, workers, clients, before, after, w)
  {
    hide Run;
    assert after[..|after|] == after;
  }

  /** A theft that came back. */
  lemma NothingStolen(workers: nat, clients: nat, before: seq<Choice>, front: seq<Choice>, c: Choice, w: nat)
    requires w < workers
    requires var s, s' := Run(workers, clients, before + front), Run(workers, clients, before + front + [c]);
      s.threads[w].StealGrab? && s'.threads[w].Take? && s'.rings == s.rings
    ensures NothingAt(Steal, workers, clients, before, front + [c], w)
  {
    hide Run;
    var after := front + [c];
    assert after[..|front|] == front && after[..|front| + 1] == after && before + after == before + front + [c];
    assert TookNothing(workers, clients, before, after, w, |front|);
  }

  /** Somebody else moves. */
  lemma OtherMoves(workers: nat, clients: nat, before: seq<Choice>, front: seq<Choice>, c: Choice, w: nat, k: nat)
    requires front != [] && InSearch(workers, clients, before, front, w) && InSearch(workers, clients, before, front + [c], w) && c.t != w
    requires SearchedSoFar(workers, clients, before, front, w, k)
    ensures SearchedSoFar(workers, clients, before, front + [c], w, k)
  {
    hide Run, Step, Conserved, Waiting, Debts, Unannounced;
    var s := Run(workers, clients, before + front);
    OthersStep(s, w, c);
    RunMore(workers, clients, before + front, c);
    assert before + (front + [c]) == before + front + [c];
    hide Turn, Searching, NothingAt, InSearch;
    var draw, bypasses := front[0].draw, Run(workers, clients, before).bypasses[w];
    assert (front + [c])[0] == front[0];
    forall p | Turn(p, draw, bypasses) < k && !(p.Steal? && s.threads[w].StealGrab?)
      ensures NothingAt(p, workers, clients, before, front + [c], w)
    {
      StillNothing(p, workers, clients, before, front, c, w);
    }
  }

  /** The searcher looks further. */
  lemma SearcherMoves(workers: nat, clients: nat, before: seq<Choice>, front: seq<Choice>, c: Choice, w: nat, k: nat) returns (k': nat)
    requires front != [] && InSearch(workers, clients, before, front, w) && InSearch(workers, clients, before, front + [c], w) && c.t == w
    requires SearchedSoFar(workers, clients, before, front, w, k)
    ensures SearchedSoFar(workers, clients, before, front + [c], w, k')
    ensures k' == if Run(workers, clients, before + front).threads[w].Take? then k + 1 else k
  {
    hide Run, Step, Conserved, Waiting, Debts, Unannounced;
    var s := Run(workers, clients, before + front);
    var s' := Run(workers, clients, before + front + [c]);
    FrontOf(workers, clients, before, front, c, w);
    RunMore(workers, clients, before + front, c);
    var draw, bypasses := front[0].draw, Run(workers, clients, before).bypasses[w];
    SearchStep(s, w, c, k, draw, bypasses);
    assert before + (front + [c]) == before + front + [c];
    assert (front + [c])[0] == front[0];
    hide Turn, NothingAt, InSearch, Searching, TakenFrom, Empty;
    k' := if s.threads[w].Take? then k + 1 else k;
    forall p | Turn(p, draw, bypasses) < k' && !(p.Steal? && s'.threads[w].StealGrab?)
      ensures NothingAt(p, workers, clients, before, front + [c], w)
    {
      if Turn(p, draw, bypasses) < k && !(p.Steal? && s.threads[w].StealGrab?) {
        StillNothing(p, workers, clients, before, front, c, w);
      } else {
        NowSearched(workers, clients, before, front, c, w, k, draw, bypasses, p);
      }
    }
  }

  /** The place that this step is about was empty, or the theft took nothing. */
  lemma NowSearched(workers: nat, clients: nat, before: seq<Choice>, front: seq<Choice>, c: Choice, w: nat, k: nat, draw: nat, bypasses: nat,
                    p: Source)
    requires w < workers && front != []
    requires var s, s' := Run(workers, clients, before + front), Run(workers, clients, before + front + [c]);
      && Looking(s.threads[w]) && Looking(s'.threads[w]) && OnlyLooked(s, s', w) && LooksFurther(s, s', w, k, draw, bypasses)
      && (if s.threads[w].Take? then Turn(p, draw, bypasses) == k else p.Steal?) && !(p.Steal? && s'.threads[w].StealGrab?)
    ensures NothingAt(p, workers, clients, before, front + [c], w)
  {
    var s, s' := Run(workers, clients, before + front), Run(workers, clients, before + front + [c]);
    hide Run;
    assert before + (front + [c]) == before + front + [c];
    if s.threads[w].StealGrab? {
      NothingStolen(workers, clients, before, front, c, w);
    } else if s'.threads[w].StealGrab? {
      TurnsDiffer(p, Steal, draw, bypasses);
      assert false;
    } else {
      var q :| Turn(q, draw, bypasses) == k && Empty(q, s, w);
      TurnsDiffer(p, q, draw, bypasses);
      NothingNow(p, workers, clients, before, front, w);
      StillNothing(p, workers, clients, before, front, c, w);
    }
  }

  /** The worker has its strategy and has not looked anywhere. */
  lemma SearchOpens(workers: nat, clients: nat, before: seq<Choice>, after: seq<Choice>, w: nat)
    requires InSearch(workers, clients, before, after, w) && |after| == 1
    ensures SearchedSoFar(workers, clients, before, after, w, 0)
  {
    hide Run, Step, Conserved, Waiting, Debts, Unannounced;
    assert before + after == before + [after[0]];
    RunMore(workers, clients, before, after[0]);
    SearchBegins(Run(workers, clients, before), w, after[0]);
    hide InSearch, Turn, NothingAt;
  }

  /** One step more, of anybody. */
  lemma SearchMore(workers: nat, clients: nat, before: seq<Choice>, after: seq<Choice>, w: nat, k: nat) returns (k': nat)
    requires |after| > 1 && InSearch(workers, clients, before, after[..|after| - 1], w) && InSearch(workers, clients, before, after, w)
    requires SearchedSoFar(workers, clients, before, after[..|after| - 1], w, k)
    ensures SearchedSoFar(workers, clients, before, after, w, k')
  {
    hide *;
    var front, c := after[..|after| - 1], after[|after| - 1];
    assert after == front + [c];
    if c.t == w {
      k' := SearcherMoves(workers, clients, before, front, c, w, k);
    } else {
      k' := k;
      OtherMoves(workers, clients, before, front, c, w, k);
    }
  }

  lemma SearchLess(workers: nat, clients: nat, before: seq<Choice>, after: seq<Choice>, w: nat)
    requires InSearch(workers, clients, before, after, w)
    ensures after != [] && (|after| > 1 ==> InSearch(workers, clients, before, after[..|after| - 1], w))
  {
    hide Run, Looking;
    var front := after[..|after| - 1];
    forall i | 0 < i <= |front| ensures Looking(Run(workers, clients, before + front[..i]).threads[w]) {
      assert front[..i] == after[..i];
    }
  }

  /** At every moment of a search the places whose turn is over had nothing. */
  lemma {:induction false} SearchKeeps(workers: nat, clients: nat, before: seq<Choice>, after: seq<Choice>, w: nat) returns (k: nat)
    requires InSearch(workers, clients, before, after, w)
    ensures SearchedSoFar(workers, clients, before, after, w, k)
    decreases |after|
  {
    hide *;
    SearchLess(workers, clients, before, after, w);
    if |after| == 1 {
      SearchOpens(workers, clients, before, after, w);
      k := 0;
    } else {
      k := SearchKeeps(workers, clients, before, after[..|after| - 1], w);
      k := SearchMore(workers, clients, before, after, w, k);
    }
  }

  /**
   How a search ends.  Either worker `w` has its task from the place `p`, and every place that comes before `p` in
   the order of its draw and its run of LIFO takes had nothing; or it is back without a task, and no place at all had
   anything.
   */
  ghost predicate RightlyEnded(workers: nat, clients: nat, before: seq<Choice>, after: seq<Choice>, w: nat, c: Choice)
    requires InSearch(workers, clients, before, after, w)
  {
    var draw, bypasses := after[0].draw, Run(workers, clients, before).bypasses[w];
    var s, s' := Run(workers, clients, before + after), Run(workers, clients, before + after + [c]);
    if s'.threads[w].Loop? then
      OnlyLooked(s, s', w) && forall p :: NothingAt(p, workers, clients, before, after, w)
    else
      exists p ::
        && TakenFrom(p, s, s', w, draw)
        && forall q | Turn(q, draw, bypasses) < Turn(p, draw, bypasses) :: NothingAt(q, workers, clients, before, after, w)
  }

  lemma FoundInOrder(workers: nat, clients: nat, before: seq<Choice>, after: seq<Choice>, w: nat, c: Choice)
    requires InSearch(workers, clients, before, after, w) && c.t == w
    requires !Looking(Run(workers, clients, before + after + [c]).threads[w])
    ensures RightlyEnded(workers, clients, before, after, w, c)
  {
    hide Run, Step, Conserved, Waiting, Debts, Unannounced;
    var k := SearchKeeps(workers, clients, before, after, w);
    var s, draw, bypasses := Run(workers, clients, before + after), after[0].draw, Run(workers, clients, before).bypasses[w];
    RunMore(workers, clients, before + after, c);
    SearchStep(s, w, c, k, draw, bypasses);
    hide InSearch, NothingAt, Searching, OnlyLooked, Turn;
    var s' := Run(workers, clients, before + after + [c]);
    if s'.threads[w].Loop? {
      forall p ensures NothingAt(p, workers, clients, before, after, w) {
        TurnsDiffer(p, p, draw, bypasses);
      }
    } else {
      var p :| Turn(p, draw, bypasses) == (if s.threads[w].Take? then k else k - 1) && TakenFrom(p, s, s', w, draw);
      if s.threads[w].StealGrab? {
        StealsAt(s.threads[w], k, draw, bypasses);
      }
    }
  }

  lemma StealsAt(l: Local, k: nat, draw: nat, bypasses: nat)
    requires Searching(l, k, draw, bypasses) && l.StealGrab?
    ensures Turn(Steal, draw, bypasses) == k - 1
  {
  }

  // ---------------------------------------------------------------- how long a search takes

  /** Every draw for a victim names another worker, as it does in the end if there is one. */
  ghost predicate NamesVictims(after: seq<Choice>, workers: nat, w: nat) {
    forall i | 0 <= i < |after| && after[i].t == w :: after[i].from < workers && after[i].from != w
  }

  lemma NamesMore(after: seq<Choice>, workers: nat, w: nat)
    requires after != [] && NamesVictims(after, workers, w)
    ensures NamesVictims(after[..|after| - 1], workers, w)
  {
  }

  /** The steps of a search up to turn `k`: one for the strategy, one for each place, and one more for a theft. */
  predicate Counted(l: Local, k: nat, draw: nat, bypasses: nat, steps: nat) {
    && Searching(l, k, draw, bypasses)
    && steps <= k + 1 + if l.Take? && Turn(Steal, draw, bypasses) < k then 1 else 0
  }

  /** Whoever steals with a victim does not stay where it is. */
  lemma VictimNamed(s: State, w: nat, c: Choice)
    requires RolesOk(s) && w < s.workers && c.t == w && s.threads[w].StealGrab? && c.from < s.workers && c.from != w
    ensures Step(s, c) != s && !Step(s, c).threads[w].StealGrab?
  {
  }

  lemma CountStep(s: State, w: nat, c: Choice, k: nat, draw: nat, bypasses: nat, steps: nat) returns (k': nat)
    requires RolesOk(s) && w < s.workers && c.t == w && Counted(s.threads[w], k, draw, bypasses, steps)
    requires c.from < s.workers && c.from != w && Looking(Step(s, c).threads[w])
    ensures Counted(Step(s, c).threads[w], k', draw, bypasses, steps + 1)
  {
    SearchStep(s, w, c, k, draw, bypasses);
    k' := if s.threads[w].Take? then k + 1 else k;
    if s.threads[w].StealGrab? {
      VictimNamed(s, w, c);
      StealsAt(s.threads[w], k, draw, bypasses);
    }
    if Step(s, c).threads[w].StealGrab? {
      StealsAt(Step(s, c).threads[w], k', draw, bypasses);
    }
    hide Step, OnlyLooked, Remaining, TakenFrom, Turn;
  }

  ghost predicate CountedSoFar(workers: nat, clients: nat, before: seq<Choice>, after: seq<Choice>, w: nat, k: nat)
    requires InSearch(workers, clients, before, after, w)
  {
    Counted(Run(workers, clients, before + after).threads[w], k, after[0].draw, Run(workers, clients, before).bypasses[w], OwnSteps(after, w))
  }

  lemma CountMore(workers: nat, clients: nat, before: seq<Choice>, after: seq<Choice>, w: nat, k: nat) returns (k': nat)
    requires |after| > 1 && InSearch(workers, clients, before, after[..|after| - 1], w) && InSearch(workers, clients, before, after, w)
    requires CountedSoFar(workers, clients, before, after[..|after| - 1], w, k) && NamesVictims(after, workers, w)
    ensures CountedSoFar(workers, clients, before, after, w, k')
  {
    hide Run, Step, Conserved, Waiting, Debts, Unannounced;
    var front, c := after[..|after| - 1], after[|after| - 1];
    assert after == front + [c];
    FrontOf(workers, clients, before, front, c, w);
    var s := Run(workers, clients, before + front);
    RunMore(workers, clients, before + front, c);
    assert before + after == before + front + [c];
    k' := k;
    if c.t == w {
      k' := CountStep(s, w, c, k, front[0].draw, Run(workers, clients, before).bypasses[w], OwnSteps(front, w));
    } else {
      OthersStep(s, w, c);
    }
    hide InSearch, Searching, Turn;
  }

  lemma {:induction false} SearchCounts(workers: nat, clients: nat, before: seq<Choice>, after: seq<Choice>, w: nat) returns (k: nat)
    requires InSearch(workers, clients, before, after, w) && NamesVictims(after, workers, w)
    ensures CountedSoFar(workers, clients, before, after, w, k)
    decreases |after|
  {
    hide *;
    SearchLess(workers, clients, before, after, w);
    if |after| == 1 {
      CountsOne(workers, clients, before, after, w);
      k := 0;
    } else {
      NamesMore(after, workers, w);
      k := SearchCounts(workers, clients, before, after[..|after| - 1], w);
      k := CountMore(workers, clients, before, after, w, k);
    }
  }

  lemma CountsOne(workers: nat, clients: nat, before: seq<Choice>, after: seq<Choice>, w: nat)
    requires InSearch(workers, clients, before, after, w) && |after| == 1
    ensures CountedSoFar(workers, clients, before, after, w, 0)
  {
    hide Run, Searching;
    SearchOpens(workers, clients, before, after, w);
    assert after[..0] == [] && OwnSteps([], w) == 0;
    assert OwnSteps(after, w) == 1;
  }

  /** A search takes at most six steps before the one that ends it, whatever the other threads do. */
  lemma SearchEnds(workers: nat, clients: nat, before: seq<Choice>, after: seq<Choice>, w: nat)
    requires InSearch(workers, clients, before, after, w) && NamesVictims(after, workers, w)
    ensures OwnSteps(after, w) <= 6
  {
    hide Run, Turn;
    var k := SearchCounts(workers, clients, before, after, w);
  }

  // ---------------------------------------------------------------- one worker alone

  /** The only worker has set out to steal. */
  ghost predicate Hangs(s: State) {
    s.workers == 1 && RolesOk(s) && s.threads[0].StealGrab?
  }

  lemma HangsOn(s: State, c: Choice)
    requires Hangs(s)
    ensures var s' := Step(s, c); s'.workers == 1 && Sized(s') && s'.threads[0] == s.threads[0] && s'.ran == s.ran && s'.taken == s.taken
  {
    hide Listed, Share, LOCAL_QUEUE_SIZE, Grabbed;
    if 0 < c.t < |s.threads| {
      assert ClientOk(s.threads[c.t]);
      hide RolesOk;
    }
  }

  /**
   Why the constructor asserts that there is more than one worker (10): the only one, once it sets out to steal, draws
   for ever a victim that is not itself (257-258), and neither takes nor runs a task again.
   */
  lemma {:induction false} OneWorkerHangs(clients: nat, before: seq<Choice>, after: seq<Choice>)
    requires Run(1, clients, before).threads[0].StealGrab?
    ensures var s, s' := Run(1, clients, before), Run(1, clients, before + after);
      s'.threads[0] == s.threads[0] && s'.ran == s.ran && s'.taken == s.taken
    decreases |after|
  {
    hide Run, Step, Conserved, Waiting, Debts, Unannounced;
    if after == [] {
      assert before + after == before;
    } else {
      var front, c := after[..|after| - 1], after[|after| - 1];
      OneWorkerHangs(clients, before, front);
      assert before + after == before + front + [c];
      RunMore(1, clients, before + front, c);
      HangsOn(Run(1, clients, before + front), c);
    }
  }
}
