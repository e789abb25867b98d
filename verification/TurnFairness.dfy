/** Fairness of the turn queue that parents of `run` stages share. */
module TurnFairness {
  import opened LeaseTable
  import opened Scheduler

  /** The operation used up a turn of parent `p`: the turn counter grew on its attempt. */
  ghost predicate TakesTurn(cap: Capacities, s: State, op: Op, p: Token) {
    && op.TryAcquire? && op.demand.Stage? && op.demand.parent == p
    && Step(cap, s, op).sequence > s.sequence
  }

  /** No score exceeds the turn counter. */
  ghost predicate ScoresBounded(s: State) {
    forall p :: p in s.turns ==> s.turns[p] <= s.sequence
  }

  /** The counter key has not run out from under a turn set that is still alive. */
  ghost predicate CounterKept(cap: Capacities, s: State, op: Op) {
    var s' := Step(cap, s, op);
    s'.sequence >= s.sequence || s'.turns == map[]
  }

  /** Queueing keeps every score that stays and lets in only the caller's parent, at zero. */
  lemma PrepareTurns(cap: Capacities, s: State, id: Token, d: Demand)
    ensures var (p, gate) := Prepare(cap, s, id, d);
            && p.sequence == s.sequence
            && (forall q :: q in p.turns && q in s.turns ==> p.turns[q] == s.turns[q])
            && (forall q :: q in p.turns && q !in s.turns ==> IsRun(d) && q == d.parent && p.turns[q] == 0)
            && (gate.Proceed? && IsRun(d) ==> IsFirst(p.turns, d.parent))
  {
    var pruned := s.(rss := LiveSamples(s.rss, s.now), leases := Live(s.leases, s.now));
    if IsRun(d) && d.parent in pruned.leases {
      CallerKeepsItsPlace(pruned, id, d.parent);
    }
  }

  /** The caller's own request is alive, so its parent is never among the idle ones dropped. */
  lemma CallerKeepsItsPlace(s: State, id: Token, parent: Token)
    requires parent in s.leases
    ensures var turns := Enqueue(s, id, parent).turns;
            && (forall q :: q in turns && q in s.turns ==> turns[q] == s.turns[q])
            && (forall q :: q in turns && q !in s.turns ==> q == parent && turns[q] == 0)
  {
    var requests := QueuedRequests(s.requests, s.leases, s.now, id, parent);
    assert id in requests && requests[id].parent == parent;
    assert parent in Waiting(requests);
  }

  lemma DecideTurns(cap: Capacities, s: State, id: Token, d: Demand)
    ensures var s' := Decide(cap, s, id, d).0;
            || (s'.turns == s.turns && s'.sequence == s.sequence)
            || (IsRun(d) && s'.sequence == s.sequence + 1 && s'.turns == s.turns[d.parent := s.sequence + 1])
  {
  }

  /** A turn is taken by the first parent only and moves it behind every counted score. */
  lemma TurnTaken(cap: Capacities, s: State, op: Op)
    requires Step(cap, s, op).sequence > s.sequence
    ensures var s' := Step(cap, s, op);
            && op.TryAcquire? && IsRun(op.demand)
            && var p := op.demand.parent;
            && TakesTurn(cap, s, op, p)
            && s'.sequence == s.sequence + 1
            && p in s'.turns && s'.turns[p] == s'.sequence
            && (p in s.turns ==> forall q :: q in s.turns && q in s'.turns && q != p ==> Before(s.turns, p, q))
            && (forall q :: q in s.turns && q in s'.turns && q != p ==> s'.turns[q] == s.turns[q])
            && (forall q :: q in s'.turns && q !in s.turns ==> q == p)
  {
    var (p, gate) := Prepare(cap, s, op.id, op.demand);
    PrepareTurns(cap, s, op.id, op.demand);
    DecideTurns(cap, p, op.id, op.demand);
  }

  /** No other step reorders parents that stay, and newcomers enter at zero. */
  lemma NoTurnTaken(cap: Capacities, s: State, op: Op)
    requires Step(cap, s, op).sequence <= s.sequence
    ensures var s' := Step(cap, s, op);
            && (forall q :: q in s.turns && q in s'.turns ==> s'.turns[q] == s.turns[q])
            && (forall q :: q in s'.turns && q !in s.turns ==> s'.turns[q] == 0)
  {
    if op.TryAcquire? {
      var (p, gate) := Prepare(cap, s, op.id, op.demand);
      PrepareTurns(cap, s, op.id, op.demand);
      DecideTurns(cap, p, op.id, op.demand);
    }
  }

  /** When that can fail, in terms of what is on record before the step: time passes beyond the
      counter's expiry but not beyond the turn set's, while both are in use. */
  lemma CounterKeptIff(cap: Capacities, s: State, op: Op)
    ensures CounterKept(cap, s, op)
       <==> !(&& op.Advance? && s.now <= op.now && s.sequenceDies < op.now <= s.turnsDie
              && s.sequence > 0 && s.turns != map[])
  {
    if op.TryAcquire? {
      PrepareTurns(cap, s, op.id, op.demand);
      DecideTurns(cap, Prepare(cap, s, op.id, op.demand).0, op.id, op.demand);
    }
  }

  lemma ScoresStayBounded(cap: Capacities, s: State, op: Op)
    requires ScoresBounded(s) && CounterKept(cap, s, op)
    ensures ScoresBounded(Step(cap, s, op))
  {
    if Step(cap, s, op).sequence > s.sequence { TurnTaken(cap, s, op); } else { NoTurnTaken(cap, s, op); }
  }

  /** The counter survives every step of a run. */
  ghost predicate CounterKeptAlong(cap: Capacities, s: State, ops: seq<Op>)
    decreases |ops|
  {
    ops != [] ==> CounterKept(cap, s, ops[0]) && CounterKeptAlong(cap, Step(cap, s, ops[0]), ops[1..])
  }

  lemma {:induction false} ScoresBoundedAlong(cap: Capacities, s: State, ops: seq<Op>)
    requires ScoresBounded(s) && CounterKeptAlong(cap, s, ops)
    ensures ScoresBounded(After(cap, s, ops))
    decreases |ops|
  {
    if ops != [] {
      ScoresStayBounded(cap, s, ops[0]);
      ScoresBoundedAlong(cap, Step(cap, s, ops[0]), ops[1..]);
    }
  }

  /** In every state reached from the empty group while the counter survived, no score exceeds it. */
  lemma ReachableScoresAreBounded(cap: Capacities, start: int, ops: seq<Op>)
    requires CounterKeptAlong(cap, Initial(start), ops)
    ensures ScoresBounded(After(cap, Initial(start), ops))
  {
    ScoresBoundedAlong(cap, Initial(start), ops);
  }

  /** `members` stay in the turn set, and the counter survives, at every point of the run. */
  ghost predicate Steady(cap: Capacities, s: State, ops: seq<Op>, members: set<Token>)
    decreases |ops|
  {
    && members <= s.turns.Keys
    && (ops != [] ==>
          CounterKept(cap, s, ops[0]) && Steady(cap, Step(cap, s, ops[0]), ops[1..], members))
  }

  /** How many turns parent `p` uses up along a run. */
  ghost function Turns(cap: Capacities, s: State, ops: seq<Op>, p: Token): nat
    decreases |ops|
  {
    if ops == [] then 0
    else (if TakesTurn(cap, s, ops[0], p) then 1 else 0) + Turns(cap, Step(cap, s, ops[0]), ops[1..], p)
  }

  /** Two parents that stay in the turn set alternate: over any stretch of any run neither
      gets more than one turn ahead of the other, and none at all if it started behind. */
  lemma {:induction false} ParentsAlternate(cap: Capacities, s: State, ops: seq<Op>, p: Token, q: Token)
    requires p != q && ScoresBounded(s) && Steady(cap, s, ops, {p, q})
    ensures Turns(cap, s, ops, p) <= Turns(cap, s, ops, q) + 1
    ensures Before(s.turns, q, p) ==> Turns(cap, s, ops, p) <= Turns(cap, s, ops, q)
    decreases |ops|
  {
    if ops != [] {
      var s' := Step(cap, s, ops[0]);
      if s'.sequence > s.sequence { TurnTaken(cap, s, ops[0]); } else { NoTurnTaken(cap, s, ops[0]); }
      ScoresStayBounded(cap, s, ops[0]);
      assert {p, q} <= s'.turns.Keys;
      ParentsAlternate(cap, s', ops[1..], p, q);
    }
  }

  /** So in every group whose counter has survived since it was empty, two parents that stay in the
      turn set from some point on differ by at most one turn from then on. */
  lemma ReachableParentsAlternate(cap: Capacities, start: int, before: seq<Op>, ops: seq<Op>, p: Token, q: Token)
    requires p != q && CounterKeptAlong(cap, Initial(start), before)
    requires Steady(cap, After(cap, Initial(start), before), ops, {p, q})
    ensures var s := After(cap, Initial(start), before);
            Turns(cap, s, ops, q) - 1 <= Turns(cap, s, ops, p) <= Turns(cap, s, ops, q) + 1
  {
    var s := After(cap, Initial(start), before);
    ReachableScoresAreBounded(cap, start, before);
    assert {p, q} == {q, p};
    ParentsAlternate(cap, s, ops, p, q);
    ParentsAlternate(cap, s, ops, q, p);
  }

  // ---- A fixed set of parents -----------------------------------------------------------

  /** The parents that are before `q`. */
  ghost function Ahead(turns: map<Token, nat>, q: Token): set<Token>
    requires q in turns
  {
    set p | p in turns && p != q && Before(turns, p, q)
  }

  lemma FirstHasNobodyAhead(turns: map<Token, nat>, q: Token)
    requires q in turns
    ensures Ahead(turns, q) == {} <==> IsFirst(turns, q)
    ensures |Ahead(turns, q)| < |turns|
  {
    SubsetCardinality(Ahead(turns, q), turns.Keys - {q});
    assert |turns.Keys - {q}| == |turns| - 1;
    if Ahead(turns, q) == {} {
      forall p | p in turns && p != q ensures Before(turns, q, p) {
        assert p !in Ahead(turns, q);
      }
    } else {
      var p :| p in Ahead(turns, q);
      assert !Before(turns, q, p);
    }
  }

  /** The whole turn set stays the same at every point of the run. */
  ghost predicate FixedSet(cap: Capacities, s: State, ops: seq<Op>, members: set<Token>)
    decreases |ops|
  {
    && members == s.turns.Keys
    && (ops != [] ==>
          CounterKept(cap, s, ops[0]) && FixedSet(cap, Step(cap, s, ops[0]), ops[1..], members))
  }

  /** How many turns are used up along a run, by anyone. */
  ghost function AllTurns(cap: Capacities, s: State, ops: seq<Op>): nat
    decreases |ops|
  {
    if ops == [] then 0
    else (if Step(cap, s, ops[0]).sequence > s.sequence then 1 else 0)
         + AllTurns(cap, Step(cap, s, ops[0]), ops[1..])
  }

  lemma AheadAfterTurn(turns: map<Token, nat>, turns': map<Token, nat>, f: Token, q: Token)
    requires turns.Keys == turns'.Keys && q in turns && f in turns && f != q
    requires Before(turns, f, q) && turns'[f] > turns'[q]
    requires forall x :: x in turns && x != f ==> turns'[x] == turns[x]
    ensures |Ahead(turns, q)| == |Ahead(turns', q)| + 1
  {
    assert f in Ahead(turns, q) && Ahead(turns', q) == Ahead(turns, q) - {f};
  }

  lemma AheadUnchanged(turns: map<Token, nat>, turns': map<Token, nat>, q: Token)
    requires turns.Keys == turns'.Keys && q in turns
    requires forall x :: x in turns ==> turns'[x] == turns[x]
    ensures |Ahead(turns, q)| == |Ahead(turns', q)|
  {
    assert turns == turns';
  }

  /** Someone else's turn takes exactly one parent from ahead of `q`; nothing else moves the queue. */
  lemma StepAhead(cap: Capacities, s: State, op: Op, q: Token)
    requires ScoresBounded(s) && CounterKept(cap, s, op)
    requires q in s.turns && Step(cap, s, op).turns.Keys == s.turns.Keys
    requires !TakesTurn(cap, s, op, q)
    ensures var s' := Step(cap, s, op);
            |Ahead(s.turns, q)| == |Ahead(s'.turns, q)| + (if s'.sequence > s.sequence then 1 else 0)
  {
    var s' := Step(cap, s, op);
    if s'.sequence > s.sequence {
      TurnTaken(cap, s, op);
      AheadAfterTurn(s.turns, s'.turns, op.demand.parent, q);
    } else {
      NoTurnTaken(cap, s, op);
      AheadUnchanged(s.turns, s'.turns, q);
    }
  }

  /** While `q` waits in a fixed set of n parents, the turns of others are exactly the parents
      that leave its front: at most n - 1 of them, after which it is first. */
  lemma {:induction false} WaitIsBounded(cap: Capacities, s: State, ops: seq<Op>, members: set<Token>, q: Token)
    requires ScoresBounded(s) && FixedSet(cap, s, ops, members) && q in members
    requires Turns(cap, s, ops, q) == 0
    ensures q in After(cap, s, ops).turns
    ensures AllTurns(cap, s, ops) + |Ahead(After(cap, s, ops).turns, q)| == |Ahead(s.turns, q)|
    ensures AllTurns(cap, s, ops) <= |members| - 1
    ensures AllTurns(cap, s, ops) == |Ahead(s.turns, q)| <==> IsFirst(After(cap, s, ops).turns, q)
    decreases |ops|
  {
    if ops != [] {
      var s' := Step(cap, s, ops[0]);
      ScoresStayBounded(cap, s, ops[0]);
      assert members == s'.turns.Keys;
      StepAhead(cap, s, ops[0], q);
      WaitIsBounded(cap, s', ops[1..], members, q);
    }
    FirstHasNobodyAhead(s.turns, q);
    FirstHasNobodyAhead(After(cap, s, ops).turns, q);
  }

  /** The first parent is still first once its own attempt has dropped the idle ones. */
  lemma FirstStaysFirst(s: State, live: Table, id: Token, parent: Token)
    requires IsFirst(s.turns, parent) && parent in live
    ensures IsFirst(QueuedTurns(s.turns, QueuedRequests(s.requests, live, s.now, id, parent), parent), parent)
  {
    var requests := QueuedRequests(s.requests, live, s.now, id, parent);
    assert id in requests && requests[id].parent == parent;
    assert parent in Waiting(requests);
  }

  /** Nothing but its turn stands between a covered `run` stage and its lease: the memory gate is
      open, its task is alive and covers it, and a slot is free. */
  ghost predicate OnlyNeedsTurn(cap: Capacities, s: State, id: Token, d: Demand)
    requires IsRun(d)
  {
    var live := Live(s.leases, s.now);
    && TotalRss(LiveSamples(s.rss, s.now)) <= cap.memory
    && IsTask(live, d.parent) && id !in live
    && ChildMemory(live, d.parent) + d.memory <= live[d.parent].demand.headroom
    && |OfKind(live, Run)| < cap.wasmRun
  }

  lemma TurnIsReached(cap: Capacities, s: State, id: Token, d: Demand)
    requires IsRun(d) && OnlyNeedsTurn(cap, s, id, d) && IsFirst(s.turns, d.parent)
    ensures ReachesDecision(cap, s, id, d)
  {
    FirstStaysFirst(s, Live(s.leases, s.now), id, d.parent);
  }

  lemma FirstIsServed(cap: Capacities, s: State, id: Token, d: Demand)
    requires Safe(cap, s) && IsRun(d) && OnlyNeedsTurn(cap, s, id, d) && IsFirst(s.turns, d.parent)
    ensures TryDemand(cap, s, id, d).1 == Admitted
  {
    TurnIsReached(cap, s, id, d);
    assert d.Kind() == Run && cap.Limit(Run) == cap.wasmRun;
    CoveredStageIsAdmitted(cap, s, id, d);
  }

  lemma NotFirstIsRefused(cap: Capacities, s: State, id: Token, d: Demand)
    requires IsRun(d) && d.parent in s.turns && !IsFirst(s.turns, d.parent)
    requires IsTask(Live(s.leases, s.now), d.parent) && Step(cap, s, TryAcquire(id, d)).turns.Keys == s.turns.Keys
    ensures Acquire(cap, s, id, d).1 == Refused
  {
    var (p, gate) := Prepare(cap, s, id, d);
    PrepareTurns(cap, s, id, d);
    DecideTurns(cap, p, id, d);
    assert p.turns.Keys == s.turns.Keys ==> p.turns == s.turns;
  }

  /** Fairness and admission together. In a fixed set of n parents a covered `run` stage keeps
      trying: an attempt that only needs its turn is granted if and only if those that were ahead
      of its parent, at most n - 1, have all had theirs. */
  lemma CoveredRunIsServedInTurn(cap: Capacities, s: State, ops: seq<Op>, members: set<Token>, id: Token, d: Demand)
    requires Safe(cap, s) && ScoresBounded(s) && IsRun(d) && d.parent in members
    requires FixedSet(cap, s, ops, members) && Turns(cap, s, ops, d.parent) == 0
    requires Step(cap, After(cap, s, ops), TryAcquire(id, d)).turns.Keys == members
    requires OnlyNeedsTurn(cap, After(cap, s, ops), id, d)
    ensures AllTurns(cap, s, ops) <= |Ahead(s.turns, d.parent)| <= |members| - 1
    ensures TryDemand(cap, After(cap, s, ops), id, d).1 == Admitted
       <==> AllTurns(cap, s, ops) == |Ahead(s.turns, d.parent)|
  {
    WaitIsBounded(cap, s, ops, members, d.parent);
    FirstHasNobodyAhead(s.turns, d.parent);
    FixedAtTheEnd(cap, s, ops, members);
    AfterIsSafe(cap, s, ops);
    TurnDecides(cap, After(cap, s, ops), id, d);
  }

  lemma TurnDecides(cap: Capacities, s: State, id: Token, d: Demand)
    requires Safe(cap, s) && IsRun(d) && OnlyNeedsTurn(cap, s, id, d) && d.parent in s.turns
    requires Step(cap, s, TryAcquire(id, d)).turns.Keys == s.turns.Keys
    ensures (TryDemand(cap, s, id, d).1 == Admitted) == IsFirst(s.turns, d.parent)
  {
    if IsFirst(s.turns, d.parent) {
      FirstIsServed(cap, s, id, d);
    } else {
      NotFirstIsRefused(cap, s, id, d);
      RefusedIsNotYet(cap, s, id, d);
    }
  }

  lemma RefusedIsNotYet(cap: Capacities, s: State, id: Token, d: Demand)
    requires Acquire(cap, s, id, d).1 == Refused
    ensures TryDemand(cap, s, id, d).1 != Admitted
  {
  }

  lemma {:induction false} FixedAtTheEnd(cap: Capacities, s: State, ops: seq<Op>, members: set<Token>)
    requires FixedSet(cap, s, ops, members)
    ensures After(cap, s, ops).turns.Keys == members
    decreases |ops|
  {
    if ops != [] {
      FixedAtTheEnd(cap, Step(cap, s, ops[0]), ops[1..], members);
    }
  }

  // ---- A parent that stops asking ----------------------------------------------------------------

  /** No request outlives the time-to-live from now. */
  ghost predicate RequestsBounded(s: State) {
    forall r :: r in s.requests ==> s.requests[r].expires <= s.now + TTL
  }

  lemma PrepareRequests(cap: Capacities, s: State, id: Token, d: Demand)
    ensures var p := Prepare(cap, s, id, d).0;
            && p.now == s.now
            && forall r :: r in p.requests ==>
                 || (r in s.requests && p.requests[r] == s.requests[r])
                 || (IsRun(d) && p.requests[r] == Request(d.parent, s.now + TTL))
  {
  }

  lemma DecideRequests(cap: Capacities, s: State, id: Token, d: Demand)
    ensures var s' := Decide(cap, s, id, d).0;
            s'.now == s.now && forall r :: r in s'.requests ==> r in s.requests && s'.requests[r] == s.requests[r]
  {
  }

  /** New requests are the caller's, for its own parent, from now. */
  lemma StepRequests(cap: Capacities, s: State, op: Op)
    ensures var s' := Step(cap, s, op);
            && s'.now >= s.now
            && forall r :: r in s'.requests ==>
                 || (r in s.requests && s'.requests[r] == s.requests[r])
                 || (op.TryAcquire? && IsRun(op.demand) && s'.requests[r] == Request(op.demand.parent, s.now + TTL))
  {
    if op.TryAcquire? {
      PrepareRequests(cap, s, op.id, op.demand);
      DecideRequests(cap, Prepare(cap, s, op.id, op.demand).0, op.id, op.demand);
    }
  }

  lemma {:induction false} RequestsStayBounded(cap: Capacities, s: State, ops: seq<Op>)
    requires RequestsBounded(s)
    ensures RequestsBounded(After(cap, s, ops))
    decreases |ops|
  {
    if ops != [] {
      StepRequests(cap, s, ops[0]);
      RequestsStayBounded(cap, Step(cap, s, ops[0]), ops[1..]);
    }
  }

  /** Nobody asks for `dead` any more. */
  predicate Silent(ops: seq<Op>, dead: Token) {
    forall i :: 0 <= i < |ops| ==> ops[i].TryAcquire? && IsRun(ops[i].demand) ==> ops[i].demand.parent != dead
  }

  ghost predicate AskedUntil(s: State, dead: Token, end: int) {
    forall r :: r in s.requests && s.requests[r].parent == dead ==> s.requests[r].expires <= end
  }

  lemma {:induction false} SilenceRunsOut(cap: Capacities, s: State, ops: seq<Op>, dead: Token, end: int)
    requires AskedUntil(s, dead, end) && Silent(ops, dead)
    ensures AskedUntil(After(cap, s, ops), dead, end)
    decreases |ops|
  {
    if ops != [] {
      StepRequests(cap, s, ops[0]);
      assert Silent(ops[1..], dead);
      SilenceRunsOut(cap, Step(cap, s, ops[0]), ops[1..], dead, end);
    }
  }

  lemma NobodyAsksFor(cap: Capacities, s: State, id: Token, d: Demand, dead: Token)
    requires AskedUntil(s, dead, s.now) && IsRun(d) && d.parent != dead && d.parent in Live(s.leases, s.now)
    requires TotalRss(LiveSamples(s.rss, s.now)) <= cap.memory
    ensures dead !in Prepare(cap, s, id, d).0.turns
  {
    var requests := QueuedRequests(s.requests, Live(s.leases, s.now), s.now, id, d.parent);
    assert dead !in Waiting(requests);
  }

  /** A parent that stops asking, first or not, costs the others one time-to-live: from then on the
      next attempt that reaches the turn queue drops it. */
  lemma SilentParentIsDropped(cap: Capacities, start: int, before: seq<Op>, ops: seq<Op>, dead: Token, id: Token,
                              d: Demand)
    requires Silent(ops, dead) && IsRun(d) && d.parent != dead
    requires var s := After(cap, Initial(start), before);
             var s1 := After(cap, s, ops);
             && s1.now >= s.now + TTL && d.parent in Live(s1.leases, s1.now)
             && TotalRss(LiveSamples(s1.rss, s1.now)) <= cap.memory
    ensures var s1 := After(cap, After(cap, Initial(start), before), ops);
            dead !in Step(cap, s1, TryAcquire(id, d)).turns
  {
    var s := After(cap, Initial(start), before);
    var s1 := After(cap, s, ops);
    RequestsStayBounded(cap, Initial(start), before);
    SilenceRunsOut(cap, s, ops, dead, s.now + TTL);
    NobodyAsksFor(cap, s1, id, d, dead);
    DecideTurns(cap, Prepare(cap, s1, id, d).0, id, d);
  }

  /** Why the counter must survive. After its turn a parent is behind `q` exactly when `q`'s
      score does not exceed the counter it drew from; a counter that restarts below the scores
      of a living turn set lets the same parent go again and again. */
  lemma TurnYieldsIff(cap: Capacities, s: State, op: Op, p: Token, q: Token)
    requires p != q && TakesTurn(cap, s, op, p)
    requires q in s.turns && q in Step(cap, s, op).turns
    ensures var s' := Step(cap, s, op);
            && p in s'.turns
            && (Before(s'.turns, q, p) <==> s.turns[q] <= s.sequence || (s.turns[q] == s.sequence + 1 && q < p))
  {
    TurnTaken(cap, s, op);
  }
}
