/** Which attempts use up a turn, and who stays in the queue for one. */
module TurnQueue {
  import opened LeaseTable
  import opened Scheduler
  import opened TurnFairness

  // ---- Which attempts use a turn -----------------------------------------------------------------

  lemma UsesTurnIff(cap: Capacities, table: Table, id: Token, lease: Lease)
    requires id !in table && IsRun(lease.demand)
    ensures UsesTurn(cap, table[id := lease], lease.demand) <==> |OfKind(table, Run)| < cap.wasmRun
  {
    OfKindAfterInsert(table, id, lease, Run);
    if Fits(table[id := lease], cap) {
      assert |OfKind(table[id := lease], Run)| <= cap.Limit(Run) == cap.wasmRun;
    }
  }

  lemma DecideUses(cap: Capacities, s: State, id: Token, d: Demand)
    requires IsRun(d) && id !in s.leases
    ensures Decide(cap, s, id, d).0.sequence > s.sequence <==> |OfKind(s.leases, Run)| < cap.wasmRun
  {
    UsesTurnIff(cap, s.leases, id, Lease(d, s.now + TTL));
  }

  lemma PastTheGate(cap: Capacities, s: State, id: Token, d: Demand)
    requires d.Stage? && ReachesDecision(cap, s, id, d)
    ensures var p := Prepare(cap, s, id, d).0;
            && Acquire(cap, s, id, d) == Decide(cap, p, id, d)
            && p.leases == Live(s.leases, s.now) && p.sequence == s.sequence && p.now == s.now
  {
    GateOpens(cap, s, id, d);
    PrepareLeases(cap, s, id, d);
    PrepareTurns(cap, s, id, d);
  }

  /** A `run` attempt that reaches the decision uses its turn if and only if a `run` slot is free: also
      when it is then refused for memory, and never when the slots are what is missing. */
  lemma TurnUsedIff(cap: Capacities, s: State, id: Token, d: Demand)
    requires IsRun(d) && ReachesDecision(cap, s, id, d) && id !in Live(s.leases, s.now)
    ensures TakesTurn(cap, s, TryAcquire(id, d), d.parent) <==> |OfKind(Live(s.leases, s.now), Run)| < cap.wasmRun
  {
    PastTheGate(cap, s, id, d);
    DecideUses(cap, Prepare(cap, s, id, d).0, id, d);
  }

  /** So the first parent does not block the others, even if its stage never fits: with a slot free its
      attempt, granted or refused, puts it behind every parent whose score the counter bounds. */
  lemma AttemptYields(cap: Capacities, s: State, id: Token, d: Demand, q: Token)
    requires IsRun(d) && ReachesDecision(cap, s, id, d) && id !in Live(s.leases, s.now)
    requires |OfKind(Live(s.leases, s.now), Run)| < cap.wasmRun
    requires q != d.parent && q in s.turns && s.turns[q] <= s.sequence
    ensures var turns := Step(cap, s, TryAcquire(id, d)).turns;
            q in turns ==> d.parent in turns && Before(turns, q, d.parent)
  {
    TurnUsedIff(cap, s, id, d);
    TurnTaken(cap, s, TryAcquire(id, d));
  }

  /** And everybody who waits is one place nearer to the front. */
  lemma AttemptAdvances(cap: Capacities, s: State, id: Token, d: Demand, q: Token)
    requires IsRun(d) && ReachesDecision(cap, s, id, d) && id !in Live(s.leases, s.now)
    requires |OfKind(Live(s.leases, s.now), Run)| < cap.wasmRun && ScoresBounded(s)
    requires q != d.parent && q in s.turns && Step(cap, s, TryAcquire(id, d)).turns.Keys == s.turns.Keys
    ensures |Ahead(Step(cap, s, TryAcquire(id, d)).turns, q)| == |Ahead(s.turns, q)| - 1
  {
    TurnUsedIff(cap, s, id, d);
    StepAhead(cap, s, TryAcquire(id, d), q);
  }

  /** With no slot free the first parent keeps its place. */
  lemma FullSlotsKeepTurn(cap: Capacities, s: State, id: Token, d: Demand)
    requires IsRun(d) && ReachesDecision(cap, s, id, d) && id !in Live(s.leases, s.now)
    requires |OfKind(Live(s.leases, s.now), Run)| >= cap.wasmRun
    ensures var s' := Step(cap, s, TryAcquire(id, d));
            && s'.sequence == s.sequence && IsFirst(s'.turns, d.parent)
            && Acquire(cap, s, id, d).1 == Refused
  {
    PastTheGate(cap, s, id, d);
    var p := Prepare(cap, s, id, d).0;
    GateOpens(cap, s, id, d);
    PrepareTurns(cap, s, id, d);
    DecideUses(cap, p, id, d);
    DecideTurns(cap, p, id, d);
    FullIsRefused(cap, p, id, d);
  }

  lemma FullIsRefused(cap: Capacities, s: State, id: Token, d: Demand)
    requires IsRun(d) && id !in s.leases && |OfKind(s.leases, Run)| >= cap.wasmRun
    ensures Decide(cap, s, id, d).1 == Refused
  {
    var entries := s.leases[id := Lease(d, s.now + TTL)];
    OfKindAfterInsert(s.leases, id, Lease(d, s.now + TTL), Run);
    DecideOutcome(cap, s, id, d, entries);
    assert Fits(entries, cap) ==> |OfKind(entries, Run)| <= cap.Limit(Run);
  }

  // ---- Who waits ---------------------------------------------------------------------------------

  /** A request that counts: unexpired, of a task that is alive. */
  predicate Pending(s: State, r: Token) {
    r in s.requests && s.requests[r].expires > s.now && s.requests[r].parent in Live(s.leases, s.now)
  }

  lemma PrepareKeepsPending(cap: Capacities, s: State, id: Token, d: Demand, r: Token)
    requires Pending(s, r) && r != id
    ensures var p := Prepare(cap, s, id, d).0;
            && r in p.requests && p.requests[r] == s.requests[r]
            && (s.requests[r].parent in s.turns ==> s.requests[r].parent in p.turns)
  {
    var live := Live(s.leases, s.now);
    if IsRun(d) && d.parent in live {
      var requests := QueuedRequests(s.requests, live, s.now, id, d.parent);
      assert r in requests && requests[r].parent in Waiting(requests);
    }
  }

  lemma DecideKeepsPending(cap: Capacities, s: State, id: Token, d: Demand, r: Token)
    requires r in s.requests && r != id
    ensures var s' := Decide(cap, s, id, d).0;
            && r in s'.requests && s'.requests[r] == s.requests[r]
            && s.turns.Keys <= s'.turns.Keys
  {
  }

  /** Another stage's request, and its parent's place, survive everybody else's attempts, granted or
      refused, for as long as the request counts. */
  lemma OthersKeepWaiting(cap: Capacities, s: State, id: Token, d: Demand, r: Token)
    requires Pending(s, r) && r != id
    ensures var s' := Step(cap, s, TryAcquire(id, d));
            && r in s'.requests && s'.requests[r] == s.requests[r]
            && (s.requests[r].parent in s.turns ==> s.requests[r].parent in s'.turns)
  {
    PrepareKeepsPending(cap, s, id, d, r);
    DecideKeepsPending(cap, Prepare(cap, s, id, d).0, id, d, r);
  }

  lemma QueuedCaller(s: State, id: Token, parent: Token)
    requires parent in s.leases
    ensures var e := Enqueue(s, id, parent);
            id in e.requests && e.requests[id] == Request(parent, s.now + TTL) && parent in e.turns
  {
  }

  /** A `run` attempt with the gate open and its task alive leaves the caller waiting, with a place for
      its parent, if it is refused, and no longer waiting if it is granted. */
  lemma CallerWaitsOrIsServed(cap: Capacities, s: State, id: Token, d: Demand)
    requires IsRun(d) && d.parent in Live(s.leases, s.now) && TotalRss(LiveSamples(s.rss, s.now)) <= cap.memory
    ensures var (s', outcome) := Acquire(cap, s, id, d);
            && (outcome == Refused ==>
                  id in s'.requests && s'.requests[id] == Request(d.parent, s.now + TTL) && d.parent in s'.turns)
            && (outcome == Granted ==> id !in s'.requests)
            && outcome != ParentGone
  {
    var pruned := s.(rss := LiveSamples(s.rss, s.now), leases := Live(s.leases, s.now));
    QueuedCaller(pruned, id, d.parent);
    DecideServes(cap, Prepare(cap, s, id, d).0, id, d);
  }

  lemma DecideServes(cap: Capacities, s: State, id: Token, d: Demand)
    requires IsRun(d)
    ensures var (s', outcome) := Decide(cap, s, id, d);
            && (outcome == Granted ==> id !in s'.requests)
            && (outcome != Granted ==> s'.requests == s.requests && s.turns.Keys <= s'.turns.Keys && outcome == Refused)
  {
  }

  /** A stage that gives up waiting takes its own request with it and no other. */
  lemma GivingUpIsExact(cap: Capacities, s: State, id: Token, r: Token)
    ensures var s' := Step(cap, s, ForgetRequest(id));
            && (r in s'.requests <==> r in s.requests && r != id)
            && (r in s'.requests ==> s'.requests[r] == s.requests[r])
  {
  }

  // ---- The queue's keys ------------------------------------------------------------------------------

  /** No request outlives the keys of the queue. */
  ghost predicate KeysOutlive(s: State) {
    forall r :: r in s.requests ==>
      s.requests[r].expires <= s.requestsDie - TTL && s.requests[r].expires <= s.turnsDie - TTL
  }

  lemma PrepareKeys(cap: Capacities, s: State, id: Token, d: Demand)
    requires KeysOutlive(s) && RequestsBounded(s)
    ensures KeysOutlive(Prepare(cap, s, id, d).0)
  {
  }

  lemma DecideKeys(cap: Capacities, s: State, id: Token, d: Demand)
    requires KeysOutlive(s)
    ensures KeysOutlive(Decide(cap, s, id, d).0)
  {
    DecideRequests(cap, s, id, d);
  }

  lemma StepKeys(cap: Capacities, s: State, op: Op)
    requires KeysOutlive(s) && RequestsBounded(s)
    ensures KeysOutlive(Step(cap, s, op))
  {
    if op.TryAcquire? {
      PrepareKeys(cap, s, op.id, op.demand);
      DecideKeys(cap, Prepare(cap, s, op.id, op.demand).0, op.id, op.demand);
    }
  }

  lemma {:induction false} RunKeys(cap: Capacities, s: State, ops: seq<Op>)
    requires KeysOutlive(s) && RequestsBounded(s)
    ensures KeysOutlive(After(cap, s, ops)) && RequestsBounded(After(cap, s, ops))
    decreases |ops|
  {
    if ops != [] {
      StepKeys(cap, s, ops[0]);
      StepRequests(cap, s, ops[0]);
      RunKeys(cap, Step(cap, s, ops[0]), ops[1..]);
    }
  }

  /** Losing the queue's keys to their time-to-live loses nobody who still waits: in every reachable
      state, as long as any request is unexpired, requests and places are all there. */
  lemma KeyExpiryDropsNobodyWaiting(cap: Capacities, start: int, ops: seq<Op>, later: int, r: Token)
    ensures var s := After(cap, Initial(start), ops);
            later >= s.now && r in s.requests && s.requests[r].expires > later ==>
              Tick(s, later).requests == s.requests && Tick(s, later).turns == s.turns
  {
    RunKeys(cap, Initial(start), ops);
  }
}
