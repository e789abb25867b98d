/** One resource group as Redis holds it, and each script as one atomic step on it. */
module Scheduler {
  import opened FiniteSums
  import opened Numbers
  import opened LeaseTable

  const TTL := 60_000
  const RSS_TTL := 30_000
  /** Saturation point of the client's 64-bit additions. */
  const U64_MAX: nat := 0xFFFF_FFFF_FFFF_FFFF

  datatype Request = Request(parent: Token, expires: int)
  datatype Sample = Sample(mb: nat, expires: int)

  /** The server's clock and five keys; a key with a time-to-live vanishes whole once the
      clock has passed its `...Dies` instant. */
  datatype State = State(
    now: int,
    leases: Table,
    requests: map<Token, Request>,
    turns: map<Token, nat>,
    sequence: nat,
    rss: map<Token, Sample>,
    leasesDie: int,
    requestsDie: int,
    turnsDie: int,
    sequenceDies: int)

  datatype Outcome = Granted | Refused | ParentGone

  ghost function Initial(now: int): State {
    State(now, map[], map[], map[], 0, map[], now, now, now, now)
  }

  function LiveSamples(rss: map<Token, Sample>, now: int): map<Token, Sample> {
    map w | w in rss && rss[w].expires > now :: rss[w]
  }

  ghost function SampleTerm(rss: map<Token, Sample>): Token -> nat {
    w => if w in rss then rss[w].mb else 0
  }

  ghost function TotalRss(rss: map<Token, Sample>): nat {
    Sum(rss.Keys, SampleTerm(rss))
  }

  /** Requests that are neither expired nor waiting for a vanished parent. */
  function LiveRequests(requests: map<Token, Request>, leases: Table, now: int): map<Token, Request> {
    map r | r in requests && requests[r].expires > now && requests[r].parent in leases :: requests[r]
  }

  function Waiting(requests: map<Token, Request>): set<Token> {
    set r | r in requests :: requests[r].parent
  }

  function KeepTurns(turns: map<Token, nat>, waiting: set<Token>): map<Token, nat> {
    map p | p in turns && p in waiting :: turns[p]
  }

  /** Sorted-set order: by score, equal scores by member. */
  predicate Before(turns: map<Token, nat>, p: Token, q: Token)
    requires p in turns && q in turns
  {
    turns[p] < turns[q] || (turns[p] == turns[q] && p < q)
  }

  ghost predicate IsFirst(turns: map<Token, nat>, p: Token) {
    p in turns && forall q :: q in turns && q != p ==> Before(turns, p, q)
  }

  /** The requests once attempt `id` has registered itself and dead ones are dropped. */
  function QueuedRequests(requests: map<Token, Request>, leases: Table, now: int, id: Token, parent: Token)
    : map<Token, Request>
  {
    LiveRequests(requests[id := Request(parent, now + TTL)], leases, now)
  }

  /** The turn set without idle parents, with `parent` entering at score 0 unless queued. */
  function QueuedTurns(turns: map<Token, nat>, requests: map<Token, Request>, parent: Token): map<Token, nat> {
    var kept := KeepTurns(turns, Waiting(requests));
    if parent in kept then kept else kept[parent := 0]
  }

  /** What a `run` attempt does to the queues; all of this survives a refusal. */
  function Enqueue(s: State, id: Token, parent: Token): State {
    var requests := QueuedRequests(s.requests, s.leases, s.now, id, parent);
    s.(requests := requests,
       requestsDie := s.now + 2 * TTL,
       turns := QueuedTurns(s.turns, requests, parent),
       turnsDie := s.now + 2 * TTL)
  }

  ghost function TakeTurn(s: State, parent: Token): State {
    s.(sequence := s.sequence + 1,
       sequenceDies := s.now + 2 * TTL,
       turns := s.turns[parent := s.sequence + 1])
  }

  predicate IsRun(d: Demand) { d.Stage? && d.phase == Running }

  /** A `run` attempt uses up its turn unless the run slots themselves are the obstacle. */
  ghost predicate UsesTurn(cap: Capacities, entries: Table, d: Demand) {
    IsRun(d) && (Fits(entries, cap) || |OfKind(entries, Run)| <= cap.wasmRun)
  }

  ghost function Rotate(cap: Capacities, s: State, entries: Table, d: Demand): State {
    if UsesTurn(cap, entries, d) then TakeTurn(s, d.parent) else s
  }

  function Store(s: State, id: Token, d: Demand, entries: Table): State {
    s.(leases := entries,
       leasesDie := s.now + 2 * TTL,
       requests := if IsRun(d) then s.requests - {id} else s.requests)
  }

  /** The admission decision proper, on a table without expired leases. */
  ghost function Decide(cap: Capacities, s: State, id: Token, d: Demand): (State, Outcome) {
    var entries := s.leases[id := Lease(d, s.now + TTL)];
    var rotated := Rotate(cap, s, entries, d);
    if Fits(entries, cap) then (Store(rotated, id, d, entries), Granted) else (rotated, Refused)
  }

  datatype Gate = Stop(outcome: Outcome) | Proceed

  /** What the script does before it weighs the demand: the RSS gate, dropping expired leases,
      the parent check and, for `run`, the turn queue. */
  ghost function Prepare(cap: Capacities, s: State, id: Token, d: Demand): (State, Gate) {
    var gated := s.(rss := LiveSamples(s.rss, s.now));
    if TotalRss(gated.rss) > cap.memory then (gated, Stop(Refused)) else
    var pruned := gated.(leases := Live(s.leases, s.now));
    if d.Stage? && d.parent !in pruned.leases then (pruned, Stop(ParentGone)) else
    if IsRun(d) then
      var queued := Enqueue(pruned, id, d.parent);
      (queued, if IsFirst(queued.turns, d.parent) then Proceed else Stop(Refused))
    else (pruned, Proceed)
  }

  /** The `ACQUIRE` script. */
  ghost function Acquire(cap: Capacities, s: State, id: Token, d: Demand): (State, Outcome) {
    var (prepared, gate) := Prepare(cap, s, id, d);
    if gate.Stop? then (prepared, gate.outcome) else Decide(cap, prepared, id, d)
  }

  function Shrunk(d: Demand, mb: nat): Demand {
    match d
    case Task(pool, base, headroom) => Task(pool, Min(base, mb), headroom)
    case Stage(_, _, _) => d
  }

  function ShrinkBase(s: State, id: Token, mb: nat): State {
    if id !in s.leases then s
    else s.(leases := s.leases[id := Lease(Shrunk(s.leases[id].demand, mb), s.leases[id].expires)])
  }

  /** The renewal script: only a lease that is still unexpired can be renewed. */
  function Renew(s: State, id: Token): State {
    if id !in s.leases || s.leases[id].expires <= s.now then s
    else s.(leases := s.leases[id := Lease(s.leases[id].demand, s.now + TTL)], leasesDie := s.now + 2 * TTL)
  }

  /** Time passes; keys whose time-to-live has run out disappear. */
  function Tick(s: State, now: int): State {
    if now < s.now then s else
    s.(now := now,
       leases := if now > s.leasesDie then map[] else s.leases,
       requests := if now > s.requestsDie then map[] else s.requests,
       turns := if now > s.turnsDie then map[] else s.turns,
       sequence := if now > s.sequenceDies then 0 else s.sequence)
  }

  /** Everything any worker may do to the group, in any order. */
  datatype Op =
    | TryAcquire(id: Token, demand: Demand)
    | Shrink(id: Token, mb: nat)
    | RenewLease(id: Token)
    | Release(id: Token)
    | ForgetRequest(id: Token)
    | ReportRss(worker: Token, mb: nat)
    | Advance(now: int)

  ghost function Step(cap: Capacities, s: State, op: Op): State {
    match op
    case TryAcquire(id, d) => Acquire(cap, s, id, d).0
    case Shrink(id, mb) => ShrinkBase(s, id, mb)
    case RenewLease(id) => Renew(s, id)
    case Release(id) => s.(leases := s.leases - {id})
    case ForgetRequest(id) => s.(requests := s.requests - {id})
    case ReportRss(w, mb) => s.(rss := s.rss[w := Sample(mb, s.now + RSS_TTL)])
    case Advance(now) => Tick(s, now)
  }

  ghost function After(cap: Capacities, s: State, ops: seq<Op>): State
    decreases |ops|
  {
    if ops == [] then s else After(cap, Step(cap, s, ops[0]), ops[1..])
  }

  // ---- Safety -------------------------------------------------------------------------

  /** The unexpired leases fit, and none of them outlives the key that holds it. */
  ghost predicate Safe(cap: Capacities, s: State) {
    && Fits(Live(s.leases, s.now), cap)
    && s.leasesDie <= s.now + 2 * TTL
    && forall t :: t in s.leases ==> s.leases[t].expires <= s.leasesDie - TTL
  }

  /** Nothing but expired leases is dropped before the decision, and a demand is only
      weighed against a table without them. */
  lemma PrepareLeases(cap: Capacities, s: State, id: Token, d: Demand)
    ensures var (p, gate) := Prepare(cap, s, id, d);
            && p.now == s.now && p.leasesDie == s.leasesDie
            && (p.leases == s.leases || p.leases == Live(s.leases, s.now))
            && (gate.Proceed? ==> p.leases == Live(s.leases, s.now))
            && (gate.Stop? ==> gate.outcome != Granted)
  {
  }

  lemma DecideIsSafe(cap: Capacities, s: State, id: Token, d: Demand)
    requires Safe(cap, s) && Live(s.leases, s.now) == s.leases
    ensures Safe(cap, Decide(cap, s, id, d).0)
  {
    var entries := s.leases[id := Lease(d, s.now + TTL)];
    assert Live(entries, s.now) == entries;
  }

  lemma PreparedIsSafe(cap: Capacities, s: State, id: Token, d: Demand)
    requires Safe(cap, s)
    ensures Safe(cap, Prepare(cap, s, id, d).0)
  {
    var p := Prepare(cap, s, id, d).0;
    PrepareLeases(cap, s, id, d);
    LighterFits(Live(p.leases, p.now), Live(s.leases, s.now), cap);
  }

  lemma AcquireIsSafe(cap: Capacities, s: State, id: Token, d: Demand)
    requires Safe(cap, s)
    ensures Safe(cap, Acquire(cap, s, id, d).0)
  {
    var (p, gate) := Prepare(cap, s, id, d);
    PreparedIsSafe(cap, s, id, d);
    if gate.Proceed? {
      PrepareLeases(cap, s, id, d);
      assert Live(p.leases, p.now) == p.leases;
      DecideIsSafe(cap, p, id, d);
    }
  }

  lemma StepIsSafe(cap: Capacities, s: State, op: Op)
    requires Safe(cap, s)
    ensures Safe(cap, Step(cap, s, op))
  {
    if op.TryAcquire? {
      AcquireIsSafe(cap, s, op.id, op.demand);
    } else {
      var s' := Step(cap, s, op);
      LighterFits(Live(s'.leases, s'.now), Live(s.leases, s.now), cap);
    }
  }

  lemma {:induction false} AfterIsSafe(cap: Capacities, s: State, ops: seq<Op>)
    requires Safe(cap, s)
    ensures Safe(cap, After(cap, s, ops))
    decreases |ops|
  {
    if ops != [] {
      StepIsSafe(cap, s, ops[0]);
      AfterIsSafe(cap, Step(cap, s, ops[0]), ops[1..]);
    }
  }

  /** In every reachable state the unexpired leases stay inside the memory budget and every
      per-kind limit, whatever the interleaving. */
  lemma NeverOvercommitted(cap: Capacities, start: int, ops: seq<Op>)
    ensures var s := After(cap, Initial(start), ops);
            var live := Live(s.leases, s.now);
            && Reserved(live) <= cap.memory
            && forall kind :: |OfKind(live, kind)| <= cap.Limit(kind)
  {
    var s := Initial(start);
    assert Live(s.leases, s.now) == map[];
    assert forall kind :: OfKind(map[], kind) == {};
    assert Owners(map[]) == {};
    AfterIsSafe(cap, s, ops);
  }

  /** Losing the whole lease key to its time-to-live loses no unexpired lease. */
  lemma KeyExpiryDropsNoLiveLease(cap: Capacities, start: int, ops: seq<Op>, later: int)
    ensures var s := After(cap, Initial(start), ops);
            later >= s.now ==> Live(Tick(s, later).leases, later) == Live(s.leases, later)
  {
    NeverOvercommittedState(cap, start, ops);
  }

  lemma NeverOvercommittedState(cap: Capacities, start: int, ops: seq<Op>)
    ensures Safe(cap, After(cap, Initial(start), ops))
  {
    NeverOvercommitted(cap, start, []);
    AfterIsSafe(cap, Initial(start), ops);
  }

  // ---- Admission never deadlocks --------------------------------------------------------

  /** How much a new stage costs beyond what its parent already reserved. */
  ghost function Overflow(table: Table, parent: Token, memory: nat): nat
    requires IsTask(table, parent)
  {
    var h := table[parent].demand.headroom;
    var c := ChildMemory(table, parent);
    Max(h, c + memory) - Max(h, c)
  }

  lemma StageCost(table: Table, id: Token, lease: Lease)
    requires lease.demand.Stage? && id !in table && IsTask(table, lease.demand.parent)
    ensures Reserved(table[id := lease]) == Reserved(table) + Overflow(table, lease.demand.parent, lease.demand.memory)
  {
    ReservedAfterInsert(table, id, lease);
  }

  lemma OfKindAfterInsert(table: Table, id: Token, lease: Lease, kind: Kind)
    requires id !in table
    ensures |OfKind(table[id := lease], kind)|
         == |OfKind(table, kind)| + (if lease.demand.Kind() == kind then 1 else 0)
  {
    var table' := table[id := lease];
    if lease.demand.Kind() == kind {
      assert OfKind(table', kind) == OfKind(table, kind) + {id};
    } else {
      assert OfKind(table', kind) == OfKind(table, kind);
    }
  }

  /** A stage reaches the admission decision: RSS gate open, parent alive and, for `run`, first. */
  ghost predicate ReachesDecision(cap: Capacities, s: State, id: Token, d: Demand)
    requires d.Stage?
  {
    var live := Live(s.leases, s.now);
    && TotalRss(LiveSamples(s.rss, s.now)) <= cap.memory
    && IsTask(live, d.parent)
    && (IsRun(d) ==>
          IsFirst(QueuedTurns(s.turns, QueuedRequests(s.requests, live, s.now, id, d.parent), d.parent), d.parent))
  }

  lemma GateOpens(cap: Capacities, s: State, id: Token, d: Demand)
    requires d.Stage? && ReachesDecision(cap, s, id, d)
    ensures Prepare(cap, s, id, d).1 == Proceed
  {
  }

  lemma DecideOutcome(cap: Capacities, s: State, id: Token, d: Demand, entries: Table)
    requires entries == s.leases[id := Lease(d, s.now + TTL)]
    ensures Decide(cap, s, id, d).1 == if Fits(entries, cap) then Granted else Refused
  {
  }

  /** Past the gates, the outcome is the admission test. */
  lemma DecisionIsTheTest(cap: Capacities, s: State, id: Token, d: Demand)
    requires d.Stage? && ReachesDecision(cap, s, id, d)
    ensures Acquire(cap, s, id, d).1
         == if Fits(Live(s.leases, s.now)[id := Lease(d, s.now + TTL)], cap) then Granted else Refused
  {
    GateOpens(cap, s, id, d);
    PrepareLeases(cap, s, id, d);
    var p := Prepare(cap, s, id, d).0;
    assert p.leases[id := Lease(d, p.now + TTL)] == Live(s.leases, s.now)[id := Lease(d, s.now + TTL)];
    DecideOutcome(cap, p, id, d, Live(s.leases, s.now)[id := Lease(d, s.now + TTL)]);
    assert Acquire(cap, s, id, d) == Decide(cap, p, id, d);
  }

  lemma FitsAfterInsert(cap: Capacities, table: Table, id: Token, lease: Lease)
    requires Fits(table, cap) && id !in table
    ensures Fits(table[id := lease], cap) <==>
      && Reserved(table[id := lease]) <= cap.memory
      && |OfKind(table, lease.demand.Kind())| < cap.Limit(lease.demand.Kind())
  {
    forall kind ensures |OfKind(table[id := lease], kind)|
                     == |OfKind(table, kind)| + (if lease.demand.Kind() == kind then 1 else 0)
    {
      OfKindAfterInsert(table, id, lease, kind);
    }
  }

  /** For a stage that reaches the decision, the exact condition of admission: a free slot of
      its kind, and room for the part of it that its parent's headroom does not cover. */
  lemma StageGrantedIff(cap: Capacities, s: State, id: Token, d: Demand)
    requires Safe(cap, s) && d.Stage? && id !in Live(s.leases, s.now)
    requires ReachesDecision(cap, s, id, d)
    ensures var live := Live(s.leases, s.now);
            Acquire(cap, s, id, d).1 == Granted <==>
              && |OfKind(live, d.Kind())| < cap.Limit(d.Kind())
              && Reserved(live) + Overflow(live, d.parent, d.memory) <= cap.memory
  {
    var live := Live(s.leases, s.now);
    var lease := Lease(d, s.now + TTL);
    DecisionIsTheTest(cap, s, id, d);
    StageCost(live, id, lease);
    FitsAfterInsert(cap, live, id, lease);
  }

  /** No admission deadlock: a stage that its task's headroom covers is never refused for
      memory, however full the group is. */
  lemma CoveredStageIsGranted(cap: Capacities, s: State, id: Token, d: Demand)
    requires Safe(cap, s) && d.Stage? && id !in Live(s.leases, s.now)
    requires ReachesDecision(cap, s, id, d)
    requires var live := Live(s.leases, s.now);
             && ChildMemory(live, d.parent) + d.memory <= live[d.parent].demand.headroom
             && |OfKind(live, d.Kind())| < cap.Limit(d.Kind())
    ensures Acquire(cap, s, id, d).1 == Granted
  {
    StageGrantedIff(cap, s, id, d);
  }

  // ---- The client's side of an attempt --------------------------------------------------

  datatype Attempt = TooLarge | LeaseGone | NotYet | Admitted

  function SaturatingAdd(a: nat, b: nat): nat { Min(a + b, U64_MAX) }

  /** `try_demand_at`: demands that could never fit are errors before the script runs. */
  ghost function TryDemand(cap: Capacities, s: State, id: Token, d: Demand): (State, Attempt) {
    var least := match d
      case Task(_, base, headroom) => SaturatingAdd(base, headroom)
      case Stage(_, _, memory) => memory;
    if least > cap.memory then (s, TooLarge) else
    var (s', outcome) := Acquire(cap, s, id, d);
    (s', match outcome case Granted => Admitted case Refused => NotYet case ParentGone => LeaseGone)
  }

  /** A covered stage is never rejected as too large either: the polling loop of `stage`
      ends with a lease at its first attempt that finds the gate, a slot and the turn. */
  lemma CoveredStageIsAdmitted(cap: Capacities, s: State, id: Token, d: Demand)
    requires Safe(cap, s) && d.Stage? && id !in Live(s.leases, s.now)
    requires ReachesDecision(cap, s, id, d)
    requires var live := Live(s.leases, s.now);
             && ChildMemory(live, d.parent) + d.memory <= live[d.parent].demand.headroom
             && |OfKind(live, d.Kind())| < cap.Limit(d.Kind())
    ensures TryDemand(cap, s, id, d).1 == Admitted
  {
    CoveredStageIsGranted(cap, s, id, d);
    TaskCostWithinReserved(Live(s.leases, s.now), d.parent);
  }
}
