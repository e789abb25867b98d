/** What the answers of the resource group mean, to tasks and stages, and what a lease is worth once
    it is granted. */
module Admission {
  import opened FiniteSums
  import opened Numbers
  import opened LeaseTable
  import opened Scheduler

  /** The memory that the workers report leaves the gate open. */
  ghost predicate GateOpen(cap: Capacities, s: State) {
    TotalRss(LiveSamples(s.rss, s.now)) <= cap.memory
  }

  // ---- Tasks: first leases and resizes ---------------------------------------------------------

  lemma TaskGate(cap: Capacities, s: State, id: Token, d: Demand)
    requires d.Task?
    ensures Prepare(cap, s, id, d).1 == if GateOpen(cap, s) then Proceed else Stop(Refused)
  {
  }

  lemma TaskOutcome(cap: Capacities, s: State, id: Token, d: Demand, entries: Table)
    requires d.Task? && entries == Live(s.leases, s.now)[id := Lease(d, s.now + TTL)]
    ensures Acquire(cap, s, id, d).1 == if GateOpen(cap, s) && Fits(entries, cap) then Granted else Refused
  {
    var p := Prepare(cap, s, id, d).0;
    TaskGate(cap, s, id, d);
    PrepareLeases(cap, s, id, d);
    if GateOpen(cap, s) {
      assert p.leases[id := Lease(d, p.now + TTL)] == entries;
      DecideOutcome(cap, p, id, d, entries);
    }
  }

  /** What the table costs with a task of this size in it, whatever `id` held before: stages of an
      earlier lease of `id` move back under its headroom. */
  lemma TaskCost(rest: Table, id: Token, lease: Lease)
    requires id !in rest && lease.demand.Task?
    ensures Reserved(rest[id := lease])
         == Reserved(rest) - ChildMemory(rest, id)
            + lease.demand.base + Max(lease.demand.headroom, ChildMemory(rest, id))
  {
    ReservedAfterInsert(rest, id, lease);
    assert Owner(rest[id := lease], id) == id;
  }

  lemma RestFits(cap: Capacities, s: State, id: Token)
    requires Safe(cap, s)
    ensures Fits(Live(s.leases, s.now) - {id}, cap)
  {
    LighterFits(Live(s.leases, s.now) - {id}, Live(s.leases, s.now), cap);
  }

  /** A task's attempt, whether its first or a resize: granted if and only if the memory gate is open,
      its pool has a slot besides the one it may hold already, and its base and the larger of its
      headroom and its living stages fit next to all others. */
  lemma TaskGrantedIff(cap: Capacities, s: State, id: Token, d: Demand)
    requires Safe(cap, s) && d.Task?
    ensures var rest := Live(s.leases, s.now) - {id};
            Acquire(cap, s, id, d).1 == Granted <==>
              && GateOpen(cap, s)
              && |OfKind(rest, d.Kind())| < cap.Limit(d.Kind())
              && Reserved(rest) - ChildMemory(rest, id) + d.base + Max(d.headroom, ChildMemory(rest, id)) <= cap.memory
  {
    var rest := Live(s.leases, s.now) - {id};
    var lease := Lease(d, s.now + TTL);
    assert rest[id := lease] == Live(s.leases, s.now)[id := lease];
    TaskOutcome(cap, s, id, d, rest[id := lease]);
    RestFits(cap, s, id);
    TaskCost(rest, id, lease);
    FitsAfterInsert(cap, rest, id, lease);
  }

  // ---- Every attempt -----------------------------------------------------------------------------

  lemma DecideStores(cap: Capacities, s: State, id: Token, d: Demand)
    ensures var (s', outcome) := Decide(cap, s, id, d);
            && s'.leases == (if outcome == Granted then s.leases[id := Lease(d, s.now + TTL)] else s.leases)
            && outcome != ParentGone
  {
  }

  /** The answer is `Granted` exactly when the lease is stored, for one time-to-live from now and next
      to all unexpired ones; otherwise no lease is stored, renewed or lost but to expiry. */
  lemma AnswerTellsLease(cap: Capacities, s: State, id: Token, d: Demand)
    ensures var (s', outcome) := Acquire(cap, s, id, d);
            && (outcome == Granted ==> s'.leases == Live(s.leases, s.now)[id := Lease(d, s.now + TTL)])
            && (outcome != Granted ==> s'.leases == s.leases || s'.leases == Live(s.leases, s.now))
  {
    PrepareLeases(cap, s, id, d);
    DecideStores(cap, Prepare(cap, s, id, d).0, id, d);
  }

  lemma GateAnswer(cap: Capacities, s: State, id: Token, d: Demand)
    ensures Prepare(cap, s, id, d).1 == Stop(ParentGone)
       <==> GateOpen(cap, s) && d.Stage? && d.parent !in Live(s.leases, s.now)
  {
  }

  /** A stage is told that its parent is gone exactly when it is, with the gate open. */
  lemma ParentGoneIff(cap: Capacities, s: State, id: Token, d: Demand)
    ensures Acquire(cap, s, id, d).1 == ParentGone
       <==> GateOpen(cap, s) && d.Stage? && d.parent !in Live(s.leases, s.now)
  {
    GateAnswer(cap, s, id, d);
    DecideStores(cap, Prepare(cap, s, id, d).0, id, d);
  }

  // ---- The client's answers --------------------------------------------------------------------------

  lemma AloneReserves(id: Token, lease: Lease)
    ensures Reserved(map[id := lease])
         == match lease.demand case Task(_, base, headroom) => base + headroom case Stage(_, _, memory) => memory
  {
    var none: Table := map[];
    assert Owners(none) == {} && none[id := lease] == map[id := lease];
    var g := Owner(map[id := lease], id);
    UnownedGroupIsFree(none, g);
    ReservedAfterInsert(none, id, lease);
    assert ChildMemory(none, g) == 0;
  }

  lemma AloneIsOne(id: Token, lease: Lease, kind: Kind)
    ensures |OfKind(map[id := lease], kind)| == if lease.demand.Kind() == kind then 1 else 0
  {
    var none: Table := map[];
    assert OfKind(none, kind) == {} && none[id := lease] == map[id := lease];
    OfKindAfterInsert(none, id, lease, kind);
  }

  lemma AloneFitsIff(cap: Capacities, id: Token, lease: Lease)
    requires cap.Limit(lease.demand.Kind()) >= 1
    ensures Fits(map[id := lease], cap) <==> Reserved(map[id := lease]) <= cap.memory
  {
    forall kind ensures |OfKind(map[id := lease], kind)| <= cap.Limit(kind) {
      AloneIsOne(id, lease, kind);
    }
  }

  /** A demand is rejected as too large, before it touches the group, exactly when it would not fit
      an empty group. The budget is in megabytes, far below where the client's addition saturates. */
  lemma TooLargeIff(cap: Capacities, s: State, id: Token, d: Demand)
    requires cap.Limit(d.Kind()) >= 1 && cap.memory < U64_MAX
    ensures TryDemand(cap, s, id, d).1 == TooLarge <==> !Fits(map[id := Lease(d, s.now + TTL)], cap)
    ensures TryDemand(cap, s, id, d).1 == TooLarge ==> TryDemand(cap, s, id, d).0 == s
  {
    AloneFitsIff(cap, id, Lease(d, s.now + TTL));
    AloneReserves(id, Lease(d, s.now + TTL));
  }

  /** Otherwise the client's answer is the script's. */
  lemma ClientAnswers(cap: Capacities, s: State, id: Token, d: Demand)
    requires TryDemand(cap, s, id, d).1 != TooLarge
    ensures TryDemand(cap, s, id, d).0 == Acquire(cap, s, id, d).0
    ensures TryDemand(cap, s, id, d).1 == Admitted <==> Acquire(cap, s, id, d).1 == Granted
    ensures TryDemand(cap, s, id, d).1 == LeaseGone
       <==> GateOpen(cap, s) && d.Stage? && d.parent !in Live(s.leases, s.now)
    ensures TryDemand(cap, s, id, d).1 in {Admitted, LeaseGone, NotYet}
  {
    ParentGoneIff(cap, s, id, d);
  }

  // ---- What a lease is worth -------------------------------------------------------------------------

  /** Nobody releases this lease. */
  predicate Unreleased(ops: seq<Op>, id: Token) {
    forall i :: 0 <= i < |ops| ==> ops[i] != Release(id)
  }

  ghost predicate HeldUntil(s: State, id: Token, end: int) {
    id in s.leases && s.leases[id].expires >= end
  }

  lemma StepKeepsLease(cap: Capacities, s: State, op: Op, id: Token, end: int)
    requires Safe(cap, s) && HeldUntil(s, id, end) && op != Release(id) && end <= s.now + TTL
    requires Step(cap, s, op).now < end
    ensures HeldUntil(Step(cap, s, op), id, end)
  {
    if op.TryAcquire? {
      AnswerTellsLease(cap, s, op.id, op.demand);
      PrepareLeases(cap, s, op.id, op.demand);
    }
  }

  lemma TimeOnlyGrows(cap: Capacities, s: State, op: Op)
    ensures Step(cap, s, op).now >= s.now
  {
    if op.TryAcquire? {
      PrepareLeases(cap, s, op.id, op.demand);
    }
  }

  lemma {:induction false} RunKeepsTime(cap: Capacities, s: State, ops: seq<Op>)
    ensures After(cap, s, ops).now >= s.now
    decreases |ops|
  {
    if ops != [] {
      TimeOnlyGrows(cap, s, ops[0]);
      RunKeepsTime(cap, Step(cap, s, ops[0]), ops[1..]);
    }
  }

  /** A lease holds for its time: until it expires nothing that others do, no shrink, no resize, granted
      or refused, and no key's expiry ends it; only its own release does. */
  lemma {:induction false} LeaseLasts(cap: Capacities, s: State, ops: seq<Op>, id: Token, end: int)
    requires Safe(cap, s) && HeldUntil(s, id, end) && Unreleased(ops, id) && end <= s.now + TTL
    requires After(cap, s, ops).now < end
    ensures id in Live(After(cap, s, ops).leases, After(cap, s, ops).now)
    ensures HeldUntil(After(cap, s, ops), id, end)
    decreases |ops|
  {
    if ops != [] {
      var s' := Step(cap, s, ops[0]);
      RunKeepsTime(cap, s', ops[1..]);
      TimeOnlyGrows(cap, s, ops[0]);
      StepKeepsLease(cap, s, ops[0], id, end);
      StepIsSafe(cap, s, ops[0]);
      assert Unreleased(ops[1..], id);
      LeaseLasts(cap, s', ops[1..], id, end);
    }
  }

  /** So a granted lease, and a renewed one, is alive for a whole time-to-live. */
  lemma GrantLasts(cap: Capacities, s: State, id: Token, d: Demand, ops: seq<Op>)
    requires Safe(cap, s) && Acquire(cap, s, id, d).1 == Granted && Unreleased(ops, id)
    requires After(cap, Step(cap, s, TryAcquire(id, d)), ops).now < s.now + TTL
    ensures var s' := After(cap, Step(cap, s, TryAcquire(id, d)), ops); id in Live(s'.leases, s'.now)
  {
    AnswerTellsLease(cap, s, id, d);
    StepIsSafe(cap, s, TryAcquire(id, d));
    TimeOnlyGrows(cap, s, TryAcquire(id, d));
    LeaseLasts(cap, Step(cap, s, TryAcquire(id, d)), ops, id, s.now + TTL);
  }

  lemma RenewalLasts(cap: Capacities, s: State, id: Token, ops: seq<Op>)
    requires Safe(cap, s) && id in Live(s.leases, s.now) && Unreleased(ops, id)
    requires After(cap, Step(cap, s, RenewLease(id)), ops).now < s.now + TTL
    ensures var s' := After(cap, Step(cap, s, RenewLease(id)), ops); id in Live(s'.leases, s'.now)
  {
    StepIsSafe(cap, s, RenewLease(id));
    LeaseLasts(cap, Step(cap, s, RenewLease(id)), ops, id, s.now + TTL);
  }

  // ---- What release and shrinking give back ------------------------------------------------------------

  /** A grant followed by its release leaves the living leases as they were. */
  lemma ReleaseUndoesGrant(cap: Capacities, s: State, id: Token, d: Demand)
    requires id !in Live(s.leases, s.now) && Acquire(cap, s, id, d).1 == Granted
    ensures var s' := Step(cap, Step(cap, s, TryAcquire(id, d)), Release(id));
            Live(s'.leases, s'.now) == Live(s.leases, s.now)
  {
    var live := Live(s.leases, s.now);
    var s1 := Step(cap, s, TryAcquire(id, d));
    AnswerTellsLease(cap, s, id, d);
    TimeOnlyGrowsAtAttempt(cap, s, id, d);
    assert live[id := Lease(d, s.now + TTL)] - {id} == live;
    assert Live(live, s.now) == live;
  }

  lemma TimeOnlyGrowsAtAttempt(cap: Capacities, s: State, id: Token, d: Demand)
    ensures Step(cap, s, TryAcquire(id, d)).now == s.now
  {
    PrepareLeases(cap, s, id, d);
  }

  /** A task that has started gives back what it no longer needs: shrinking to `mb` frees exactly the
      difference in base, and nothing else changes. */
  lemma ShrinkFrees(cap: Capacities, s: State, id: Token, mb: nat)
    requires IsTask(Live(s.leases, s.now), id)
    ensures var s' := Step(cap, s, Shrink(id, mb));
            var base := s.leases[id].demand.base;
            && Reserved(Live(s'.leases, s'.now))
               == Reserved(Live(s.leases, s.now)) - (if mb < base then base - mb else 0)
            && Live(s'.leases, s'.now) - {id} == Live(s.leases, s.now) - {id}
            && HeldUntil(s', id, s.leases[id].expires)
  {
    var s' := Step(cap, s, Shrink(id, mb));
    var live: Table := Live(s.leases, s.now);
    var live': Table := Live(s'.leases, s'.now);
    var rest: Table := live - {id};
    assert rest[id := live[id]] == live && rest[id := live'[id]] == live';
    TaskCost(rest, id, live[id]);
    TaskCost(rest, id, live'[id]);
  }

  // ---- Which limit is whose --------------------------------------------------------------------------

  function TasksOf(t: Table, pool: Pool): set<Token> {
    set k | k in t && t[k].demand.Task? && t[k].demand.pool == pool
  }

  function StagesIn(t: Table, phase: Phase): set<Token> {
    set k | k in t && t[k].demand.Stage? && t[k].demand.phase == phase
  }

  lemma KindsArePools(t: Table)
    ensures OfKind(t, OiWasm) == TasksOf(t, WasmPool) && OfKind(t, OiNative) == TasksOf(t, NativePool)
    ensures OfKind(t, Ai) == TasksOf(t, AiPool)
    ensures OfKind(t, Compile) == StagesIn(t, Compiling) && OfKind(t, Run) == StagesIn(t, Running)
  {
  }

  /** In every reachable state each pool's tasks and each phase's stages are within the limit that
      carries their name. */
  lemma PoolsStayWithinLimits(cap: Capacities, start: int, ops: seq<Op>)
    ensures var s := After(cap, Initial(start), ops);
            var live := Live(s.leases, s.now);
            && |TasksOf(live, WasmPool)| <= cap.wasmTasks && |TasksOf(live, NativePool)| <= cap.nativeTasks
            && |TasksOf(live, AiPool)| <= cap.aiTasks
            && |StagesIn(live, Compiling)| <= cap.wasmCompile && |StagesIn(live, Running)| <= cap.wasmRun
  {
    var s := After(cap, Initial(start), ops);
    NeverOvercommitted(cap, start, ops);
    KindsArePools(Live(s.leases, s.now));
    assert cap.Limit(OiWasm) == cap.wasmTasks && cap.Limit(OiNative) == cap.nativeTasks && cap.Limit(Ai) == cap.aiTasks;
    assert cap.Limit(Compile) == cap.wasmCompile && cap.Limit(Run) == cap.wasmRun;
  }

  // ---- The memory gate ---------------------------------------------------------------------------------

  /** A worker's report counts for its time and replaces its last one. */
  lemma ReportCounts(cap: Capacities, s: State, worker: Token, mb: nat, t: int)
    requires s.now <= t
    ensures var s' := Step(cap, Step(cap, s, ReportRss(worker, mb)), Advance(t));
            && (worker in LiveSamples(s'.rss, s'.now) <==> t < s.now + RSS_TTL)
            && (t < s.now + RSS_TTL ==>
                  TotalRss(LiveSamples(s'.rss, t)) == TotalRss(LiveSamples(s.rss, t) - {worker}) + mb)
            && (t >= s.now + RSS_TTL ==> LiveSamples(s'.rss, t) == LiveSamples(s.rss, t) - {worker})
  {
    var before := LiveSamples(s.rss, t) - {worker};
    var s' := Step(cap, Step(cap, s, ReportRss(worker, mb)), Advance(t));
    var after := LiveSamples(s'.rss, t);
    if t < s.now + RSS_TTL {
      assert after == before[worker := Sample(mb, s.now + RSS_TTL)];
      assert after.Keys == before.Keys + {worker};
      SumAdd(before.Keys, SampleTerm(after), worker);
      SumSame(before.Keys, SampleTerm(after), SampleTerm(before));
    } else {
      assert after == before;
    }
  }

  /** While it is closed nothing is granted, nobody queues, and only expired reports go. */
  lemma ClosedGateOnlyForgets(cap: Capacities, s: State, id: Token, d: Demand)
    requires !GateOpen(cap, s)
    ensures Acquire(cap, s, id, d) == (s.(rss := LiveSamples(s.rss, s.now)), Refused)
  {
  }
}
