/** A run that the scripts allow, in which the turn counter expires under a living turn set, and a
    parent then goes twice while another one waits. */
module CounterRestart {
  import opened FiniteSums
  import opened LeaseTable
  import opened Scheduler
  import opened TurnFairness

  /** The default numbers of slots, but for one `run` slot, and 2 GB. */
  const CAP := Capacities(4, 2, 2, 2, 1, 2048)

  const TASK := Task(WasmPool, 128, 512)

  /** A case with a memory limit of 64 MB asks for 128 MB more. */
  function RunOf(parent: Token): Demand { Stage(Running, parent, 192) }

  function Poll(id: Token, parent: Token): Op { TryAcquire(id, RunOf(parent)) }

  // ---- Tables that fit the budget --------------------------------------------------------------

  /** Tasks 1 and 2, or the first of them, and some `run` stages of theirs. */
  ghost predicate Staffed(t: Table, tasks: set<Token>, running: set<Token>) {
    && t.Keys == tasks + running && tasks !! running
    && (forall k :: k in tasks ==> t[k].demand == TASK)
    && (forall k :: k in running ==> IsRun(t[k].demand) && t[k].demand.parent in tasks && t[k].demand.memory == 192)
  }

  /** Two stages of one task are within its headroom. */
  lemma StagesAreCovered(t: Table, tasks: set<Token>, running: set<Token>, g: Token)
    requires Staffed(t, tasks, running) && |running| <= 2
    ensures ChildMemory(t, g) <= 384
  {
    SumPadded(running, t.Keys, ChildTerm(t, g));
    SumBounded(running, ChildTerm(t, g), 192);
  }

  lemma TaskIsCharged(t: Table, tasks: set<Token>, running: set<Token>, g: Token)
    requires Staffed(t, tasks, running) && |running| <= 2 && g in Owners(t)
    ensures g in tasks && GroupTerm(t)(g) == 640
  {
    StagesAreCovered(t, tasks, running, g);
  }

  lemma StaffedReserves(t: Table, tasks: set<Token>, running: set<Token>)
    requires Staffed(t, tasks, running) && |tasks| <= 2 && |running| <= 2
    ensures Reserved(t) <= CAP.memory
  {
    forall g | g in Owners(t) ensures g in tasks && GroupTerm(t)(g) == 640 {
      TaskIsCharged(t, tasks, running, g);
    }
    SubsetCardinality(Owners(t), tasks);
    SumBounded(Owners(t), GroupTerm(t), 640);
    assert |Owners(t)| * 640 <= 2 * 640;
  }

  lemma StaffedKinds(t: Table, tasks: set<Token>, running: set<Token>)
    requires Staffed(t, tasks, running)
    ensures OfKind(t, Run) == running && OfKind(t, OiWasm) == tasks
    ensures OfKind(t, OiNative) == {} && OfKind(t, Ai) == {} && OfKind(t, Compile) == {}
  {
  }

  lemma StaffedFits(t: Table, tasks: set<Token>, running: set<Token>)
    requires Staffed(t, tasks, running) && |tasks| <= 2 && |running| <= 2
    ensures Fits(t, CAP) == (|running| <= 1) && OfKind(t, Run) == running
  {
    StaffedReserves(t, tasks, running);
    StaffedKinds(t, tasks, running);
    FitsByKind(t);
  }

  lemma FitsByKind(t: Table)
    requires Reserved(t) <= CAP.memory && OfKind(t, OiNative) == {} && OfKind(t, Ai) == {} && OfKind(t, Compile) == {}
    requires |OfKind(t, OiWasm)| <= 2
    ensures Fits(t, CAP) == (|OfKind(t, Run)| <= 1)
  {
  }

  // ---- One attempt ---------------------------------------------------------------------------

  /** Nothing has expired, nobody reports memory, and every parent in the turn set waits. */
  ghost predicate Lively(s: State, tasks: set<Token>, running: set<Token>) {
    && s.rss == map[] && Staffed(s.leases, tasks, running) && |tasks| <= 2
    && (forall k :: k in s.leases ==> s.leases[k].expires > s.now)
    && (forall r :: r in s.requests ==> s.requests[r].expires > s.now && s.requests[r].parent in s.leases)
  }

  lemma NothingToPrune(s: State)
    requires s.rss == map[] && forall k :: k in s.leases ==> s.leases[k].expires > s.now
    ensures Live(s.leases, s.now) == s.leases && LiveSamples(s.rss, s.now) == s.rss && TotalRss(s.rss) == 0
  {
  }

  lemma NobodyLeaves(s: State, id: Token, parent: Token, r: State)
    requires parent in s.leases && r == Registered(s, id, parent)
    requires forall q :: q in s.requests ==> s.requests[q].expires > s.now && s.requests[q].parent in s.leases
    requires s.turns.Keys <= Waiting(r.requests)
    ensures Enqueue(s, id, parent) == r
  {
    assert QueuedRequests(s.requests, s.leases, s.now, id, parent) == r.requests;
    assert KeepTurns(s.turns, Waiting(r.requests)) == s.turns;
  }

  /** The queues once attempt `id` has registered itself. */
  function Registered(s: State, id: Token, parent: Token): State {
    s.(requests := s.requests[id := Request(parent, s.now + TTL)], requestsDie := s.now + 2 * TTL,
       turns := if parent in s.turns then s.turns else s.turns[parent := 0], turnsDie := s.now + 2 * TTL)
  }

  lemma PreparesTask(s: State, id: Token, d: Demand)
    requires LiveSamples(s.rss, s.now) == s.rss && TotalRss(s.rss) == 0 && Live(s.leases, s.now) == s.leases
    requires d.Task?
    ensures Prepare(CAP, s, id, d) == (s, Proceed)
  {
  }

  lemma PreparesRun(s: State, id: Token, d: Demand, r: State, gate: Gate)
    requires LiveSamples(s.rss, s.now) == s.rss && TotalRss(s.rss) == 0 && Live(s.leases, s.now) == s.leases
    requires IsRun(d) && d.parent in s.leases && r == Enqueue(s, id, d.parent)
    requires gate == if IsFirst(r.turns, d.parent) then Proceed else Stop(Refused)
    ensures Prepare(CAP, s, id, d) == (r, gate)
  {
  }

  lemma AcquireUnfolds(s: State, id: Token, d: Demand, p: State, gate: Gate)
    requires Prepare(CAP, s, id, d) == (p, gate)
    ensures Step(CAP, s, TryAcquire(id, d)) == if gate.Stop? then p else Decide(CAP, p, id, d).0
  {
  }

  lemma DecideUnfolds(s: State, id: Token, d: Demand, entries: Table, fits: bool, uses: bool)
    requires entries == s.leases[id := Lease(d, s.now + TTL)]
    requires fits == Fits(entries, CAP) && uses == UsesTurn(CAP, entries, d)
    ensures var rotated := if uses then TakeTurn(s, d.parent) else s;
            Decide(CAP, s, id, d).0 == if fits then Store(rotated, id, d, entries) else rotated
  {
  }

  lemma PollUnfolds(s: State, tasks: set<Token>, running: set<Token>, id: Token, parent: Token, r: State)
    requires Lively(s, tasks, running) && parent in tasks && r == Registered(s, id, parent)
    requires s.turns.Keys <= Waiting(r.requests)
    ensures Step(CAP, s, Poll(id, parent)) == if IsFirst(r.turns, parent) then Decide(CAP, r, id, RunOf(parent)).0
            else r
  {
    NothingToPrune(s);
    NobodyLeaves(s, id, parent, r);
    var gate := if IsFirst(r.turns, parent) then Proceed else Stop(Refused);
    PreparesRun(s, id, RunOf(parent), r, gate);
    AcquireUnfolds(s, id, RunOf(parent), r, gate);
  }

  lemma FirstPollUnfolds(s: State, tasks: set<Token>, running: set<Token>, id: Token, parent: Token, r: State)
    requires Lively(s, tasks, running) && parent in tasks && r == Registered(s, id, parent)
    requires s.turns.Keys <= Waiting(r.requests) && IsFirst(r.turns, parent)
    ensures Step(CAP, s, Poll(id, parent)) == Decide(CAP, r, id, RunOf(parent)).0
  {
    PollUnfolds(s, tasks, running, id, parent, r);
  }

  lemma DecideWhenFull(s: State, tasks: set<Token>, running: set<Token>, id: Token, parent: Token)
    requires Staffed(s.leases, tasks, running) && |tasks| <= 2 && id !in s.leases && |running| == 1 && parent in tasks
    ensures Decide(CAP, s, id, RunOf(parent)).0 == s
  {
    var entries := s.leases[id := Lease(RunOf(parent), s.now + TTL)];
    assert Staffed(entries, tasks, running + {id});
    StaffedFits(entries, tasks, running + {id});
    DecideUnfolds(s, id, RunOf(parent), entries, false, false);
  }

  lemma DecideWhenFree(s: State, tasks: set<Token>, id: Token, parent: Token, entries: Table)
    requires Staffed(s.leases, tasks, {}) && |tasks| <= 2 && id !in s.leases && parent in tasks
    requires entries == s.leases[id := Lease(RunOf(parent), s.now + TTL)]
    ensures Decide(CAP, s, id, RunOf(parent)).0 == Store(TakeTurn(s, parent), id, RunOf(parent), entries)
  {
    assert Staffed(entries, tasks, {id});
    StaffedFits(entries, tasks, {id});
    DecideUnfolds(s, id, RunOf(parent), entries, true, true);
  }

  /** With the only slot taken an attempt is refused and uses no turn, first or not. */
  lemma PollIsRefused(s: State, tasks: set<Token>, running: set<Token>, id: Token, parent: Token, r: State)
    requires Lively(s, tasks, running) && parent in tasks && id !in s.leases && |running| == 1
    requires r == Registered(s, id, parent) && s.turns.Keys <= Waiting(r.requests)
    ensures Step(CAP, s, Poll(id, parent)) == r
  {
    PollUnfolds(s, tasks, running, id, parent, r);
    DecideWhenFull(r, tasks, running, id, parent);
  }

  /** With the slot free the first parent takes its turn and gets it. */
  lemma PollIsServed(s: State, tasks: set<Token>, id: Token, parent: Token, r: State, entries: Table)
    requires Lively(s, tasks, {}) && parent in tasks && id !in s.leases
    requires r == Registered(s, id, parent) && s.turns.Keys <= Waiting(r.requests) && IsFirst(r.turns, parent)
    requires entries == r.leases[id := Lease(RunOf(parent), r.now + TTL)]
    ensures Step(CAP, s, Poll(id, parent)) == Store(TakeTurn(r, parent), id, RunOf(parent), entries)
  {
    FirstPollUnfolds(s, tasks, {}, id, parent, r);
    DecideWhenFree(r, tasks, id, parent, entries);
  }

  lemma DecideTask(s: State, tasks: set<Token>, id: Token, entries: Table)
    requires Staffed(s.leases, tasks, {}) && id !in s.leases && |tasks| <= 1
    requires entries == s.leases[id := Lease(TASK, s.now + TTL)]
    ensures Decide(CAP, s, id, TASK).0 == Store(s, id, TASK, entries)
  {
    assert Staffed(entries, tasks + {id}, {});
    StaffedFits(entries, tasks + {id}, {});
    DecideUnfolds(s, id, TASK, entries, true, false);
  }

  lemma TaskIsAdmitted(s: State, tasks: set<Token>, id: Token, entries: Table)
    requires Lively(s, tasks, {}) && id !in s.leases && |tasks| <= 1
    requires entries == s.leases[id := Lease(TASK, s.now + TTL)]
    ensures Step(CAP, s, TryAcquire(id, TASK)) == Store(s, id, TASK, entries)
  {
    NothingToPrune(s);
    PreparesTask(s, id, TASK);
    AcquireUnfolds(s, id, TASK, s, Proceed);
    DecideTask(s, tasks, id, entries);
  }

  // ---- Runs, state by state ---------------------------------------------------------------------

  lemma {:induction false} Chain(states: seq<State>, ops: seq<Op>)
    requires |states| == |ops| + 1
    requires forall i :: 0 <= i < |ops| ==> Step(CAP, states[i], ops[i]) == states[i + 1]
    ensures After(CAP, states[0], ops) == states[|ops|]
    decreases |ops|
  {
    if ops != [] {
      Chain(states[1..], ops[1..]);
    }
  }

  lemma {:induction false} AfterBoth(s: State, a: seq<Op>, b: seq<Op>)
    ensures After(CAP, s, a + b) == After(CAP, After(CAP, s, a), b)
    decreases |a|
  {
    if a == [] {
      assert a + b == b;
    } else {
      assert (a + b)[1..] == a[1..] + b;
      AfterBoth(Step(CAP, s, a[0]), a[1..], b);
    }
  }

  lemma AfterFour(s0: State, a: seq<Op>, s1: State, b: seq<Op>, s2: State, c: seq<Op>, s3: State, d: seq<Op>, s4: State)
    requires After(CAP, s0, a) == s1 && After(CAP, s1, b) == s2 && After(CAP, s2, c) == s3 && After(CAP, s3, d) == s4
    ensures After(CAP, s0, a + (b + (c + d))) == s4
  {
    AfterBoth(s0, a, b + (c + d));
    AfterBoth(s1, b, c + d);
    AfterBoth(s2, c, d);
  }

  lemma AfterOne(s0: State, a: Op, s1: State)
    requires Step(CAP, s0, a) == s1
    ensures After(CAP, s0, [a]) == s1
  {
    Chain([s0, s1], [a]);
  }

  lemma AfterTwo(s0: State, a: Op, s1: State, b: Op, s2: State)
    requires Step(CAP, s0, a) == s1 && Step(CAP, s1, b) == s2
    ensures After(CAP, s0, [a, b]) == s2
  {
    Chain([s0, s1, s2], [a, b]);
  }

  // ---- The run -------------------------------------------------------------------------------

  function Leases(t: int): Table {
    map[1 := Lease(TASK, t + TTL), 2 := Lease(TASK, t + TTL), 21 := Lease(RunOf(2), t + TTL)]
  }

  /** Stage 21 of task 2 runs on, while both tasks have another stage waiting; everything is
      renewed at `t`, but the counter was last used at 0. */
  function Busy(t: int): State {
    State(t, Leases(t), map[22 := Request(2, t + TTL), 11 := Request(1, t + TTL)], map[2 := 2, 1 := 0], 2, map[],
          t + 2 * TTL, t + 2 * TTL, t + 2 * TTL, 2 * TTL)
  }

  const TASKS: Table := map[1 := Lease(TASK, TTL), 2 := Lease(TASK, TTL)]

  /** At time 0, with everything set to live as long as it can. */
  function AtZero(leases: Table, requests: map<Token, Request>, turns: map<Token, nat>, sequence: nat): State {
    State(0, leases, requests, turns, sequence, map[], 2 * TTL, 2 * TTL, 2 * TTL, 2 * TTL)
  }

  ghost const HIRED: State := Initial(0).(leases := TASKS, leasesDie := 2 * TTL)

  lemma FirstIsHired()
    ensures Step(CAP, Initial(0), TryAcquire(1, TASK))
         == Initial(0).(leases := map[1 := Lease(TASK, TTL)], leasesDie := 2 * TTL)
  {
    TaskIsAdmitted(Initial(0), {}, 1, map[1 := Lease(TASK, TTL)]);
  }

  lemma SecondIsHired()
    ensures Step(CAP, Initial(0).(leases := map[1 := Lease(TASK, TTL)], leasesDie := 2 * TTL),
                 TryAcquire(2, TASK)) == HIRED
  {
    TaskIsAdmitted(Initial(0).(leases := map[1 := Lease(TASK, TTL)], leasesDie := 2 * TTL), {1}, 2, TASKS);
  }

  /** A stage of the only waiting task is served, and nobody waits any more. */
  lemma ServedAlone(s: State, id: Token, r: State, entries: Table)
    requires Lively(s, {1, 2}, {}) && s.now == 0 && s.leases == TASKS && s.requests == map[]
    requires s.turns == map[] || s.turns == map[2 := s.sequence]
    requires id !in {1, 2} && r == Registered(s, id, 2) && entries == TASKS[id := Lease(RunOf(2), TTL)]
    ensures Step(CAP, s, Poll(id, 2)) == AtZero(entries, map[], map[2 := s.sequence + 1], s.sequence + 1)
  {
    assert r.requests == map[id := Request(2, TTL)] && r.requests[id].parent == 2;
    assert r.turns.Keys == {2};
    PollIsServed(s, {1, 2}, id, 2, r, entries);
    ServedState(s, r, id, entries);
  }

  lemma ServedState(s: State, r: State, id: Token, entries: Table)
    requires s.now == 0 && s.rss == map[] && s.requests == map[] && r == Registered(s, id, 2) && r.turns.Keys == {2}
    ensures Store(TakeTurn(r, 2), id, RunOf(2), entries)
         == AtZero(entries, map[], map[2 := s.sequence + 1], s.sequence + 1)
  {
  }

  lemma SecondQueuesUp()
    ensures Step(CAP, AtZero(Leases(0), map[], map[2 := 2], 2), Poll(22, 2))
         == AtZero(Leases(0), map[22 := Request(2, TTL)], map[2 := 2], 2)
  {
    var s := AtZero(Leases(0), map[], map[2 := 2], 2);
    var s' := AtZero(Leases(0), map[22 := Request(2, TTL)], map[2 := 2], 2);
    assert Registered(s, 22, 2) == s';
    BothRunOn(s);
    assert s'.requests[22].parent == 2;
    PollIsRefused(s, {1, 2}, {21}, 22, 2, s');
  }

  /** Stage 21 and both tasks are alive. */
  lemma BothRunOn(s: State)
    requires s.leases == Leases(s.now) && s.rss == map[]
    requires forall r :: r in s.requests ==> s.requests[r].expires > s.now && s.requests[r].parent in {1, 2}
    ensures Lively(s, {1, 2}, {21})
  {
  }

  lemma FirstQueuesUp()
    ensures Step(CAP, AtZero(Leases(0), map[22 := Request(2, TTL)], map[2 := 2], 2), Poll(11, 1)) == Busy(0)
  {
    var s := AtZero(Leases(0), map[22 := Request(2, TTL)], map[2 := 2], 2);
    assert Registered(s, 11, 1) == Busy(0);
    BothRunOn(s);
    assert Busy(0).requests[22].parent == 2;
    PollIsRefused(s, {1, 2}, {21}, 11, 1, Busy(0));
  }

  /** Task 2 has its first two turns, and both tasks queue up behind its second stage. */
  const SETUP: seq<Op> :=
    [TryAcquire(1, TASK), TryAcquire(2, TASK)]
    + ([Poll(20, 2), Release(20)] + ([Poll(21, 2), Poll(22, 2)] + [Poll(11, 1)]))

  lemma SetUp()
    ensures After(CAP, Initial(0), SETUP) == Busy(0)
  {
    AfterHiring();
    AfterFirstTurn();
    AfterSecondTurn();
    FirstQueuesUp();
    var queued := AtZero(Leases(0), map[22 := Request(2, TTL)], map[2 := 2], 2);
    AfterOne(queued, Poll(11, 1), Busy(0));
    AfterFour(Initial(0), [TryAcquire(1, TASK), TryAcquire(2, TASK)], HIRED, [Poll(20, 2), Release(20)],
              AtZero(TASKS, map[], map[2 := 1], 1), [Poll(21, 2), Poll(22, 2)], queued, [Poll(11, 1)], Busy(0));
  }

  lemma AfterHiring()
    ensures After(CAP, Initial(0), [TryAcquire(1, TASK), TryAcquire(2, TASK)]) == HIRED
  {
    FirstIsHired();
    SecondIsHired();
    AfterTwo(Initial(0), TryAcquire(1, TASK), Initial(0).(leases := map[1 := Lease(TASK, TTL)], leasesDie := 2 * TTL),
             TryAcquire(2, TASK), HIRED);
  }

  lemma HiredAreFree()
    ensures Lively(HIRED, {1, 2}, {}) && HIRED.now == 0 && HIRED.sequence == 0
    ensures HIRED.leases == TASKS && HIRED.requests == map[] && HIRED.turns == map[]
  {
  }

  lemma FirstIsServed(s: State, entries: Table)
    requires Lively(s, {1, 2}, {}) && s.now == 0 && s.sequence == 0
    requires s.leases == TASKS && s.requests == map[] && s.turns == map[]
    requires entries == TASKS[20 := Lease(RunOf(2), TTL)]
    ensures Step(CAP, s, Poll(20, 2)) == AtZero(entries, map[], map[2 := 1], 1)
  {
    ServedAlone(s, 20, Registered(s, 20, 2), entries);
  }

  lemma FirstIsReleased(entries: Table)
    requires entries == TASKS[20 := Lease(RunOf(2), TTL)]
    ensures Step(CAP, AtZero(entries, map[], map[2 := 1], 1), Release(20)) == AtZero(TASKS, map[], map[2 := 1], 1)
  {
    assert entries - {20} == TASKS;
  }

  lemma AfterFirstTurn()
    ensures After(CAP, HIRED, [Poll(20, 2), Release(20)]) == AtZero(TASKS, map[], map[2 := 1], 1)
  {
    var entries := TASKS[20 := Lease(RunOf(2), TTL)];
    HiredAreFree();
    FirstIsServed(HIRED, entries);
    FirstIsReleased(entries);
    AfterTwo(HIRED, Poll(20, 2), AtZero(entries, map[], map[2 := 1], 1), Release(20),
             AtZero(TASKS, map[], map[2 := 1], 1));
  }

  lemma AfterSecondTurn()
    ensures After(CAP, AtZero(TASKS, map[], map[2 := 1], 1), [Poll(21, 2), Poll(22, 2)])
         == AtZero(Leases(0), map[22 := Request(2, TTL)], map[2 := 2], 2)
  {
    var s := AtZero(TASKS, map[], map[2 := 1], 1);
    ServedAlone(s, 21, Registered(s, 21, 2), Leases(0));
    SecondQueuesUp();
    AfterTwo(AtZero(TASKS, map[], map[2 := 1], 1), Poll(21, 2), AtZero(Leases(0), map[], map[2 := 2], 2),
             Poll(22, 2), AtZero(Leases(0), map[22 := Request(2, TTL)], map[2 := 2], 2));
  }

  // ---- Two rounds of renewing and polling ----------------------------------------------------------

  function Round(t: int): seq<Op> {
    [Advance(t), RenewLease(1), RenewLease(2), RenewLease(21)] + POLLS
  }

  const POLLS: seq<Op> := [Poll(22, 2), Poll(11, 1)]

  /** In the middle of a round: leases renewed, one waiting stage polled. */
  function Renewed(t0: int, t: int): State {
    Busy(t0).(now := t, leases := Leases(t), leasesDie := t + 2 * TTL)
  }

  function HalfPolled(t0: int, t: int): State {
    Renewed(t0, t).(requests := map[22 := Request(2, t + TTL), 11 := Request(1, t0 + TTL)],
                    requestsDie := t + 2 * TTL, turnsDie := t + 2 * TTL)
  }

  lemma LeasesAreRenewed(t0: int, t: int)
    requires t0 < t < t0 + TTL && t <= 2 * TTL
    ensures Renew(Renew(Renew(Tick(Busy(t0), t), 1), 2), 21) == Renewed(t0, t)
  {
    var s0 := Tick(Busy(t0), t);
    assert s0 == Busy(t0).(now := t);
    var s1 := Renew(s0, 1);
    var s2 := Renew(s1, 2);
    assert Renew(s2, 21).leases == Leases(t);
  }

  lemma PollsRegister(t0: int, t: int)
    ensures Registered(Renewed(t0, t), 22, 2) == HalfPolled(t0, t)
    ensures Registered(HalfPolled(t0, t), 11, 1) == Busy(t)
  {
  }

  /** Both are alive and both wait, before and after the first poll of a round. */
  lemma StillWaiting(t0: int, t: int)
    requires t0 < t < t0 + TTL
    ensures Lively(Renewed(t0, t), {1, 2}, {21}) && Lively(HalfPolled(t0, t), {1, 2}, {21})
    ensures {1, 2} <= Waiting(HalfPolled(t0, t).requests) && {1, 2} <= Waiting(Busy(t).requests)
  {
    BothRunOn(Renewed(t0, t));
    BothRunOn(HalfPolled(t0, t));
    BothWait(HalfPolled(t0, t).requests);
    BothWait(Busy(t).requests);
  }

  lemma SecondPolls(t0: int, t: int)
    requires t0 < t < t0 + TTL
    ensures Step(CAP, Renewed(t0, t), Poll(22, 2)) == HalfPolled(t0, t)
  {
    PollsRegister(t0, t);
    StillWaiting(t0, t);
    PollIsRefused(Renewed(t0, t), {1, 2}, {21}, 22, 2, HalfPolled(t0, t));
  }

  lemma BothWait(requests: map<Token, Request>)
    requires 22 in requests && requests[22].parent == 2 && 11 in requests && requests[11].parent == 1
    ensures {1, 2} <= Waiting(requests)
  {
  }

  lemma FirstPolls(t0: int, t: int)
    requires t0 < t < t0 + TTL
    ensures Step(CAP, HalfPolled(t0, t), Poll(11, 1)) == Busy(t)
  {
    PollsRegister(t0, t);
    StillWaiting(t0, t);
    PollIsRefused(HalfPolled(t0, t), {1, 2}, {21}, 11, 1, Busy(t));
  }

  lemma AfterRenewals(t0: int, t: int)
    requires t0 < t < t0 + TTL && t <= 2 * TTL
    ensures After(CAP, Busy(t0), [Advance(t), RenewLease(1), RenewLease(2), RenewLease(21)]) == Renewed(t0, t)
  {
    var s1 := Tick(Busy(t0), t);
    var s2 := Renew(s1, 1);
    var s3 := Renew(s2, 2);
    LeasesAreRenewed(t0, t);
    Chain([Busy(t0), s1, s2, s3, Renewed(t0, t)], [Advance(t), RenewLease(1), RenewLease(2), RenewLease(21)]);
  }

  lemma RoundKeepsBusy(t0: int, t: int)
    requires t0 < t < t0 + TTL && t <= 2 * TTL
    ensures After(CAP, Busy(t0), Round(t)) == Busy(t)
  {
    AfterBoth(Busy(t0), [Advance(t), RenewLease(1), RenewLease(2), RenewLease(21)], POLLS);
    AfterRenewals(t0, t);
    SecondPolls(t0, t);
    FirstPolls(t0, t);
    AfterTwo(Renewed(t0, t), Poll(22, 2), HalfPolled(t0, t), Poll(11, 1), Busy(t));
  }

  // ---- The counter is gone -----------------------------------------------------------------------

  const NOW := 2 * TTL + 1
  const LAST := 100_000

  const OLD: Table := map[1 := Lease(TASK, LAST + TTL), 2 := Lease(TASK, LAST + TTL)]

  function Expired(): State {
    Busy(LAST).(now := NOW, sequence := 0)
  }

  function Vacated(): State {
    Expired().(leases := OLD)
  }

  /** After `n` turns of parent 1 from a counter that began again. */
  function Served(n: nat, leases: Table): State {
    State(NOW, leases, map[22 := Request(2, LAST + TTL)], map[2 := 2, 1 := n], n, map[],
          NOW + 2 * TTL, NOW + 2 * TTL, NOW + 2 * TTL, NOW + 2 * TTL)
  }

  const ENDING: seq<Op> := [Release(21), Poll(11, 1), Release(11), Poll(12, 1)]

  lemma OnlyTasksAreLeft(s: State)
    requires s.leases == OLD && s.now == NOW && s.rss == map[]
    requires forall r :: r in s.requests ==> s.requests[r].expires > s.now && s.requests[r].parent in {1, 2}
    ensures Lively(s, {1, 2}, {})
  {
  }

  lemma OneWaits(s: State, id: Token, r: State)
    requires id in {11, 12} && s.leases == OLD && s.now == NOW && s.rss == map[] && r == Registered(s, id, 1)
    requires s.requests - {id} == map[22 := Request(2, LAST + TTL)]
    requires id in s.requests ==> s.requests[id] == Request(1, LAST + TTL)
    ensures Lively(s, {1, 2}, {}) && {1, 2} <= Waiting(r.requests)
  {
    assert forall q :: q in s.requests ==> q == id || q in s.requests - {id};
    OnlyTasksAreLeft(s);
    assert 22 in s.requests - {id};
    assert r.requests[22].parent == 2 && r.requests[id].parent == 1;
  }

  /** Parent 1 is before parent 2, whose score is from the old counter, and takes its turn. */
  lemma TakesItsTurn(s: State, n: nat, id: Token, r: State, entries: Table)
    requires n <= 1 && id in {11, 12} && s.leases == OLD && s.now == NOW && s.rss == map[] && s.sequence == n
    requires s.turns == map[2 := 2, 1 := n]
    requires s.requests - {id} == map[22 := Request(2, LAST + TTL)]
    requires id in s.requests ==> s.requests[id] == Request(1, LAST + TTL)
    requires r == Registered(s, id, 1) && entries == OLD[id := Lease(RunOf(1), NOW + TTL)]
    ensures Step(CAP, s, Poll(id, 1)) == Store(TakeTurn(r, 1), id, RunOf(1), entries)
  {
    OneWaits(s, id, r);
    PollIsServed(s, {1, 2}, id, 1, r, entries);
  }

  lemma TurnIsRecorded(s: State, n: nat, id: Token, entries: Table)
    requires id in {11, 12} && s.now == NOW && s.rss == map[] && s.sequence == n && s.turns == map[2 := 2, 1 := n]
    requires s.requests - {id} == map[22 := Request(2, LAST + TTL)]
    ensures Store(TakeTurn(Registered(s, id, 1), 1), id, RunOf(1), entries) == Served(n + 1, entries)
  {
    var requests := Registered(s, id, 1).requests - {id};
    assert requests == s.requests - {id};
    assert map[2 := 2, 1 := n][1 := n + 1] == map[2 := 2, 1 := n + 1];
  }

  lemma GoesOnce()
    ensures Step(CAP, Vacated(), Poll(11, 1)) == Served(1, OLD[11 := Lease(RunOf(1), NOW + TTL)])
  {
    var entries := OLD[11 := Lease(RunOf(1), NOW + TTL)];
    assert Vacated().requests - {11} == map[22 := Request(2, LAST + TTL)];
    TakesItsTurn(Vacated(), 0, 11, Registered(Vacated(), 11, 1), entries);
    TurnIsRecorded(Vacated(), 0, 11, entries);
  }

  lemma GoesTwice()
    ensures Step(CAP, Served(1, OLD), Poll(12, 1)) == Served(2, OLD[12 := Lease(RunOf(1), NOW + TTL)])
  {
    var entries := OLD[12 := Lease(RunOf(1), NOW + TTL)];
    assert Served(1, OLD).requests - {12} == map[22 := Request(2, LAST + TTL)];
    TakesItsTurn(Served(1, OLD), 1, 12, Registered(Served(1, OLD), 12, 1), entries);
    TurnIsRecorded(Served(1, OLD), 1, 12, entries);
  }

  /** Everything before the counter expires, and the passing of the time it expires in. */
  const BEFORE: seq<Op> := SETUP + (Round(50_000) + (Round(LAST) + [Advance(NOW)]))

  lemma CounterExpires()
    ensures Step(CAP, Busy(LAST), Advance(NOW)) == Expired()
  {
  }

  /** The counter began again although the turn set did not: parent 2 holds a score above it. */
  lemma CounterRestartsBelowScore()
    ensures var s := After(CAP, Initial(0), BEFORE);
            s == Expired() && 2 in s.turns && s.turns[2] > s.sequence && !ScoresBounded(s)
  {
    SetUp();
    RoundKeepsBusy(0, 50_000);
    RoundKeepsBusy(50_000, LAST);
    CounterExpires();
    AfterOne(Busy(LAST), Advance(NOW), Expired());
    AfterFour(Initial(0), SETUP, Busy(0), Round(50_000), Busy(50_000), Round(LAST), Busy(LAST), [Advance(NOW)],
              Expired());
  }

  /** How many turns one step uses for `p`. */
  function Used(s: State, op: Op, s': State, p: Token): nat {
    if op.TryAcquire? && op.demand.Stage? && op.demand.parent == p && s'.sequence > s.sequence then 1 else 0
  }

  lemma TurnsUnfold(cap: Capacities, s: State, ops: seq<Op>, s': State, p: Token)
    requires ops != [] && Step(cap, s, ops[0]) == s'
    ensures Turns(cap, s, ops, p) == Used(s, ops[0], s', p) + Turns(cap, s', ops[1..], p)
  {
  }

  lemma SteadyUnfolds(cap: Capacities, s: State, ops: seq<Op>, s': State, members: set<Token>)
    requires ops != [] && Step(cap, s, ops[0]) == s' && s'.sequence >= s.sequence && members <= s.turns.Keys
    requires Steady(cap, s', ops[1..], members)
    ensures Steady(cap, s, ops, members)
  {
  }

  lemma FourSteps(cap: Capacities, s0: State, a: Op, s1: State, b: Op, s2: State, c: Op, s3: State, d: Op,
                  s4: State, p: Token)
    requires Step(cap, s0, a) == s1 && Step(cap, s1, b) == s2 && Step(cap, s2, c) == s3 && Step(cap, s3, d) == s4
    ensures Turns(cap, s0, [a, b, c, d], p)
         == Used(s0, a, s1, p) + Used(s1, b, s2, p) + Used(s2, c, s3, p) + Used(s3, d, s4, p)
  {
    assert [a, b, c, d][1..] == [b, c, d] && [b, c, d][1..] == [c, d] && [c, d][1..] == [d] && [d][1..] == [];
    TurnsUnfold(cap, s0, [a, b, c, d], s1, p);
    TurnsUnfold(cap, s1, [b, c, d], s2, p);
    TurnsUnfold(cap, s2, [c, d], s3, p);
    TurnsUnfold(cap, s3, [d], s4, p);
    assert Turns(cap, s4, [], p) == 0;
  }

  lemma SteadyForFour(cap: Capacities, s0: State, a: Op, s1: State, b: Op, s2: State, c: Op, s3: State, d: Op,
                      s4: State, members: set<Token>)
    requires Step(cap, s0, a) == s1 && Step(cap, s1, b) == s2 && Step(cap, s2, c) == s3 && Step(cap, s3, d) == s4
    requires s0.sequence <= s1.sequence <= s2.sequence <= s3.sequence <= s4.sequence
    requires members <= s0.turns.Keys && members <= s1.turns.Keys && members <= s2.turns.Keys
    requires members <= s3.turns.Keys && members <= s4.turns.Keys
    ensures Steady(cap, s0, [a, b, c, d], members)
  {
    assert [a, b, c, d][1..] == [b, c, d] && [b, c, d][1..] == [c, d] && [c, d][1..] == [d] && [d][1..] == [];
    assert Steady(cap, s4, [], members);
    SteadyUnfolds(cap, s3, [d], s4, members);
    SteadyUnfolds(cap, s2, [c, d], s3, members);
    SteadyUnfolds(cap, s1, [b, c, d], s2, members);
    SteadyUnfolds(cap, s0, [a, b, c, d], s1, members);
  }

  lemma SlotsAreReleased(entries: Table)
    requires entries == OLD[11 := Lease(RunOf(1), NOW + TTL)]
    ensures Step(CAP, Expired(), Release(21)) == Vacated()
    ensures Step(CAP, Served(1, entries), Release(11)) == Served(1, OLD)
  {
    assert entries - {11} == OLD && Leases(LAST) - {21} == OLD;
  }

  lemma TwiceFromExpired()
    ensures Steady(CAP, Expired(), ENDING, {1, 2})
    ensures Turns(CAP, Expired(), ENDING, 1) == 2 && Turns(CAP, Expired(), ENDING, 2) == 0
  {
    var entries := OLD[11 := Lease(RunOf(1), NOW + TTL)];
    GoesOnce();
    GoesTwice();
    SlotsAreReleased(entries);
    var last := Served(2, OLD[12 := Lease(RunOf(1), NOW + TTL)]);
    var (s1, s2, s3) := (Vacated(), Served(1, entries), Served(1, OLD));
    FourSteps(CAP, Expired(), Release(21), s1, Poll(11, 1), s2, Release(11), s3, Poll(12, 1), last, 1);
    FourSteps(CAP, Expired(), Release(21), s1, Poll(11, 1), s2, Release(11), s3, Poll(12, 1), last, 2);
    SteadyForFour(CAP, Expired(), Release(21), s1, Poll(11, 1), s2, Release(11), s3, Poll(12, 1), last, {1, 2});
  }

  /** Alternation fails on a run of the code: from a reachable state, with both parents in the turn
      set throughout and no further expiry, parent 1 has two turns and parent 2 none. */
  lemma ParentGoesTwice()
    ensures var s := After(CAP, Initial(0), BEFORE);
            && Steady(CAP, s, ENDING, {1, 2})
            && Turns(CAP, s, ENDING, 1) == 2 && Turns(CAP, s, ENDING, 2) == 0
  {
    CounterRestartsBelowScore();
    TwiceFromExpired();
  }
}
