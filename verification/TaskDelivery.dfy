/** Every command of every worker, interleaved in any order with crashes and the sweeper: where a
    message can be. */
module TaskDelivery {
  import opened PriorityRotation
  import opened TaskQueues

  /** What a worker's task is in the middle of. A crash forgets it. */
  datatype Phase =
    | Idle
    | Holding(level: Level, m: Message)      // pulled, in processing
    | Burying(level: Level, m: Message, pushed: bool)   // malformed, dead-letter push sent
    | Delivered(level: Level, m: Message)    // result push confirmed

  /** `dropped` are the messages removed from processing although the push to the dead list that
      came before had not taken effect. */
  datatype World = World(
    pool: Pool,
    results: multiset<(Level, Message)>,
    enqueued: multiset<(Level, Message)>,
    workers: map<nat, Phase>,
    dropped: multiset<(Level, Message)>)

  datatype Op =
    | Enqueue(level: Level, m: Message)
    | Pull(worker: nat, level: Level)
    | BuryDead(worker: nat, pushed: bool)       // LPUSH dead, perhaps without effect
    | ForgetDead(worker: nat, removed: bool)    // LREM processing, perhaps without effect
    | RequeueHeld(worker: nat)       // requeue script
    | RetryHeld(worker: nat)         // platform-error retry script
    | Push(worker: nat, confirmed: bool)
    | Acknowledge(worker: nat, removed: bool)   // LREM processing, perhaps without effect
    | Crash(worker: nat)
    | Sweep(level: Level, m: Message)

  function PhaseOf(w: World, worker: nat): Phase {
    if worker in w.workers then w.workers[worker] else Idle
  }

  function Put(w: World, level: Level, l: Lists): World {
    w.(pool := w.pool[level := l])
  }

  function Step(w: World, op: Op): World {
    match op
    case Enqueue(level, m) =>
      Put(w, level, w.pool[level].(queue := [m] + w.pool[level].queue)).(enqueued := w.enqueued + multiset{(level, m)})
    case Pull(k, level) =>
      var l := w.pool[level];
      if !PhaseOf(w, k).Idle? || l.queue == [] then w
      else Put(w, level, Take(l)).(workers := w.workers[k := Holding(level, l.queue[|l.queue| - 1])])
    case BuryDead(k, pushed) =>
      var p := PhaseOf(w, k);
      if !p.Holding? || p.m.valid then w
      else (if pushed then Put(w, p.level, Bury(w.pool[p.level], p.m)) else w)
           .(workers := w.workers[k := Burying(p.level, p.m, pushed)])
    case ForgetDead(k, removed) =>
      var p := PhaseOf(w, k);
      if !p.Burying? then w
      else if !removed then w.(workers := w.workers[k := Idle])
      else Put(w, p.level, Forget(w.pool[p.level], p.m))
           .(workers := w.workers[k := Idle],
             dropped := if p.pushed then w.dropped else w.dropped + multiset{(p.level, p.m)})
    case RequeueHeld(k) =>
      var p := PhaseOf(w, k);
      if !p.Holding? || !p.m.valid then w
      else Put(w, p.level, Requeue(w.pool[p.level], p.m)).(workers := w.workers[k := Idle])
    case RetryHeld(k) =>
      var p := PhaseOf(w, k);
      if !p.Holding? || !p.m.valid then w
      else Put(w, p.level, Retry(w.pool[p.level], p.m)).(workers := w.workers[k := Idle])
    case Push(k, confirmed) =>
      var p := PhaseOf(w, k);
      if !p.Holding? || !p.m.valid then w
      else w.(results := w.results + multiset{(p.level, p.m)},
              workers := if confirmed then w.workers[k := Delivered(p.level, p.m)] else w.workers)
    case Acknowledge(k, removed) =>
      var p := PhaseOf(w, k);
      if !p.Delivered? then w
      else if !removed then w.(workers := w.workers[k := Idle])
      else Put(w, p.level, Forget(w.pool[p.level], p.m)).(workers := w.workers[k := Idle])
    case Crash(k) => w.(workers := w.workers - {k})
    case Sweep(level, m) => Put(w, level, Requeue(w.pool[level], m))
  }

  function After(w: World, ops: seq<Op>): World
    decreases |ops|
  {
    if ops == [] then w else After(Step(w, ops[0]), ops[1..])
  }

  function Initial(): World {
    World([Lists([], [], []), Lists([], [], []), Lists([], [], [])], multiset{}, multiset{}, map[], multiset{})
  }

  /** Where an enqueued message must be. */
  predicate Safe(w: World, level: Level, m: Message) {
    Listed(w.pool[level], m) || (level, m) in w.results
  }

  /** Nothing is lost but what a refused dead-letter push drops. */
  ghost predicate Kept(w: World) {
    && (forall e :: e in w.enqueued ==> Safe(w, e.0, e.1) || e in w.dropped)
    && (forall e :: e in w.dropped ==> !e.1.valid)
  }

  /** Whoever holds a message holds an enqueued one, and has put it where it belongs before it goes
      about to remove it. */
  ghost predicate HandIsClean(w: World, p: Phase) {
    && (!p.Idle? ==> (p.level, p.m) in w.enqueued)
    && (p.Burying? ==> !p.m.valid && (p.pushed ==> p.m in w.pool[p.level].dead))
    && (p.Delivered? ==> (p.level, p.m) in w.results)
  }

  /** Nothing is invented: lists and results hold enqueued messages only. */
  ghost predicate Genuine(w: World) {
    && (forall level: Level, m :: Listed(w.pool[level], m) ==> (level, m) in w.enqueued)
    && (forall e :: e in w.results ==> e.1.valid && e in w.enqueued)
  }

  ghost predicate Sound(w: World) {
    Kept(w) && Genuine(w) && forall k :: k in w.workers ==> HandIsClean(w, w.workers[k])
  }

  // ---- Effects of the list commands on membership ----------------------------------------------

  lemma {:induction false} RemoveOneMembers(list: seq<Message>, m: Message)
    ensures forall x :: x in RemoveOne(list, m) ==> x in list
    ensures forall x :: x in list && x != m ==> x in RemoveOne(list, m)
    decreases |list|
  {
    if list != [] {
      RemoveOneMembers(list[1..], m);
      assert forall x :: x in list <==> x == list[0] || x in list[1..];
    }
  }

  lemma {:induction false} RemoveAllMembers(list: seq<Message>, m: Message)
    ensures forall x :: x in RemoveAll(list, m) <==> x in list && x != m
    decreases |list|
  {
    if list != [] {
      RemoveAllMembers(list[1..], m);
      assert forall x :: x in list <==> x == list[0] || x in list[1..];
    }
  }

  /** Moves keep every message listed and list no new one. */
  ghost predicate SameListed(a: Lists, b: Lists) {
    && (forall x :: Listed(a, x) <==> Listed(b, x))
    && (forall x :: x in a.dead ==> x in b.dead)
  }

  lemma TakeMoves(l: Lists)
    requires l.queue != []
    ensures SameListed(l, Take(l))
  {
    var m := l.queue[|l.queue| - 1];
    assert l.queue == l.queue[..|l.queue| - 1] + [m];
  }

  lemma RequeueMoves(l: Lists, m: Message)
    ensures SameListed(l, Requeue(l, m)) && SameListed(l, Retry(l, m))
  {
    RemoveOneMembers(l.processing, m);
    RemoveAllMembers(l.processing, m);
  }

  /** Only the forgotten message itself can cease to be listed. */
  lemma ForgetMembers(l: Lists, m: Message)
    ensures Forget(l, m).dead == l.dead
    ensures forall x :: Listed(Forget(l, m), x) ==> Listed(l, x)
    ensures forall x :: Listed(l, x) && x != m ==> Listed(Forget(l, m), x)
  {
    RemoveOneMembers(l.processing, m);
  }

  // ---- Nothing is lost -----------------------------------------------------------------------------

  /** New lists for one level that keep what was listed, and list nothing but enqueued messages. */
  lemma ListsAreSound(w: World, level: Level, l: Lists)
    requires Sound(w)
    requires forall x :: Listed(w.pool[level], x) ==> Listed(l, x)
    requires forall x :: Listed(l, x) ==> Listed(w.pool[level], x) || (level, x) in w.enqueued
    requires forall x :: x in w.pool[level].dead ==> x in l.dead
    ensures Sound(Put(w, level, l))
  {
    var w' := Put(w, level, l);
    forall e | e in w'.enqueued ensures Safe(w', e.0, e.1) || e in w'.dropped {
      assert Safe(w, e.0, e.1) || e in w.dropped;
    }
  }

  lemma HandsAreSound(w: World, k: nat, p: Phase)
    requires Sound(w) && HandIsClean(w, p)
    ensures Sound(w.(workers := w.workers[k := p]))
  {
    var w' := w.(workers := w.workers[k := p]);
    forall e | e in w'.enqueued ensures Safe(w', e.0, e.1) || e in w'.dropped {
      assert Safe(w, e.0, e.1) || e in w.dropped;
    }
  }

  lemma EnqueueKeeps(w: World, level: Level, m: Message)
    requires Sound(w)
    ensures Kept(Step(w, Enqueue(level, m)))
  {
    var w' := Step(w, Enqueue(level, m));
    forall e | e in w'.enqueued ensures Safe(w', e.0, e.1) || e in w'.dropped {
      assert e in w.enqueued ==> Safe(w, e.0, e.1) || e in w.dropped;
    }
  }

  lemma EnqueueIsGenuine(w: World, level: Level, m: Message)
    requires Sound(w)
    ensures Genuine(Step(w, Enqueue(level, m)))
  {
  }

  lemma EnqueueIsSound(w: World, level: Level, m: Message)
    requires Sound(w)
    ensures Sound(Step(w, Enqueue(level, m)))
  {
    EnqueueKeeps(w, level, m);
    EnqueueIsGenuine(w, level, m);
    var w' := Step(w, Enqueue(level, m));
    forall k | k in w'.workers ensures HandIsClean(w', w'.workers[k]) {
      assert HandIsClean(w, w.workers[k]);
    }
  }

  lemma PullIsSound(w: World, k: nat, level: Level)
    requires Sound(w)
    ensures Sound(Step(w, Pull(k, level)))
  {
    var l := w.pool[level];
    if PhaseOf(w, k).Idle? && l.queue != [] {
      var m := l.queue[|l.queue| - 1];
      assert Listed(l, m);
      TakeMoves(l);
      ListsAreSound(w, level, Take(l));
      HandsAreSound(Put(w, level, Take(l)), k, Holding(level, m));
    }
  }

  lemma BuryIsSound(w: World, k: nat, pushed: bool)
    requires Sound(w)
    ensures Sound(Step(w, BuryDead(k, pushed)))
  {
    var p := PhaseOf(w, k);
    if p.Holding? && !p.m.valid {
      if pushed {
        ListsAreSound(w, p.level, Bury(w.pool[p.level], p.m));
        HandsAreSound(Put(w, p.level, Bury(w.pool[p.level], p.m)), k, Burying(p.level, p.m, true));
      } else {
        HandsAreSound(w, k, Burying(p.level, p.m, false));
      }
    }
  }

  lemma RequeueIsSound(w: World, k: nat)
    requires Sound(w)
    ensures Sound(Step(w, RequeueHeld(k))) && Sound(Step(w, RetryHeld(k)))
  {
    var p := PhaseOf(w, k);
    if p.Holding? && p.m.valid {
      var l := w.pool[p.level];
      RequeueMoves(l, p.m);
      ListsAreSound(w, p.level, Requeue(l, p.m));
      HandsAreSound(Put(w, p.level, Requeue(l, p.m)), k, Idle);
      ListsAreSound(w, p.level, Retry(l, p.m));
      HandsAreSound(Put(w, p.level, Retry(l, p.m)), k, Idle);
    }
  }

  lemma DropIsSound(w: World, level: Level, m: Message)
    requires Sound(w) && !m.valid
    ensures Sound(w.(dropped := w.dropped + multiset{(level, m)}))
  {
    var w' := w.(dropped := w.dropped + multiset{(level, m)});
    forall e | e in w'.enqueued ensures Safe(w', e.0, e.1) || e in w'.dropped {
      assert Safe(w, e.0, e.1) || e in w.dropped;
    }
    forall k | k in w'.workers ensures HandIsClean(w', w'.workers[k]) {
      assert HandIsClean(w, w.workers[k]);
    }
  }

  /** A message may leave processing once it is dead-lettered or its result is recorded; one
      removed without either is on record as dropped. */
  lemma ForgetIsSound(w: World, level: Level, m: Message)
    requires Sound(w) && (m in w.pool[level].dead || (level, m) in w.results || (level, m) in w.dropped)
    ensures Sound(Put(w, level, Forget(w.pool[level], m)))
  {
    ForgetMembers(w.pool[level], m);
    var w' := Put(w, level, Forget(w.pool[level], m));
    forall e | e in w'.enqueued ensures Safe(w', e.0, e.1) || e in w'.dropped {
      assert Safe(w, e.0, e.1) || e in w.dropped;
    }
    forall k | k in w'.workers ensures HandIsClean(w', w'.workers[k]) {
      assert HandIsClean(w, w.workers[k]);
    }
  }

  lemma ForgetDeadIsSound(w: World, k: nat, removed: bool)
    requires Sound(w)
    ensures Sound(Step(w, ForgetDead(k, removed)))
  {
    var p := PhaseOf(w, k);
    if p.Burying? {
      if removed {
        var w1 := if p.pushed then w else w.(dropped := w.dropped + multiset{(p.level, p.m)});
        if !p.pushed { DropIsSound(w, p.level, p.m); }
        ForgetIsSound(w1, p.level, p.m);
        HandsAreSound(Put(w1, p.level, Forget(w1.pool[p.level], p.m)), k, Idle);
      } else {
        HandsAreSound(w, k, Idle);
      }
    }
  }

  lemma AcknowledgeIsSound(w: World, k: nat, removed: bool)
    requires Sound(w)
    ensures Sound(Step(w, Acknowledge(k, removed)))
  {
    var p := PhaseOf(w, k);
    if p.Delivered? {
      if removed {
        ForgetIsSound(w, p.level, p.m);
        HandsAreSound(Put(w, p.level, Forget(w.pool[p.level], p.m)), k, Idle);
      } else {
        HandsAreSound(w, k, Idle);
      }
    }
  }

  lemma ResultIsSound(w: World, level: Level, m: Message)
    requires Sound(w) && m.valid && (level, m) in w.enqueued
    ensures Sound(w.(results := w.results + multiset{(level, m)}))
  {
    var w' := w.(results := w.results + multiset{(level, m)});
    forall e | e in w'.enqueued ensures Safe(w', e.0, e.1) || e in w'.dropped {
      assert Safe(w, e.0, e.1) || e in w.dropped;
    }
    forall k | k in w'.workers ensures HandIsClean(w', w'.workers[k]) {
      assert HandIsClean(w, w.workers[k]);
    }
  }

  lemma PushIsSound(w: World, k: nat, confirmed: bool)
    requires Sound(w)
    ensures Sound(Step(w, Push(k, confirmed)))
  {
    var p := PhaseOf(w, k);
    if p.Holding? && p.m.valid {
      ResultIsSound(w, p.level, p.m);
      if confirmed {
        HandsAreSound(w.(results := w.results + multiset{(p.level, p.m)}), k, Delivered(p.level, p.m));
      }
    }
  }

  lemma CrashIsSound(w: World, k: nat)
    requires Sound(w)
    ensures Sound(Step(w, Crash(k)))
  {
    var w' := Step(w, Crash(k));
    forall e | e in w'.enqueued ensures Safe(w', e.0, e.1) || e in w'.dropped {
      assert Safe(w, e.0, e.1) || e in w.dropped;
    }
  }

  lemma StepIsSound(w: World, op: Op)
    requires Sound(w)
    ensures Sound(Step(w, op))
  {
    match op
    case Enqueue(level, m) => EnqueueIsSound(w, level, m);
    case Pull(k, level) => PullIsSound(w, k, level);
    case BuryDead(k, pushed) => BuryIsSound(w, k, pushed);
    case ForgetDead(k, removed) => ForgetDeadIsSound(w, k, removed);
    case RequeueHeld(k) => RequeueIsSound(w, k);
    case RetryHeld(k) => RequeueIsSound(w, k);
    case Push(k, confirmed) => PushIsSound(w, k, confirmed);
    case Acknowledge(k, removed) => AcknowledgeIsSound(w, k, removed);
    case Crash(k) => CrashIsSound(w, k);
    case Sweep(level, m) =>
      RequeueMoves(w.pool[level], m);
      ListsAreSound(w, level, Requeue(w.pool[level], m));
  }

  lemma {:induction false} RunIsSound(w: World, ops: seq<Op>)
    requires Sound(w)
    ensures Sound(After(w, ops))
    decreases |ops|
  {
    if ops != [] {
      StepIsSound(w, ops[0]);
      RunIsSound(Step(w, ops[0]), ops[1..]);
    }
  }

  lemma {:induction false} EnqueuedStays(w: World, ops: seq<Op>, e: (Level, Message))
    requires e in w.enqueued
    ensures e in After(w, ops).enqueued
    decreases |ops|
  {
    if ops != [] {
      EnqueuedStays(Step(w, ops[0]), ops[1..], e);
    }
  }

  /** What soundness says about one enqueued message. */
  lemma SoundKeeps(w: World, e: (Level, Message))
    requires Sound(w) && e in w.enqueued
    ensures Safe(w, e.0, e.1) || (!e.1.valid && e in w.dropped)
  {
  }

  /** No task is lost, and none changes its priority: after any further run a well-formed message
      enqueued at some level is on that level's queue, processing or dead list, or its result is
      recorded; so is a malformed one, unless it was dropped. Results exist only for well-formed
      messages that were enqueued. */
  lemma NoTaskIsLost(before: seq<Op>, level: Level, m: Message, later: seq<Op>)
    ensures var w := After(Step(After(Initial(), before), Enqueue(level, m)), later);
            && (Safe(w, level, m) || (!m.valid && (level, m) in w.dropped))
            && Genuine(w)
  {
    var w0 := After(Initial(), before);
    var w1 := Step(w0, Enqueue(level, m));
    RunIsSound(Initial(), before);
    EnqueueIsSound(w0, level, m);
    RunIsSound(w1, later);
    EnqueuedStays(w1, later, (level, m));
    SoundKeeps(After(w1, later), (level, m));
  }

  // ---- Copies --------------------------------------------------------------------------------------

  /** How many copies of a message are on its level's lists. */
  function Copies(l: Lists, m: Message): nat {
    multiset(l.queue)[m] + multiset(l.processing)[m] + multiset(l.dead)[m]
  }

  lemma {:induction false} RemoveOneCounts(list: seq<Message>, m: Message)
    ensures multiset(RemoveOne(list, m)) == multiset(list) - multiset{m}
    decreases |list|
  {
    if list != [] {
      assert list == [list[0]] + list[1..];
      RemoveOneCounts(list[1..], m);
    }
  }

  lemma {:induction false} RemoveAllCounts(list: seq<Message>, m: Message)
    ensures forall x :: multiset(RemoveAll(list, m))[x] == if x == m then 0 else multiset(list)[x]
    decreases |list|
  {
    if list != [] {
      assert list == [list[0]] + list[1..];
      RemoveAllCounts(list[1..], m);
    }
  }

  lemma TakeKeepsCopies(l: Lists, x: Message)
    requires l.queue != []
    ensures Copies(Take(l), x) == Copies(l, x)
  {
    assert l.queue == l.queue[..|l.queue| - 1] + [l.queue[|l.queue| - 1]];
  }

  lemma RequeueKeepsCopies(l: Lists, m: Message, x: Message)
    ensures Copies(Requeue(l, m), x) == Copies(l, x)
  {
    RemoveOneCounts(l.processing, m);
  }

  lemma BuryAddsCopy(l: Lists, m: Message, x: Message)
    ensures Copies(Bury(l, m), x) == Copies(l, x) + if x == m then 1 else 0
  {
  }

  lemma ForgetTakesCopy(l: Lists, m: Message, x: Message)
    ensures Copies(l, x) - (if x == m then 1 else 0) <= Copies(Forget(l, m), x) <= Copies(l, x)
  {
    RemoveOneCounts(l.processing, m);
  }

  /** The platform-error retry keeps the number of copies if and only if at most one is in processing:
      it takes all of them out and puts one back. */
  lemma RetryKeepsCopiesIff(l: Lists, m: Message)
    ensures Copies(Retry(l, m), m) == Copies(l, m) <==> multiset(l.processing)[m] <= 1
  {
    RemoveAllCounts(l.processing, m);
    assert m in l.processing <==> m in multiset(l.processing);
  }

  /** The worker is about to remove a copy that it has put where it belongs. */
  predicate Owes(p: Phase, e: (Level, Message)) {
    ((p.Burying? && p.pushed) || p.Delivered?) && (p.level, p.m) == e
  }

  function Owing(workers: map<nat, Phase>, e: (Level, Message)): set<nat> {
    set k | k in workers && Owes(workers[k], e)
  }

  /** Every copy enqueued is listed, or accounted for by a result or as dropped, and workers that still
      have one to remove have provided for it. */
  ghost predicate Accounted(w: World, e: (Level, Message)) {
    w.enqueued[e] + |Owing(w.workers, e)| <= Copies(w.pool[e.0], e.1) + w.results[e] + w.dropped[e]
  }

  /** Two sets that differ in `k` at most. */
  lemma DifferInOne(before: set<nat>, after: set<nat>, k: nat)
    requires after - {k} == before - {k}
    ensures |after| == |before| - (if k in before then 1 else 0) + (if k in after then 1 else 0)
  {
    assert before == if k in before then before - {k} + {k} else before - {k};
    assert after == if k in after then before - {k} + {k} else before - {k};
  }

  lemma OwingAfter(workers: map<nat, Phase>, k: nat, p: Phase, e: (Level, Message))
    ensures |Owing(workers[k := p], e)|
         == |Owing(workers, e)| - (if k in Owing(workers, e) then 1 else 0) + (if Owes(p, e) then 1 else 0)
  {
    DifferInOne(Owing(workers, e), Owing(workers[k := p], e), k);
  }

  lemma OwingAfterCrash(workers: map<nat, Phase>, k: nat, e: (Level, Message))
    ensures |Owing(workers - {k}, e)| <= |Owing(workers, e)|
  {
    assert Owing(workers - {k}, e) == Owing(workers, e) - {k};
  }

  lemma PutCopies(w: World, level: Level, l: Lists, e: (Level, Message))
    ensures Copies(Put(w, level, l).pool[e.0], e.1) == if e.0 == level then Copies(l, e.1) else Copies(w.pool[e.0], e.1)
  {
  }

  lemma ForgetDeadIsAccounted(w: World, k: nat, removed: bool, e: (Level, Message))
    requires Accounted(w, e)
    ensures Accounted(Step(w, ForgetDead(k, removed)), e)
  {
    var p := PhaseOf(w, k);
    OwingAfter(w.workers, k, Idle, e);
    if p.Burying? {
      ForgetTakesCopy(w.pool[p.level], p.m, e.1);
      PutCopies(w, p.level, Forget(w.pool[p.level], p.m), e);
    }
  }

  lemma AcknowledgeIsAccounted(w: World, k: nat, removed: bool, e: (Level, Message))
    requires Accounted(w, e)
    ensures Accounted(Step(w, Acknowledge(k, removed)), e)
  {
    var p := PhaseOf(w, k);
    OwingAfter(w.workers, k, Idle, e);
    if p.Delivered? {
      ForgetTakesCopy(w.pool[p.level], p.m, e.1);
      PutCopies(w, p.level, Forget(w.pool[p.level], p.m), e);
    }
  }

  lemma BurialIsAccounted(w: World, k: nat, pushed: bool, e: (Level, Message))
    requires Accounted(w, e)
    ensures Accounted(Step(w, BuryDead(k, pushed)), e)
  {
    var p := PhaseOf(w, k);
    if p.Holding? {
      OwingAfter(w.workers, k, Burying(p.level, p.m, pushed), e);
      BuryAddsCopy(w.pool[p.level], p.m, e.1);
      PutCopies(w, p.level, Bury(w.pool[p.level], p.m), e);
    }
  }

  lemma PushIsAccounted(w: World, k: nat, confirmed: bool, e: (Level, Message))
    requires Accounted(w, e)
    ensures Accounted(Step(w, Push(k, confirmed)), e)
  {
    var p := PhaseOf(w, k);
    if p.Holding? {
      OwingAfter(w.workers, k, Delivered(p.level, p.m), e);
    }
  }

  lemma MoveIsAccounted(w: World, level: Level, l: Lists, workers: map<nat, Phase>, e: (Level, Message))
    requires Accounted(w, e) && Copies(l, e.1) == Copies(w.pool[level], e.1)
    requires |Owing(workers, e)| <= |Owing(w.workers, e)|
    ensures Accounted(Put(w, level, l).(workers := workers), e)
  {
    PutCopies(w, level, l, e);
  }

  lemma EnqueueIsAccounted(w: World, level: Level, m: Message, e: (Level, Message))
    requires Accounted(w, e)
    ensures Accounted(Step(w, Enqueue(level, m)), e)
  {
    var l := w.pool[level];
    assert Copies(l.(queue := [m] + l.queue), e.1) == Copies(l, e.1) + if e.1 == m then 1 else 0;
    PutCopies(w, level, l.(queue := [m] + l.queue), e);
  }

  lemma StepIsAccounted(w: World, op: Op, e: (Level, Message))
    requires Accounted(w, e) && !op.RetryHeld?
    ensures Accounted(Step(w, op), e)
  {
    match op
    case Enqueue(level, m) => EnqueueIsAccounted(w, level, m, e);
    case Pull(k, level) =>
      var l := w.pool[level];
      if PhaseOf(w, k).Idle? && l.queue != [] {
        var held := Holding(level, l.queue[|l.queue| - 1]);
        TakeKeepsCopies(l, e.1);
        OwingAfter(w.workers, k, held, e);
        MoveIsAccounted(w, level, Take(l), w.workers[k := held], e);
      }
    case BuryDead(k, pushed) => BurialIsAccounted(w, k, pushed, e);
    case ForgetDead(k, removed) => ForgetDeadIsAccounted(w, k, removed, e);
    case RequeueHeld(k) =>
      var p := PhaseOf(w, k);
      if p.Holding? {
        RequeueKeepsCopies(w.pool[p.level], p.m, e.1);
        OwingAfter(w.workers, k, Idle, e);
        MoveIsAccounted(w, p.level, Requeue(w.pool[p.level], p.m), w.workers[k := Idle], e);
      }
    case Push(k, confirmed) => PushIsAccounted(w, k, confirmed, e);
    case Acknowledge(k, removed) => AcknowledgeIsAccounted(w, k, removed, e);
    case Crash(k) => OwingAfterCrash(w.workers, k, e);
    case Sweep(level, m) =>
      RequeueKeepsCopies(w.pool[level], m, e.1);
      MoveIsAccounted(w, level, Requeue(w.pool[level], m), w.workers, e);
  }

  lemma {:induction false} RunIsAccounted(w: World, ops: seq<Op>, e: (Level, Message))
    requires Accounted(w, e) && forall i :: 0 <= i < |ops| ==> !ops[i].RetryHeld?
    ensures Accounted(After(w, ops), e)
    decreases |ops|
  {
    if ops != [] {
      StepIsAccounted(w, ops[0], e);
      RunIsAccounted(Step(w, ops[0]), ops[1..], e);
    }
  }

  /** Not even one of several equal messages is lost: after any run without the platform-error retry,
      every copy enqueued is still listed, or a result was pushed for it, or it was dropped. */
  lemma NoCopyIsLost(ops: seq<Op>, level: Level, m: Message)
    requires forall i :: 0 <= i < |ops| ==> !ops[i].RetryHeld?
    ensures var w := After(Initial(), ops);
            w.enqueued[(level, m)] <= Copies(w.pool[level], m) + w.results[(level, m)] + w.dropped[(level, m)]
  {
    RunIsAccounted(Initial(), ops, (level, m));
  }

  // ---- What a refused dead-letter push costs -----------------------------------------------------

  /** Every push to a dead list took effect. */
  predicate AllPushed(ops: seq<Op>) {
    forall i :: 0 <= i < |ops| ==> ops[i].BuryDead? ==> ops[i].pushed
  }

  ghost predicate NothingDropped(w: World) {
    w.dropped == multiset{} && forall k :: k in w.workers && w.workers[k].Burying? ==> w.workers[k].pushed
  }

  /** While the pushes to the dead lists take effect, nothing is dropped, whatever else fails. */
  lemma {:induction false} DropsNeedRefusedPush(w: World, ops: seq<Op>)
    requires NothingDropped(w) && AllPushed(ops)
    ensures NothingDropped(After(w, ops))
    decreases |ops|
  {
    if ops != [] {
      assert NothingDropped(Step(w, ops[0]));
      assert AllPushed(ops[1..]);
      DropsNeedRefusedPush(Step(w, ops[0]), ops[1..]);
    }
  }

  /** What the removal does to a malformed message: it is still there if and only if its push took
      effect, or the removal did not, or another copy of it was listed. */
  lemma RemovalKeepsIff(w: World, k: nat, removed: bool)
    requires Sound(w) && PhaseOf(w, k).Burying? && PhaseOf(w, k).m in w.pool[PhaseOf(w, k).level].processing
    ensures var p := PhaseOf(w, k);
            Safe(Step(w, ForgetDead(k, removed)), p.level, p.m)
            <==> p.pushed || !removed || Listed(Forget(w.pool[p.level], p.m), p.m)
  {
    var p := PhaseOf(w, k);
    assert (p.level, p.m) !in w.results;
  }

  /** And it happens: a malformed message whose push is refused and whose removal is not is gone. */
  lemma RefusedPushLosesMessage(level: Level, raw: nat)
    ensures var m := Message(raw, false);
            var w := After(Initial(), [Enqueue(level, m), Pull(0, level), BuryDead(0, false), ForgetDead(0, true)]);
            (level, m) in w.enqueued && !Safe(w, level, m)
  {
    var m := Message(raw, false);
    var ops := [Enqueue(level, m), Pull(0, level), BuryDead(0, false), ForgetDead(0, true)];
    var w1 := Step(Initial(), ops[0]);
    var w2 := Step(w1, ops[1]);
    var w3 := Step(w2, ops[2]);
    assert w1.pool[level] == Lists([m], [], []);
    assert w2.pool[level] == Lists([], [m], []);
    assert PhaseOf(w3, 0) == Burying(level, m, false) && w3.pool[level] == Lists([], [m], []);
    var w4 := Step(w3, ops[3]);
    assert w4.pool[level] == Lists([], [], []);
    assert ops[1..][1..][1..][1..] == [];
    assert After(Initial(), ops) == After(w1, ops[1..]);
    assert After(w1, ops[1..]) == After(w2, ops[1..][1..]);
    assert After(w2, ops[1..][1..]) == After(w3, ops[1..][1..][1..]);
    assert After(w3, ops[1..][1..][1..]) == w4;
  }
}
