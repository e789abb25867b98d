/** Runs in which every command is confirmed and nobody crashes: each message pulled leaves
    processing again, and each copy enqueued is answered exactly once. */
module TaskConservation {
  import opened PriorityRotation
  import opened TaskQueues
  import opened TaskDelivery

  /** Every command takes effect and is confirmed, no worker crashes, nothing is swept, and no task
      is tried again after a platform error. */
  predicate Smooth(op: Op) {
    match op
    case BuryDead(_, pushed) => pushed
    case ForgetDead(_, removed) => removed
    case Push(_, confirmed) => confirmed
    case Acknowledge(_, removed) => removed
    case RetryHeld(_) => false
    case Crash(_) => false
    case Sweep(_, _) => false
    case _ => true
  }

  /** The worker has pulled this message and is not done with it. */
  predicate Has(p: Phase, e: (Level, Message)) {
    !p.Idle? && (p.level, p.m) == e
  }

  function Having(workers: map<nat, Phase>, e: (Level, Message)): set<nat> {
    set k | k in workers && Has(workers[k], e)
  }

  lemma HavingAfter(workers: map<nat, Phase>, k: nat, p: Phase, e: (Level, Message))
    ensures |Having(workers[k := p], e)|
         == |Having(workers, e)| - (if k in Having(workers, e) then 1 else 0) + (if Has(p, e) then 1 else 0)
  {
    DifferInOne(Having(workers, e), Having(workers[k := p], e), k);
  }

  function InProcessing(l: Lists, m: Message): nat {
    multiset(l.processing)[m]
  }

  /** The processing list holds what the workers have in hand, and every copy enqueued is on one
      list or has one result; workers about to remove a copy have provided for it. */
  ghost predicate Balanced(w: World, e: (Level, Message)) {
    && InProcessing(w.pool[e.0], e.1) == |Having(w.workers, e)|
    && w.enqueued[e] + |Owing(w.workers, e)| == Copies(w.pool[e.0], e.1) + w.results[e]
    && (forall k :: k in w.workers ==> HandIsTrue(w.workers[k]))
    && (e.1.valid ==> e.1 !in w.pool[e.0].dead)
    && (!e.1.valid ==> w.results[e] == 0)
  }

  ghost predicate HandIsTrue(p: Phase) {
    && (p.Burying? ==> p.pushed && !p.m.valid)
    && (p.Delivered? ==> p.m.valid)
  }

  /** One worker's step on one level's lists, seen from message `e`. */
  lemma HandStep(w: World, k: nat, p: Phase, level: Level, l: Lists, results: multiset<(Level, Message)>,
                 e: (Level, Message), w': World)
    requires Balanced(w, e) && HandIsTrue(p)
    requires w'.pool == w.pool[level := l] && w'.workers == w.workers[k := p] && w'.results == results
    requires w'.enqueued == w.enqueued
    requires level == e.0 ==>
               && InProcessing(l, e.1) - InProcessing(w.pool[level], e.1)
                  == (if Has(p, e) then 1 else 0) - (if Has(PhaseOf(w, k), e) then 1 else 0)
               && Copies(l, e.1) - Copies(w.pool[level], e.1) + results[e] - w.results[e]
                  == (if Owes(p, e) then 1 else 0) - (if Owes(PhaseOf(w, k), e) then 1 else 0)
    requires if e.1.valid then level == e.0 ==> e.1 !in l.dead else results[e] == 0
    requires level != e.0 ==> results[e] == w.results[e] && !Has(p, e) && !Has(PhaseOf(w, k), e)
    ensures Balanced(w', e)
  {
    HavingAfter(w.workers, k, p, e);
    OwingAfter(w.workers, k, p, e);
  }

  lemma TakeCounts(l: Lists, x: Message)
    requires l.queue != []
    ensures InProcessing(Take(l), x) == InProcessing(l, x) + if x == l.queue[|l.queue| - 1] then 1 else 0
  {
  }

  lemma PullBalances(w: World, k: nat, level: Level, e: (Level, Message))
    requires Balanced(w, e)
    ensures Balanced(Step(w, Pull(k, level)), e)
  {
    var l := w.pool[level];
    if PhaseOf(w, k).Idle? && l.queue != [] {
      TakeCounts(l, e.1);
      TakeKeepsCopies(l, e.1);
      HandStep(w, k, Holding(level, l.queue[|l.queue| - 1]), level, Take(l), w.results, e, Step(w, Pull(k, level)));
    }
  }

  lemma BurialBalances(w: World, k: nat, e: (Level, Message))
    requires Balanced(w, e)
    ensures Balanced(Step(w, BuryDead(k, true)), e)
  {
    var p := PhaseOf(w, k);
    if p.Holding? && !p.m.valid {
      BuryAddsCopy(w.pool[p.level], p.m, e.1);
      HandStep(w, k, Burying(p.level, p.m, true), p.level, Bury(w.pool[p.level], p.m), w.results, e,
               Step(w, BuryDead(k, true)));
    }
  }

  /** Having it in hand, the worker finds its message in processing. */
  lemma HandIsListed(w: World, k: nat, e: (Level, Message))
    requires Balanced(w, e) && Has(PhaseOf(w, k), e)
    ensures InProcessing(w.pool[e.0], e.1) > 0 && e.1 in w.pool[e.0].processing
  {
    assert k in Having(w.workers, e);
  }

  /** Removing a message from processing takes exactly one copy. */
  lemma RemovalCounts(l: Lists, m: Message, x: Message)
    requires x == m ==> InProcessing(l, m) > 0
    ensures InProcessing(Forget(l, m), x) == InProcessing(l, x) - if x == m then 1 else 0
    ensures Copies(Forget(l, m), x) == Copies(l, x) - if x == m then 1 else 0
  {
    RemoveOneCounts(l.processing, m);
  }

  lemma RemovalBalances(w: World, k: nat, e: (Level, Message), w': World)
    requires Balanced(w, e)
    requires var p := PhaseOf(w, k);
             && (p.Burying? || p.Delivered?)
             && w'.pool == w.pool[p.level := Forget(w.pool[p.level], p.m)] && w'.workers == w.workers[k := Idle]
             && w'.results == w.results && w'.enqueued == w.enqueued
    ensures Balanced(w', e)
  {
    var p := PhaseOf(w, k);
    if (p.level, p.m) == e { HandIsListed(w, k, e); }
    if p.level == e.0 { RemovalCounts(w.pool[p.level], p.m, e.1); }
    HandStep(w, k, Idle, p.level, Forget(w.pool[p.level], p.m), w.results, e, w');
  }

  lemma RequeueBalances(w: World, k: nat, e: (Level, Message))
    requires Balanced(w, e)
    ensures Balanced(Step(w, RequeueHeld(k)), e)
  {
    var p := PhaseOf(w, k);
    if p.Holding? && p.m.valid {
      if (p.level, p.m) == e { HandIsListed(w, k, e); }
      RequeueKeepsCopies(w.pool[p.level], p.m, e.1);
      RequeueCounts(w.pool[p.level], p.m, e.1);
      HandStep(w, k, Idle, p.level, Requeue(w.pool[p.level], p.m), w.results, e, Step(w, RequeueHeld(k)));
    }
  }

  lemma RequeueCounts(l: Lists, m: Message, x: Message)
    ensures InProcessing(Requeue(l, m), x)
         == InProcessing(l, x) - if x == m && m in l.processing then 1 else 0
  {
    RemoveOneCounts(l.processing, m);
  }

  lemma PushBalances(w: World, k: nat, e: (Level, Message))
    requires Balanced(w, e)
    ensures Balanced(Step(w, Push(k, true)), e)
  {
    var p := PhaseOf(w, k);
    if p.Holding? && p.m.valid {
      HandStep(w, k, Delivered(p.level, p.m), p.level, w.pool[p.level], w.results + multiset{(p.level, p.m)}, e,
               Step(w, Push(k, true)));
    }
  }

  lemma EnqueueBalances(w: World, level: Level, m: Message, e: (Level, Message))
    requires Balanced(w, e)
    ensures Balanced(Step(w, Enqueue(level, m)), e)
  {
    var l := w.pool[level];
    assert Copies(l.(queue := [m] + l.queue), e.1) == Copies(l, e.1) + if e.1 == m then 1 else 0;
    PutCopies(w, level, l.(queue := [m] + l.queue), e);
  }

  lemma StepBalances(w: World, op: Op, e: (Level, Message))
    requires Balanced(w, e) && Smooth(op)
    ensures Balanced(Step(w, op), e)
  {
    match op
    case Enqueue(level, m) => EnqueueBalances(w, level, m, e);
    case Pull(k, level) => PullBalances(w, k, level, e);
    case BuryDead(k, _) => BurialBalances(w, k, e);
    case ForgetDead(k, _) => if PhaseOf(w, k).Burying? { RemovalBalances(w, k, e, Step(w, op)); }
    case RequeueHeld(k) => RequeueBalances(w, k, e);
    case Push(k, _) => PushBalances(w, k, e);
    case Acknowledge(k, _) => if PhaseOf(w, k).Delivered? { RemovalBalances(w, k, e, Step(w, op)); }
  }

  lemma {:induction false} RunBalances(w: World, ops: seq<Op>, e: (Level, Message))
    requires Balanced(w, e) && forall i :: 0 <= i < |ops| ==> Smooth(ops[i])
    ensures Balanced(After(w, ops), e)
    decreases |ops|
  {
    if ops != [] {
      StepBalances(w, ops[0], e);
      RunBalances(Step(w, ops[0]), ops[1..], e);
    }
  }

  lemma IdleBalance(w: World, e: (Level, Message))
    requires Balanced(w, e) && forall k :: k in w.workers ==> w.workers[k].Idle?
    ensures e.1 !in w.pool[e.0].processing
    ensures var l := w.pool[e.0];
            w.enqueued[e] == multiset(l.queue)[e.1] + if e.1.valid then w.results[e] else multiset(l.dead)[e.1]
  {
    assert Having(w.workers, e) == {} && Owing(w.workers, e) == {};
    assert e.1 in w.pool[e.0].processing <==> e.1 in multiset(w.pool[e.0].processing);
    assert e.1 in w.pool[e.0].dead <==> e.1 in multiset(w.pool[e.0].dead);
  }

  /** Conservation: over any smooth run the processing lists hold exactly what the workers have in
      hand, so that nothing handled stays behind there; and once all workers are idle, each copy
      enqueued is queued, or answered by exactly one result, or dead if it is malformed. */
  lemma EachCopyIsAnsweredOnce(ops: seq<Op>, level: Level, m: Message)
    requires forall i :: 0 <= i < |ops| ==> Smooth(ops[i])
    ensures var w, e := After(Initial(), ops), (level, m);
            var l := w.pool[level];
            && multiset(l.processing)[m] == |Having(w.workers, e)|
            && ((forall k :: k in w.workers ==> w.workers[k].Idle?) ==>
                  && m !in l.processing
                  && w.enqueued[e] == multiset(l.queue)[m] + if m.valid then w.results[e] else multiset(l.dead)[m])
  {
    var w := After(Initial(), ops);
    RunBalances(Initial(), ops, (level, m));
    if forall k :: k in w.workers ==> w.workers[k].Idle? {
      IdleBalance(w, (level, m));
    }
  }

  /** A new task is served after everything that waited at its level before it. */
  lemma EnqueuedIsServedLast(w: World, level: Level, m: Message, n: nat)
    requires n <= |w.pool[level].queue|
    ensures var l, l' := w.pool[level], Step(w, Enqueue(level, m)).pool[level];
            TakeMany(l', n).queue == [m] + l.queue[..|l.queue| - n]
  {
    FrontIsServedLast(w.pool[level], m, Step(w, Enqueue(level, m)).pool[level], n);
  }
}
