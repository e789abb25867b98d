/** What one client's call leaves to the others in the queue, and first in, first out for a waiter
    that does no more than poll often enough. */
module ThrottleWaiters {
  import opened SortedSets
  import opened ProviderThrottle
  import opened ThrottleRuns
  import opened ThrottleFifo
  import opened ThrottleHints
  import opened ProviderSlots

  // ---- The frame of one call -------------------------------------------------------------------

  /** Everybody but `id` that is still queued was queued before, with the heartbeat it has, and
      whoever is gone was stale and has no heartbeat left. */
  ghost predicate OthersKept(s: Server, s': Server, id: nat, stale: nat) {
    forall q :: q != id ==>
      && (q in Ids(s'.queue) ==> q in Ids(s.queue) && Seen(s'.beats, q) == Seen(s.beats, q))
      && (q in Ids(s.queue) && q !in Ids(s'.queue) ==> Stale(s.beats, q, s.now, stale) && q !in s'.beats)
  }

  lemma {:induction false} IdsConcat<T>(xs: seq<Entry<T>>, ys: seq<Entry<T>>)
    ensures Ids(xs + ys) == Ids(xs) + Ids(ys)
    decreases |xs|
  {
    if xs != [] {
      assert (xs + ys)[1..] == xs[1..] + ys;
      IdsConcat(xs[1..], ys);
    } else {
      assert xs + ys == ys;
    }
  }

  lemma {:induction false} DistinctParts<T>(xs: seq<Entry<T>>, m: nat)
    requires DistinctIds(xs) && m <= |xs|
    ensures Ids(xs[..m]) !! Ids(xs[m..]) && Ids(xs) == Ids(xs[..m]) + Ids(xs[m..])
    decreases m
  {
    if m > 0 {
      DistinctParts(xs[1..], m - 1);
      assert xs[..m][1..] == xs[1..][..m - 1] && xs[m..] == xs[1..][m - 1..];
      assert xs[..m][0] == xs[0];
    } else {
      assert xs[0..] == xs && xs[..0] == [];
    }
  }

  lemma {:induction false} StaleIds(xs: seq<Entry<()>>, beats: map<nat, int>, now: int, stale: nat)
    requires forall i :: 0 <= i < |xs| ==> Stale(beats, xs[i].id, now, stale)
    ensures forall q :: q in Ids(xs) ==> Stale(beats, q, now, stale)
    decreases |xs|
  {
    if xs != [] {
      assert forall i :: 0 <= i < |xs| - 1 ==> xs[1..][i] == xs[i + 1];
      StaleIds(xs[1..], beats, now, stale);
    }
  }

  lemma EvictKeepsOthers(j: Server, id: nat, stale: nat)
    requires DistinctIds(j.queue)
    ensures OthersKept(j, Evict(j, id, stale), id, stale)
  {
    var m := StaleAhead(j.queue, j.beats, id, j.now, stale);
    DistinctParts(j.queue, m);
    StaleIds(j.queue[..m], j.beats, j.now, stale);
  }

  lemma JoinBeats(limits: Limits, s: Server, id: nat)
    ensures var j := Join(Prune(limits, s), id);
            j.now == s.now && j.beats == s.beats[id := s.now]
  {
  }

  lemma JoinDistinct(limits: Limits, s: Server, id: nat, q: seq<Entry<()>>)
    requires DistinctIds(s.queue) && q == Join(Prune(limits, s), id).queue
    ensures DistinctIds(q) && Ids(q) == Ids(s.queue) + {id}
  {
    RankInIds(s.queue, id);
    if Rank(s.queue, id) == |s.queue| {
      InsertElements(s.queue, Entry(s.tickets + 1, id, ()));
      InsertDistinct(s.queue, Entry(s.tickets + 1, id, ()));
    }
  }

  lemma ArriveKeepsOthers(limits: Limits, s: Server, id: nat)
    requires QueueOk(s) && DistinctIds(s.queue)
    ensures OthersKept(s, Arrive(limits, s, id), id, limits.stale)
    ensures id in Ids(Arrive(limits, s, id).queue) && DistinctIds(Arrive(limits, s, id).queue)
  {
    var j := Join(Prune(limits, s), id);
    JoinDistinct(limits, s, id, j.queue);
    JoinBeats(limits, s, id);
    EvictKeepsOthers(j, id, limits.stale);
    ArriveIsQueued(limits, s, id);
    RankInIds(Arrive(limits, s, id).queue, id);
    ArriveDistinct(limits, s, id);
  }

  lemma CutIds(xs: seq<Entry<()>>, r: nat)
    requires DistinctIds(xs) && r < |xs|
    ensures Ids(xs[..r] + xs[r + 1..]) == Ids(xs) - {xs[r].id}
  {
    DistinctParts(xs, r);
    DistinctParts(xs, r + 1);
    IdsOfPrefix(xs, r);
    IdsConcat(xs[..r], xs[r + 1..]);
  }

  /** Leaving takes the caller's own place and heartbeat, and nobody else's. */
  lemma LeavingIsExact(s: Server, id: nat)
    requires DistinctIds(s.queue)
    ensures var u := Unqueue(s, id);
            && Ids(u.queue) == Ids(s.queue) - {id} && id !in u.beats
            && (forall q :: q != id ==> (q in u.beats <==> q in s.beats) && Seen(u.beats, q) == Seen(s.beats, q))
  {
    var r := Rank(s.queue, id);
    RankInIds(s.queue, id);
    if r < |s.queue| {
      CutIds(s.queue, r);
    }
  }

  lemma AdmitBeats(a: Server, id: nat, tokens: nat)
    ensures Admit(a, id, tokens).queue == Unqueue(a, id).queue && Admit(a, id, tokens).beats == Unqueue(a, id).beats
  {
  }

  /** After its call the caller either waits with a new heartbeat, or is admitted and gone. */
  ghost predicate CallerKept(s: Server, s': Server, id: nat, reply: Reply) {
    && (reply != Admitted ==> id in Ids(s'.queue) && Seen(s'.beats, id) == s.now)
    && (reply == Admitted ==> id !in Ids(s'.queue) && id !in s'.beats)
  }

  /** The frame of an attempt, admitted or not: of the others, it takes only the stale ones out of
      the queue, and no heartbeat of anybody still queued. */
  lemma AttemptKeepsOthers(limits: Limits, s: Server, id: nat, tokens: nat)
    requires QueueOk(s) && DistinctIds(s.queue)
    ensures var (s', reply) := Acquire(limits, s, id, tokens);
            OthersKept(s, s', id, limits.stale) && CallerKept(s, s', id, reply)
  {
    var a := Arrive(limits, s, id);
    ArriveKeepsOthers(limits, s, id);
    ArriveBeats(limits, s, id);
    LeavingIsExact(a, id);
    AdmitBeats(a, id, tokens);
  }

  // ---- Ranks --------------------------------------------------------------------------------------

  /** Somebody fresh holds an earlier ticket than the caller, who may hold none yet. */
  ghost predicate FreshAhead(s: Server, id: nat, stale: nat) {
    exists i :: 0 <= i < Rank(s.queue, id) && !Stale(s.beats, s.queue[i].id, s.now, stale)
  }

  /** `left` is the queue of `j` without some of its first, all stale. */
  ghost predicate StaleCut(j: Server, left: seq<Entry<()>>, stale: nat) {
    && 0 < |left| <= |j.queue| && left == j.queue[|j.queue| - |left|..]
    && (forall k :: 0 <= k < |j.queue| - |left| ==> Stale(j.beats, j.queue[k].id, j.now, stale))
  }

  lemma ArriveCuts(limits: Limits, s: Server, id: nat, j: Server, left: seq<Entry<()>>)
    requires j == Join(Prune(limits, s), id) && left == Arrive(limits, s, id).queue
    ensures StaleCut(j, left, limits.stale)
  {
    EvictsExactlyTheStalePrefix(limits, s, id);
  }

  lemma FreshStaysAhead(s: Server, j: Server, left: seq<Entry<()>>, id: nat, stale: nat, i: nat)
    requires Joined(s, j, id) && i < Rank(s.queue, id) && !Stale(s.beats, s.queue[i].id, s.now, stale)
    requires StaleCut(j, left, stale)
    ensures left[0].id != id
  {
    var m := |j.queue| - |left|;
    assert j.queue[i] == s.queue[i];
    assert m <= i;
    assert left[0] == j.queue[m] == s.queue[m];
  }

  lemma FreshAheadBlocks(limits: Limits, s: Server, id: nat, j: Server, left: seq<Entry<()>>)
    requires QueueOk(s) && FreshAhead(s, id, limits.stale)
    requires j == Join(Prune(limits, s), id) && left == Arrive(limits, s, id).queue
    ensures left != [] && left[0].id != id
  {
    JoinAppends(limits, s, id);
    ArriveCuts(limits, s, id, j, left);
    var i :| 0 <= i < Rank(s.queue, id) && !Stale(s.beats, s.queue[i].id, s.now, limits.stale);
    FreshStaysAhead(s, j, left, id, limits.stale, i);
  }

  lemma HeadRank(limits: Limits, s: Server, id: nat, tokens: nat, a: Server)
    requires a == Arrive(limits, s, id)
    ensures Acquire(limits, s, id, tokens).1.Queued? <==> Rank(a.queue, id) > 0
  {
  }

  /** Told its rank exactly when somebody fresh is ahead of it. */
  lemma QueuedIff(limits: Limits, s: Server, id: nat, tokens: nat)
    requires QueueOk(s)
    ensures Acquire(limits, s, id, tokens).1.Queued? <==> FreshAhead(s, id, limits.stale)
  {
    HeadRank(limits, s, id, tokens, Arrive(limits, s, id));
    if FreshAhead(s, id, limits.stale) {
      FreshAheadBlocks(limits, s, id, Join(Prune(limits, s), id), Arrive(limits, s, id).queue);
    } else {
      BehindStaleWaiters(limits, s, id);
    }
  }

  lemma HeadIsFresh(limits: Limits, s: Server, id: nat, a: Server)
    requires QueueOk(s) && DistinctIds(s.queue) && a == Arrive(limits, s, id)
    requires a.queue != [] && a.queue[0].id != id
    ensures !Stale(a.beats, a.queue[0].id, s.now, limits.stale)
  {
    var j := Join(Prune(limits, s), id);
    EvictsExactlyTheStalePrefix(limits, s, id);
    JoinDistinct(limits, s, id, j.queue);
    JoinBeats(limits, s, id);
    EvictKeepsOthers(j, id, limits.stale);
    IdsAreElements(a.queue);
    assert a.queue[0] in a.queue;
  }

  lemma ReplyRank(limits: Limits, s: Server, id: nat, tokens: nat, rank: nat, a: Server)
    requires Acquire(limits, s, id, tokens).1 == Queued(rank) && a == Arrive(limits, s, id)
    ensures rank == Rank(a.queue, id) > 0 && Acquire(limits, s, id, tokens).0 == a
  {
  }

  /** The rank it is told is the number of waiters in front of it, the first of them fresh. */
  lemma RankIsPlace(limits: Limits, s: Server, id: nat, tokens: nat, rank: nat)
    requires QueueOk(s) && DistinctIds(s.queue)
    requires Acquire(limits, s, id, tokens).1 == Queued(rank)
    ensures var s' := Acquire(limits, s, id, tokens).0;
            && 0 < rank < |s'.queue| && s'.queue[rank].id == id
            && (forall i :: 0 <= i < rank ==> s'.queue[i].id != id)
            && !Stale(s'.beats, s'.queue[0].id, s.now, limits.stale)
  {
    var a := Arrive(limits, s, id);
    ReplyRank(limits, s, id, tokens, rank, a);
    ArriveIsQueued(limits, s, id);
    HeadIsFresh(limits, s, id, a);
  }

  // ---- First in, first out ----------------------------------------------------------------------

  function NowAfter(op: Op, now: int): int {
    if op.Pass? && op.now > now then op.now else now
  }

  /** The last instant the waiter was heard at, after one more operation. */
  function LastHeard(op: Op, now: int, q: nat, last: int): int {
    if op.Poll? && op.id == q then now else last
  }

  /** The waiter `q`, last heard at `last`, never leaves, and at every poll of another client it has
      polled within the last `stale` milliseconds. Nothing here looks at what the server stores. */
  ghost predicate Attentive(ops: seq<Op>, now: int, q: nat, last: int, stale: nat)
    decreases |ops|
  {
    ops != [] ==>
      && ops[0] != Leave(q)
      && (ops[0].Poll? && ops[0].id != q ==> now <= last + stale)
      && Attentive(ops[1..], NowAfter(ops[0], now), q, LastHeard(ops[0], now, q, last), stale)
  }

  /** Ticket `e` waits, and its holder was last heard at `last`. */
  ghost predicate Heard(w: World, e: Entry<()>, last: int) {
    && QueueOk(w.server) && DistinctIds(w.server.queue)
    && e in w.server.queue && Seen(w.server.beats, e.id) == last
  }

  lemma AttemptHeard(limits: Limits, s: Server, s': Server, reply: Reply, id: nat, tokens: nat, e: Entry<()>, last: int)
    requires QueueOk(s) && DistinctIds(s.queue) && e in s.queue && Seen(s.beats, e.id) == last
    requires (s', reply) == Acquire(limits, s, id, tokens)
    requires id != e.id ==> s.now <= last + limits.stale
    requires id == e.id ==> reply != Admitted
    ensures e in s'.queue && Seen(s'.beats, e.id) == if id == e.id then s.now else last
  {
    PollFifo(limits, s, id, tokens, e);
    AttemptKeepsOthers(limits, s, id, tokens);
    IdsAreElements(s'.queue);
  }

  lemma StepHeard(limits: Limits, w: World, op: Op, e: Entry<()>, last: int)
    requires Heard(w, e, last) && e.id !in w.admitted && e.id !in Step(limits, w, op).admitted
    requires op != Leave(e.id)
    requires op.Poll? && op.id != e.id ==> w.server.now <= last + limits.stale
    ensures Heard(Step(limits, w, op), e, LastHeard(op, w.server.now, e.id, last))
  {
    StepDistinct(limits, w, op);
    StepQueueOk(limits, w, op);
    var s := w.server;
    match op
    case Poll(id, tokens) =>
      if id !in w.admitted {
        var (s', reply) := Acquire(limits, s, id, tokens);
        AttemptHeard(limits, s, s', reply, id, tokens, e, last);
      }
    case Leave(id) =>
      UnqueueRemoves(s, id);
      LeavingIsExact(s, id);
    case GiveBack(_) =>
    case Correct(_, _) =>
    case Pass(_) =>
  }

  lemma ClockAfter(limits: Limits, w: World, op: Op)
    ensures Step(limits, w, op).server.now == NowAfter(op, w.server.now)
  {
    if op.Poll? { AcquireWindows(limits, w.server, op.id, op.tokens); }
  }

  /** First in, first out: while a waiter that keeps polling has not been admitted, it holds its
      ticket, and everybody admitted meanwhile held an earlier one. */
  lemma {:induction false} FirstInFirstOut(limits: Limits, w: World, ops: seq<Op>, e: Entry<()>, last: int)
    requires Heard(w, e, last) && Attentive(ops, w.server.now, e.id, last, limits.stale)
    requires e.id !in After(limits, w, ops).admitted
    ensures e in After(limits, w, ops).server.queue
    ensures forall r :: r in After(limits, w, ops).admitted && r !in w.admitted ==>
              exists f :: f in w.server.queue && f.id == r && f.at < e.at
    decreases |ops|
  {
    AdmittedGrows(limits, w, ops);
    if ops != [] {
      var op := ops[0];
      var w' := Step(limits, w, op);
      AdmittedGrows(limits, w', ops[1..]);
      StepHeard(limits, w, op, e, last);
      ClockAfter(limits, w, op);
      HeardIsFresh(w, e, last, limits.stale);
      StepFifo(limits, w, op, e);
      FirstInFirstOut(limits, w', ops[1..], e, LastHeard(op, w.server.now, e.id, last));
    }
  }

  lemma {:induction false} AdmittedGrows(limits: Limits, w: World, ops: seq<Op>)
    ensures w.admitted <= After(limits, w, ops).admitted
    decreases |ops|
  {
    if ops != [] {
      AdmittedGrows(limits, Step(limits, w, ops[0]), ops[1..]);
    }
  }

  lemma HeardIsFresh(w: World, e: Entry<()>, last: int, stale: nat)
    requires Heard(w, e, last)
    ensures w.server.now <= last + stale ==> !Stale(w.server.beats, e.id, w.server.now, stale)
  {
  }

  /** `e` still waits in `after`, and whoever was admitted since `w` held an earlier ticket in `w`. */
  ghost predicate ServedInTurn(w: World, after: World, e: Entry<()>) {
    && e in after.server.queue
    && (forall r :: r in after.admitted && r !in w.admitted ==>
          exists f :: f in w.server.queue && f.id == r && f.at < e.at)
  }

  /** `q` joined the queue `before` with ticket `e`, and was served in turn from `w` on. */
  ghost predicate JoinedLast(before: seq<Entry<()>>, w: World, after: World, q: nat, e: Entry<()>) {
    && e in w.server.queue && e.id == q && (forall f :: f in before ==> f.at < e.at)
    && ServedInTurn(w, after, e)
  }

  /** From its first call on: a waiter refused then holds a ticket, later than anybody's in the
      queue, and if it keeps polling it is served first in, first out with that ticket. */
  lemma PollingIsEnough(limits: Limits, w: World, q: nat, tokens: nat, ops: seq<Op>)
    requires QueueOk(w.server) && DistinctIds(w.server.queue) && q !in Ids(w.server.queue) && q !in w.admitted
    requires Attentive(ops, w.server.now, q, w.server.now, limits.stale)
    requires q !in After(limits, Step(limits, w, Poll(q, tokens)), ops).admitted
    ensures var w1 := Step(limits, w, Poll(q, tokens));
            exists e :: JoinedLast(w.server.queue, w1, After(limits, w1, ops), q, e)
  {
    var w1 := Step(limits, w, Poll(q, tokens));
    AdmittedGrows(limits, w1, ops);
    ClockAfter(limits, w, Poll(q, tokens));
    var e := FirstTicket(limits, w, q, tokens);
    FirstInFirstOut(limits, w1, ops, e, w.server.now);
    assert JoinedLast(w.server.queue, w1, After(limits, w1, ops), q, e);
  }

  lemma FirstTicket(limits: Limits, w: World, q: nat, tokens: nat) returns (e: Entry<()>)
    requires QueueOk(w.server) && DistinctIds(w.server.queue) && q !in Ids(w.server.queue)
    requires q !in w.admitted && q !in Step(limits, w, Poll(q, tokens)).admitted
    ensures e.id == q && e.at > w.server.tickets
    ensures Heard(Step(limits, w, Poll(q, tokens)), e, w.server.now)
  {
    var s := w.server;
    var (s', reply) := Acquire(limits, s, q, tokens);
    StepDistinct(limits, w, Poll(q, tokens));
    StepQueueOk(limits, w, Poll(q, tokens));
    AttemptKeepsOthers(limits, s, q, tokens);
    RankInIds(s'.queue, q);
    RankInIds(s.queue, q);
    e := s'.queue[Rank(s'.queue, q)];
    NewTicketIsLast(limits, s, q, e, Arrive(limits, s, q));
    PollQueue(limits, s, q, tokens);
  }

  lemma NewTicketIsLast(limits: Limits, s: Server, q: nat, e: Entry<()>, a: Server)
    requires QueueOk(s) && q !in Ids(s.queue) && a == Arrive(limits, s, q) && e in a.queue && e.id == q
    ensures e.at > s.tickets
  {
    var j := Join(Prune(limits, s), q);
    JoinAppends(limits, s, q);
    EvictKeepsOrder(j, q, limits.stale);
    RankInIds(s.queue, q);
    IdsAreElements(s.queue);
    NotQueuedBefore(s, j, q, e);
  }

  lemma NotQueuedBefore(s: Server, j: Server, q: nat, e: Entry<()>)
    requires Joined(s, j, q) && e in j.queue && e.id == q && Rank(s.queue, q) == |s.queue|
    requires e !in s.queue
    ensures e.at > s.tickets
  {
  }
}
