/** First come, first served: who can be admitted while a live waiter holds a ticket. */
module ThrottleFifo {
  import opened SortedSets
  import opened ProviderThrottle
  import opened ThrottleRuns

  /** The queue is in ticket order and every ticket came from the counter. */
  ghost predicate QueueOk(s: Server) {
    && (forall i, j :: 0 <= i < j < |s.queue| ==> s.queue[i].at < s.queue[j].at)
    && (forall x :: x in s.queue ==> x.at <= s.tickets)
  }

  lemma {:induction false} InsertLast<T>(xs: seq<Entry<T>>, e: Entry<T>)
    requires forall x :: x in xs ==> x.at < e.at
    ensures Insert(xs, e) == xs + [e]
    decreases |xs|
  {
    if xs != [] {
      assert xs[0] in xs;
      InsertLast(xs[1..], e);
    }
  }

  /** `j` is `s` after a client has joined: a fresh ticket appended, unless it holds one. */
  ghost predicate Joined(s: Server, j: Server, id: nat) {
    && j.now == s.now && QueueOk(j) && j.tickets >= s.tickets
    && j.queue == (if Rank(s.queue, id) < |s.queue| then s.queue else s.queue + [Entry(s.tickets + 1, id, ())])
    && (forall q :: q != id ==> Seen(j.beats, q) == Seen(s.beats, q))
  }

  lemma JoinAppends(limits: Limits, s: Server, id: nat)
    requires QueueOk(s)
    ensures Joined(s, Join(Prune(limits, s), id), id)
  {
    var e := Entry(s.tickets + 1, id, ());
    if Rank(s.queue, id) == |s.queue| {
      InsertLast(s.queue, e);
      AppendKeepsOrder(s.queue, e);
    }
  }

  lemma AppendKeepsOrder(q: seq<Entry<()>>, e: Entry<()>)
    requires forall i, j :: 0 <= i < j < |q| ==> q[i].at < q[j].at
    requires forall x :: x in q ==> x.at < e.at
    ensures forall i, j :: 0 <= i < j < |q| + 1 ==> (q + [e])[i].at < (q + [e])[j].at
  {
    forall i, j | 0 <= i < j < |q| + 1 ensures (q + [e])[i].at < (q + [e])[j].at {
      assert q[i] in q;
    }
  }

  lemma FreshAfterJoin(s: Server, j: Server, id: nat, e: Entry<()>, stale: nat)
    requires Joined(s, j, id) && e in s.queue
    requires e.id == id || !Stale(s.beats, e.id, s.now, stale)
    ensures e in j.queue && (e.id == id || !Stale(j.beats, e.id, j.now, stale))
    ensures forall x :: x in j.queue ==> x in s.queue || (x.id == id && x.at > s.tickets)
  {
  }

  /** Each call ends with the caller or a fresh waiter at the head, having evicted exactly the
      stale waiters in front of both. */
  lemma EvictsExactlyTheStalePrefix(limits: Limits, s: Server, id: nat)
    ensures var j := Join(Prune(limits, s), id);
            var a := Arrive(limits, s, id);
            var m := |j.queue| - |a.queue|;
            && 0 <= m && a.queue == j.queue[m..] && a.queue != []
            && (forall i :: 0 <= i < m ==> j.queue[i].id != id && Stale(j.beats, j.queue[i].id, s.now, limits.stale))
            && (a.queue[0].id == id || !Stale(j.beats, a.queue[0].id, s.now, limits.stale))
  {
    ArriveIsQueued(limits, s, id);
  }

  lemma EvictKeepsOrder(s: Server, id: nat, stale: nat)
    requires QueueOk(s)
    ensures var v := Evict(s, id, stale);
            && QueueOk(v) && v.tickets == s.tickets && (forall x :: x in v.queue ==> x in s.queue)
  {
  }

  lemma EvictKeepsFresh(s: Server, id: nat, stale: nat, e: Entry<()>)
    requires e in s.queue
    requires e.id == id || !Stale(s.beats, e.id, s.now, stale)
    ensures e in Evict(s, id, stale).queue
  {
    var m := StaleAhead(s.queue, s.beats, id, s.now, stale);
    var k :| 0 <= k < |s.queue| && s.queue[k] == e;
    assert m <= k;
    assert s.queue[m..][k - m] == e;
  }

  /** A waiter's ticket survives everybody else's calls while its heartbeat is fresh. */
  lemma ArriveKeepsFresh(limits: Limits, s: Server, id: nat, e: Entry<()>)
    requires QueueOk(s) && e in s.queue
    requires e.id == id || !Stale(s.beats, e.id, s.now, limits.stale)
    ensures var a := Arrive(limits, s, id);
            && QueueOk(a) && e in a.queue
            && (forall x :: x in a.queue ==> x in s.queue || (x.id == id && x.at > s.tickets))
            && a.tickets >= s.tickets
  {
    var j := Join(Prune(limits, s), id);
    JoinAppends(limits, s, id);
    FreshAfterJoin(s, j, id, e, limits.stale);
    EvictKeepsOrder(j, id, limits.stale);
    EvictKeepsFresh(j, id, limits.stale, e);
  }

  lemma CutKeepsOrder(q: seq<Entry<()>>, r: nat, cut: seq<Entry<()>>)
    requires r < |q| && cut == q[..r] + q[r + 1..]
    requires forall i, j :: 0 <= i < j < |q| ==> q[i].at < q[j].at
    ensures forall i, j :: 0 <= i < j < |cut| ==> cut[i].at < cut[j].at
    ensures forall x :: x in cut ==> x in q
    ensures forall x :: x in q && x != q[r] ==> x in cut
  {
    assert q == q[..r] + [q[r]] + q[r + 1..];
  }

  lemma UnqueueRemoves(s: Server, id: nat)
    requires QueueOk(s)
    ensures var u := Unqueue(s, id);
            && QueueOk(u) && u.tickets == s.tickets
            && (forall x :: x in u.queue ==> x in s.queue)
            && (forall x :: x in s.queue && x.id != id ==> x in u.queue)
  {
    var r := Rank(s.queue, id);
    if r < |s.queue| {
      CutKeepsOrder(s.queue, r, s.queue[..r] + s.queue[r + 1..]);
    }
  }

  /** An admitted caller was at the head, so its ticket is the earliest there is. */
  lemma AdmittedIsEarliest(limits: Limits, s: Server, id: nat, tokens: nat, e: Entry<()>)
    requires QueueOk(s) && e in s.queue && e.id != id
    requires !Stale(s.beats, e.id, s.now, limits.stale)
    requires Acquire(limits, s, id, tokens).1 == Admitted
    ensures exists f :: f in s.queue && f.id == id && f.at < e.at
  {
    var a := Arrive(limits, s, id);
    ArriveKeepsFresh(limits, s, id, e);
    EvictsExactlyTheStalePrefix(limits, s, id);
    var f := a.queue[0];
    var k :| 0 <= k < |a.queue| && a.queue[k] == e;
    assert f.at < e.at;
    assert f in a.queue;
  }

  lemma AdmitUnqueues(s: Server, id: nat, tokens: nat)
    ensures Admit(s, id, tokens).queue == Unqueue(s, id).queue && Admit(s, id, tokens).tickets == s.tickets
  {
  }

  lemma PollQueue(limits: Limits, s: Server, id: nat, tokens: nat)
    ensures var a := Arrive(limits, s, id);
            var (s', reply) := Acquire(limits, s, id, tokens);
            && s'.tickets == a.tickets
            && s'.queue == if reply == Admitted then Unqueue(a, id).queue else a.queue
  {
    AdmitUnqueues(Arrive(limits, s, id), id, tokens);
  }

  lemma PollFifo(limits: Limits, s: Server, id: nat, tokens: nat, e: Entry<()>)
    requires QueueOk(s) && e in s.queue
    requires id != e.id ==> !Stale(s.beats, e.id, s.now, limits.stale)
    ensures var (s', reply) := Acquire(limits, s, id, tokens);
            && QueueOk(s') && s'.tickets >= s.tickets
            && (id != e.id || reply != Admitted ==> e in s'.queue)
            && (forall x :: x in s'.queue ==> x in s.queue || x.at > s.tickets)
  {
    ArriveKeepsFresh(limits, s, id, e);
    PollQueue(limits, s, id, tokens);
    UnqueueRemoves(Arrive(limits, s, id), id);
  }

  /** One step of anyone, while the holder of ticket `e` waits. */
  ghost predicate Waiting(w: World, w': World, e: Entry<()>) {
    && QueueOk(w'.server) && w'.server.tickets >= w.server.tickets
    && (e.id !in w'.admitted ==> e in w'.server.queue)
    && (forall x :: x in w'.server.queue ==> x in w.server.queue || x.at > w.server.tickets)
    && (forall r :: r in w'.admitted && r !in w.admitted && r != e.id ==>
          exists f :: f in w.server.queue && f.id == r && f.at < e.at)
  }

  lemma PollKeepsWaiting(limits: Limits, w: World, id: nat, tokens: nat, e: Entry<()>)
    requires QueueOk(w.server) && e in w.server.queue && e.id !in w.admitted && id !in w.admitted
    requires id != e.id ==> !Stale(w.server.beats, e.id, w.server.now, limits.stale)
    ensures Waiting(w, Step(limits, w, Poll(id, tokens)), e)
  {
    PollFifo(limits, w.server, id, tokens, e);
    if id != e.id && Acquire(limits, w.server, id, tokens).1 == Admitted {
      AdmittedIsEarliest(limits, w.server, id, tokens, e);
    }
  }

  lemma StepFifo(limits: Limits, w: World, op: Op, e: Entry<()>)
    requires QueueOk(w.server) && e in w.server.queue && e.id !in w.admitted
    requires op != Leave(e.id)
    requires op.Poll? && op.id != e.id ==> !Stale(w.server.beats, e.id, w.server.now, limits.stale)
    ensures Waiting(w, Step(limits, w, op), e)
  {
    match op
    case Poll(id, tokens) => if id !in w.admitted { PollKeepsWaiting(limits, w, id, tokens, e); }
    case Leave(id) => UnqueueRemoves(w.server, id);
    case GiveBack(_) =>
    case Correct(_, _) =>
    case Pass(_) =>
  }

  lemma {:induction false} QueueStaysOk(limits: Limits, w: World, ops: seq<Op>)
    requires QueueOk(w.server)
    ensures QueueOk(After(limits, w, ops).server)
    decreases |ops|
  {
    if ops != [] {
      StepQueueOk(limits, w, ops[0]);
      QueueStaysOk(limits, Step(limits, w, ops[0]), ops[1..]);
    }
  }

  lemma PollKeepsQueueOk(limits: Limits, s: Server, id: nat, tokens: nat)
    requires QueueOk(s)
    ensures QueueOk(Acquire(limits, s, id, tokens).0)
  {
    JoinAppends(limits, s, id);
    EvictKeepsOrder(Join(Prune(limits, s), id), id, limits.stale);
    PollQueue(limits, s, id, tokens);
    UnqueueRemoves(Arrive(limits, s, id), id);
  }

  lemma StepQueueOk(limits: Limits, w: World, op: Op)
    requires QueueOk(w.server)
    ensures QueueOk(Step(limits, w, op).server)
  {
    match op
    case Poll(id, tokens) => PollKeepsQueueOk(limits, w.server, id, tokens);
    case Leave(id) => UnqueueRemoves(w.server, id);
    case GiveBack(_) =>
    case Correct(_, _) =>
    case Pass(_) =>
  }

  /** If all in front of the caller are stale, the caller is what eviction stops at. */
  lemma CallerIsNext(s: Server, j: Server, left: seq<Entry<()>>, id: nat, stale: nat)
    requires Joined(s, j, id)
    requires forall i :: 0 <= i < Rank(s.queue, id) ==> Stale(s.beats, s.queue[i].id, s.now, stale)
    requires |left| <= |j.queue| && left == j.queue[|j.queue| - |left|..] && left != []
    requires forall i :: 0 <= i < |j.queue| - |left| ==> j.queue[i].id != id
    requires left[0].id == id || !Stale(j.beats, left[0].id, s.now, stale)
    ensures Rank(left, id) == 0
  {
    var m, r := |j.queue| - |left|, Rank(s.queue, id);
    assert forall i :: 0 <= i < r ==> j.queue[i] == s.queue[i];
    assert j.queue[r].id == id;
    assert left[0] == j.queue[m];
  }

  lemma BehindStaleWaiters(limits: Limits, s: Server, id: nat)
    requires QueueOk(s)
    requires forall i :: 0 <= i < Rank(s.queue, id) ==> Stale(s.beats, s.queue[i].id, s.now, limits.stale)
    ensures Rank(Arrive(limits, s, id).queue, id) == 0
  {
    JoinAppends(limits, s, id);
    EvictsExactlyTheStalePrefix(limits, s, id);
    CallerIsNext(s, Join(Prune(limits, s), id), Arrive(limits, s, id).queue, id, limits.stale);
  }

  /** No permanent blocking: a caller behind none but stale waiters is at the head after its own
      call, and is then admitted exactly when the windows have room. */
  lemma StaleWaitersDoNotBlock(limits: Limits, w: World, id: nat, tokens: nat)
    requires Books(limits, w) && QueueOk(w.server)
    requires var s := w.server;
             forall i :: 0 <= i < Rank(s.queue, id) ==> Stale(s.beats, s.queue[i].id, s.now, limits.stale)
    ensures Acquire(limits, w.server, id, tokens).1 == Admitted <==> HasRoom(limits, w, tokens)
  {
    BehindStaleWaiters(limits, w.server, id);
    HeadAdmittedIff(limits, w, id, tokens);
  }
}
