/** The wait that a head of the queue is told, while other clients call behind it. */
module ThrottleHints {
  import opened Numbers
  import opened SortedSets
  import opened ProviderThrottle
  import opened ThrottleRuns
  import opened ThrottleFifo

  // ---- What a refusal leaves behind ----------------------------------------------------------

  lemma {:induction false} NotAmongIds(xs: seq<Entry<()>>, id: nat)
    requires forall i :: 0 <= i < |xs| ==> xs[i].id != id
    ensures id !in Ids(xs)
    decreases |xs|
  {
    if xs != [] {
      assert forall i :: 0 <= i < |xs| - 1 ==> xs[1..][i] == xs[i + 1];
      NotAmongIds(xs[1..], id);
    }
  }

  lemma ArriveBeats(limits: Limits, s: Server, id: nat)
    ensures Seen(Arrive(limits, s, id).beats, id) == s.now
  {
    var j := Join(Prune(limits, s), id);
    NotAmongIds(j.queue[..StaleAhead(j.queue, j.beats, id, s.now, limits.stale)], id);
  }

  /** A refused head, with the wait it was told. */
  ghost predicate ToldToWait(limits: Limits, b: Server, id: nat, tokens: nat, w: int) {
    && Sorted(b.rpm) && Sorted(b.tpm) && Seen(b.beats, id) == b.now
    && b.queue != [] && b.queue[0].id == id
    && w == WindowWait(limits, b, tokens) && w > 0
  }

  lemma RefusedHead(limits: Limits, s: Server, id: nat, tokens: nat, w: int)
    requires Sorted(s.rpm) && Sorted(s.tpm) && Acquire(limits, s, id, tokens).1 == Wait(w)
    ensures var b := Acquire(limits, s, id, tokens).0;
            ToldToWait(limits, b, id, tokens, w) && b.now == s.now
  {
    HeadIsToldToWait(limits, s, id, tokens, w);
    ArriveSorted(limits, s, id);
    ArriveBeats(limits, s, id);
  }

  // ---- Traffic behind the head -----------------------------------------------------------------

  /** Nothing was added to the windows, and nothing removed but by pruning. */
  ghost predicate OnlyPruned(limits: Limits, b: Server, s: Server) {
    forall c :: c >= s.now - limits.window ==> Drop(s.rpm, c) == Drop(b.rpm, c) && Drop(s.tpm, c) == Drop(b.tpm, c)
  }

  lemma PruningOnlyPrunes(limits: Limits, b: Server, s: Server, s': Server)
    requires OnlyPruned(limits, b, s) && s'.now == s.now
    requires s'.rpm == Drop(s.rpm, s.now - limits.window) && s'.tpm == Drop(s.tpm, s.now - limits.window)
    ensures OnlyPruned(limits, b, s')
  {
    var cut := s.now - limits.window;
    forall c | c >= cut ensures Drop(s'.rpm, c) == Drop(b.rpm, c) && Drop(s'.tpm, c) == Drop(b.tpm, c) {
      DropTwice(s.rpm, cut, c);
      DropTwice(s.tpm, cut, c);
    }
  }

  /** What others may do without ever reaching the windows: poll and leave, while time passes. */
  predicate Behind(op: Op, id: nat) {
    op.Pass? || ((op.Poll? || op.Leave?) && op.id != id)
  }

  /** `id` is the head as it was at `b`, and the windows have only been pruned since. */
  ghost predicate HoldsHead(limits: Limits, b: Server, s: Server, id: nat) {
    && QueueOk(s) && s.queue != [] && s.queue[0].id == id
    && s.now >= b.now && Seen(s.beats, id) == Seen(b.beats, id)
    && OnlyPruned(limits, b, s)
  }

  lemma JoinBehind(limits: Limits, s: Server, x: nat, id: nat)
    requires QueueOk(s) && s.queue != [] && s.queue[0].id == id && x != id
    ensures var j := Join(Prune(limits, s), x);
            && QueueOk(j) && j.queue != [] && j.queue[0].id == id
            && j.now == s.now && Seen(j.beats, id) == Seen(s.beats, id)
  {
    JoinAppends(limits, s, x);
  }

  lemma EvictBehind(j: Server, x: nat, id: nat, stale: nat)
    requires QueueOk(j) && j.queue != [] && j.queue[0].id == id && x != id
    requires !Stale(j.beats, id, j.now, stale)
    ensures var v := Evict(j, x, stale);
            && QueueOk(v) && v.queue != [] && v.queue[0].id == id && Seen(v.beats, id) == Seen(j.beats, id)
  {
    assert StaleAhead(j.queue, j.beats, x, j.now, stale) == 0;
    assert j.queue[..0] == [] && j.queue[0..] == j.queue && j.beats - {} == j.beats;
  }

  lemma ArriveBehind(limits: Limits, s: Server, x: nat, id: nat)
    requires QueueOk(s) && s.queue != [] && s.queue[0].id == id && x != id
    requires !Stale(s.beats, id, s.now, limits.stale)
    ensures var a := Arrive(limits, s, x);
            && QueueOk(a) && a.queue != [] && a.queue[0].id == id && Seen(a.beats, id) == Seen(s.beats, id)
  {
    JoinBehind(limits, s, x, id);
    EvictBehind(Join(Prune(limits, s), x), x, id, limits.stale);
  }

  lemma SomeoneElseIsHead(limits: Limits, s: Server, x: nat, tokens: nat)
    requires var a := Arrive(limits, s, x); a.queue != [] && a.queue[0].id != x
    ensures var (s', reply) := Acquire(limits, s, x, tokens); reply.Queued? && s' == Arrive(limits, s, x)
  {
  }

  /** A poll behind a fresh head is told its rank. */
  lemma PollBehindHead(limits: Limits, s: Server, x: nat, tokens: nat, id: nat)
    requires QueueOk(s) && s.queue != [] && s.queue[0].id == id && x != id
    requires !Stale(s.beats, id, s.now, limits.stale)
    ensures Acquire(limits, s, x, tokens).1.Queued?
    ensures Acquire(limits, s, x, tokens).0 == Arrive(limits, s, x)
  {
    ArriveBehind(limits, s, x, id);
    SomeoneElseIsHead(limits, s, x, tokens);
  }

  lemma LeaveBehindHead(s: Server, x: nat, id: nat)
    requires QueueOk(s) && s.queue != [] && s.queue[0].id == id && x != id
    ensures var u := Unqueue(s, x);
            QueueOk(u) && u.queue != [] && u.queue[0].id == id && Seen(u.beats, id) == Seen(s.beats, id)
  {
    UnqueueRemoves(s, x);
  }

  lemma BehindStep(limits: Limits, b: Server, w: World, op: Op, id: nat)
    requires HoldsHead(limits, b, w.server, id) && Behind(op, id)
    requires op.Poll? ==> !Stale(w.server.beats, id, w.server.now, limits.stale)
    ensures HoldsHead(limits, b, Step(limits, w, op).server, id)
  {
    var s := w.server;
    match op
    case Poll(x, tokens) =>
      if x !in w.admitted {
        PollBehindHead(limits, s, x, tokens, id);
        ArriveBehind(limits, s, x, id);
        ArriveWindows(limits, s, x);
        PruningOnlyPrunes(limits, b, s, Arrive(limits, s, x));
      }
    case Leave(x) => LeaveBehindHead(s, x, id);
    case Pass(_) =>
  }

  lemma {:induction false} TimeGrows(limits: Limits, w: World, ops: seq<Op>)
    ensures w.server.now <= After(limits, w, ops).server.now
    decreases |ops|
  {
    if ops != [] {
      if ops[0].Poll? { AcquireWindows(limits, w.server, ops[0].id, ops[0].tokens); }
      TimeGrows(limits, Step(limits, w, ops[0]), ops[1..]);
    }
  }

  /** The head stays the head through any traffic behind it, until its own heartbeat is stale. */
  lemma {:induction false} BehindRun(limits: Limits, b: Server, w: World, ops: seq<Op>, id: nat)
    requires HoldsHead(limits, b, w.server, id)
    requires forall i :: 0 <= i < |ops| ==> Behind(ops[i], id)
    requires After(limits, w, ops).server.now <= Seen(b.beats, id) + limits.stale
    ensures HoldsHead(limits, b, After(limits, w, ops).server, id)
    decreases |ops|
  {
    if ops != [] {
      TimeGrows(limits, w, ops);
      BehindStep(limits, b, w, ops[0], id);
      BehindRun(limits, b, Step(limits, w, ops[0]), ops[1..], id);
    }
  }

  lemma NextReply(limits: Limits, b: Server, s: Server, id: nat, tokens: nat, w: int)
    requires ToldToWait(limits, b, id, tokens, w) && HoldsHead(limits, b, s, id)
    ensures var d := s.now - b.now;
            Acquire(limits, s, id, tokens).1 == if d < w then Wait(w - d) else Admitted
  {
    HeadStaysHead(limits, s, id);
    ArriveWindows(limits, s, id);
    HeadReply(limits, s, id, tokens);
    WindowWaitShifts(limits, b, Arrive(limits, s, id), tokens, s.now - b.now);
  }

  /** The next poll of a head that was told to wait: the rest of the wait, or its slot. */
  lemma NextPoll(limits: Limits, b: Server, s: Server, id: nat, tokens: nat, w: int)
    requires ToldToWait(limits, b, id, tokens, w) && HoldsHead(limits, b, s, id)
    requires Sorted(s.rpm) && Sorted(s.tpm)
    ensures var (s', reply) := Acquire(limits, s, id, tokens);
            var d := s.now - b.now;
            && reply == (if d < w then Wait(w - d) else Admitted)
            && (d < w ==> ToldToWait(limits, s', id, tokens, w - d) && s'.now == s.now)
  {
    NextReply(limits, b, s, id, tokens, w);
    if s.now - b.now < w {
      RefusedHead(limits, s, id, tokens, w - (s.now - b.now));
    }
  }

  /** The hint is exact under traffic too: whatever others poll, join and leave behind the head
      while its heartbeat is fresh, its next call is told exactly the rest, or admitted. */
  lemma WaitIsExactUnderTraffic(limits: Limits, w: World, id: nat, tokens: nat, wait: int, ops: seq<Op>)
    requires Books(limits, w) && QueueOk(w.server) && id !in w.admitted
    requires Acquire(limits, w.server, id, tokens).1 == Wait(wait)
    requires forall i :: 0 <= i < |ops| ==> Behind(ops[i], id)
    requires var later := After(limits, Step(limits, w, Poll(id, tokens)), ops).server;
             later.now <= w.server.now + limits.stale
    ensures var later := After(limits, Step(limits, w, Poll(id, tokens)), ops).server;
            var d := later.now - w.server.now;
            Acquire(limits, later, id, tokens).1 == if d < wait then Wait(wait - d) else Admitted
  {
    var w1 := Step(limits, w, Poll(id, tokens));
    WindowsAreSorted(limits, w);
    RefusedHead(limits, w.server, id, tokens, wait);
    PollKeepsQueueOk(limits, w.server, id, tokens);
    BehindRun(limits, w1.server, w1, ops, id);
    PollBooks(limits, w, id, tokens);
    RunBooks(limits, w1, ops);
    WindowsAreSorted(limits, After(limits, w1, ops));
    NextPoll(limits, w1.server, After(limits, w1, ops).server, id, tokens, wait);
  }

  lemma WindowsAreSorted(limits: Limits, w: World)
    requires Books(limits, w)
    ensures Sorted(w.server.rpm) && Sorted(w.server.tpm)
  {
    KeptAreRecent(w.slots, w.cut);
  }

  // ---- Keys that expire --------------------------------------------------------------------------

  /** How long the keys live after they are last refreshed: the windows at an admission, the queue at
      any call. */
  function KeyLife(limits: Limits): int {
    1000 * (2 * CeilSeconds(limits.window) + 60)
  }

  /** No admission and no call since `last`. */
  ghost predicate QuietSince(w: World, last: int) {
    (forall x :: x in w.slots ==> x.at <= last) && (forall q :: q in w.server.beats ==> w.server.beats[q] <= last)
  }

  lemma {:induction false} NothingLeft(xs: seq<Entry<nat>>, c: int)
    requires forall x :: x in xs ==> x.at <= c
    ensures Drop(xs, c) == []
    decreases |xs|
  {
    if xs != [] {
      assert xs[0] in xs;
      NothingLeft(xs[1..], c);
    }
  }

  /** By the time the windows' keys can expire, the next call would find the windows empty anyway. */
  lemma ExpiredWindowsAreEmpty(limits: Limits, w: World, last: int, id: nat)
    requires Books(limits, w) && QuietSince(w, last) && w.server.now > last + KeyLife(limits)
    ensures Arrive(limits, w.server, id).rpm == [] && Arrive(limits, w.server, id).tpm == []
  {
    ArriveBooks(limits, w, id);
    NothingLeft(w.slots, w.server.now - limits.window);
  }

  /** And by the time the queue's keys can expire too, with the clock for its tickets, it makes no
      difference to a caller whether they have: everybody who waited is stale, and it is admitted. */
  lemma ExpiredKeysMakeNoDifference(limits: Limits, w: World, last: int, id: nat, tokens: nat)
    requires Books(limits, w) && QueueOk(w.server) && QuietSince(w, last) && last >= 0
    requires w.server.now > last + KeyLife(limits) && limits.stale <= KeyLife(limits)
    ensures Acquire(limits, w.server, id, tokens).1 == Admitted
    ensures Acquire(limits, Server(w.server.now, [], [], [], map[], 0), id, tokens).1 == Admitted
  {
    ExpiredWindowsAreEmpty(limits, w, last, id);
    BehindStaleWaiters(limits, w.server, id);
    ArriveIsQueued(limits, w.server, id);
    HeadReply(limits, w.server, id, tokens);
    var idle := Server(w.server.now, [], [], [], map[], 0);
    BehindStaleWaiters(limits, idle, id);
    ArriveIsQueued(limits, idle, id);
    ArriveWindows(limits, idle, id);
    HeadReply(limits, idle, id, tokens);
  }

  /** `last` can be the instant of the last call: no heartbeat and no admission is later. */
  lemma {:induction false} NothingIsAheadOfTime(limits: Limits, w: World, ops: seq<Op>)
    requires Books(limits, w) && QuietSince(w, w.server.now)
    ensures QuietSince(After(limits, w, ops), After(limits, w, ops).server.now)
    decreases |ops|
  {
    if ops != [] {
      StepBooks(limits, w, ops[0]);
      StepIsNotAhead(limits, w, ops[0]);
      NothingIsAheadOfTime(limits, Step(limits, w, ops[0]), ops[1..]);
    }
  }

  lemma StepIsNotAhead(limits: Limits, w: World, op: Op)
    requires Books(limits, w) && QuietSince(w, w.server.now)
    ensures QuietSince(Step(limits, w, op), Step(limits, w, op).server.now)
  {
    StepBooks(limits, w, op);
    if op.Poll? {
      PollBeats(limits, w.server, op.id, op.tokens);
      AcquireWindows(limits, w.server, op.id, op.tokens);
    }
  }

  lemma PollBeats(limits: Limits, s: Server, id: nat, tokens: nat)
    ensures var s' := Acquire(limits, s, id, tokens).0;
            forall q :: q in s'.beats ==> s'.beats[q] == s.now || (q in s.beats && s'.beats[q] == s.beats[q])
  {
  }

  /** Without further calls it stays that. */
  lemma {:induction false} QuietRun(limits: Limits, w: World, ops: seq<Op>, last: int)
    requires QuietSince(w, last) && forall i :: 0 <= i < |ops| ==> ops[i].Pass? || ops[i].Leave?
    ensures QuietSince(After(limits, w, ops), last)
    decreases |ops|
  {
    if ops != [] {
      QuietRun(limits, Step(limits, w, ops[0]), ops[1..], last);
    }
  }
}
