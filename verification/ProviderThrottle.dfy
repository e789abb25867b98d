/** The per-provider throttle: two sliding windows, a ticket queue with heartbeats, and the four
    scripts as atomic steps on them. */
module ProviderThrottle {
  import opened SortedSets
  import opened Numbers

  type Millis = ms: int | ms > 0 witness 60_000

  /** `rpm`/`tpm` are the limits (0 = none); all calls on one provider use the same ones. */
  datatype Limits = Limits(rpm: nat, tpm: nat, window: Millis, stale: nat)

  /** In `queue` the score is the ticket number. */
  datatype Server = Server(
    now: int,
    rpm: seq<Entry<()>>,
    tpm: seq<Entry<nat>>,
    queue: seq<Entry<()>>,
    beats: map<nat, int>,
    tickets: int)

  datatype Reply = Admitted | Queued(rank: nat) | Wait(ms: int)

  function Seen(beats: map<nat, int>, id: nat): int {
    if id in beats then beats[id] else 0
  }

  // ---- The queue ------------------------------------------------------------------------

  /** Take a ticket unless one is held, and beat. */
  function Join(s: Server, id: nat): Server {
    var s' := if Rank(s.queue, id) < |s.queue| then s
              else s.(tickets := s.tickets + 1, queue := Insert(s.queue, Entry(s.tickets + 1, id, ())));
    s'.(beats := s'.beats[id := s.now])
  }

  predicate Stale(beats: map<nat, int>, id: nat, now: int, stale: nat) {
    Seen(beats, id) < now - stale
  }

  /** How many heads are evicted: the stale ones in front of the caller. */
  function StaleAhead(queue: seq<Entry<()>>, beats: map<nat, int>, id: nat, now: int, stale: nat): (m: nat)
    ensures m <= |queue|
    ensures forall i :: 0 <= i < m ==> queue[i].id != id && Stale(beats, queue[i].id, now, stale)
    ensures m < |queue| ==> queue[m].id == id || !Stale(beats, queue[m].id, now, stale)
  {
    if queue == [] || queue[0].id == id || !Stale(beats, queue[0].id, now, stale) then 0
    else 1 + StaleAhead(queue[1..], beats, id, now, stale)
  }

  function Evict(s: Server, id: nat, stale: nat): Server {
    var m := StaleAhead(s.queue, s.beats, id, s.now, stale);
    s.(queue := s.queue[m..], beats := s.beats - Ids(s.queue[..m]))
  }

  // ---- The waits ------------------------------------------------------------------------

  function Total(xs: seq<Entry<nat>>): nat {
    if xs == [] then 0 else xs[0].value + Total(xs[1..])
  }

  /** The window has no room for the request; an empty window always has. */
  predicate Blocked(xs: seq<Entry<nat>>, tokens: nat, limit: nat) {
    Total(xs) > 0 && Total(xs) + tokens > limit
  }

  /** Admission instant of the first entry whose expiry, with all before it, makes room. */
  function Relief(xs: seq<Entry<nat>>, tokens: nat, limit: nat): int
    requires Blocked(xs, tokens, limit)
  {
    if Blocked(xs[1..], tokens, limit) then Relief(xs[1..], tokens, limit) else xs[0].at
  }

  function RpmWait(xs: seq<Entry<()>>, limits: Limits, now: int): int {
    if limits.rpm > 0 && |xs| >= limits.rpm
    then Max(0, xs[|xs| - limits.rpm].at + limits.window - now) else 0
  }

  function TpmWait(xs: seq<Entry<nat>>, tokens: nat, limits: Limits, now: int): int {
    if limits.tpm > 0 && Blocked(xs, tokens, limits.tpm)
    then Max(0, Relief(xs, tokens, limits.tpm) + limits.window - now) else 0
  }

  function WindowWait(limits: Limits, s: Server, tokens: nat): int {
    Max(RpmWait(s.rpm, limits, s.now), TpmWait(s.tpm, tokens, limits, s.now))
  }

  // ---- The scripts ----------------------------------------------------------------------

  function Prune(limits: Limits, s: Server): Server {
    s.(rpm := Drop(s.rpm, s.now - limits.window), tpm := Drop(s.tpm, s.now - limits.window))
  }

  /** Everything up to reading the caller's rank. */
  function Arrive(limits: Limits, s: Server, id: nat): Server {
    Evict(Join(Prune(limits, s), id), id, limits.stale)
  }

  function Unqueue(s: Server, id: nat): Server {
    var r := Rank(s.queue, id);
    s.(queue := if r < |s.queue| then s.queue[..r] + s.queue[r + 1..] else s.queue, beats := s.beats - {id})
  }

  function Admit(s: Server, id: nat, tokens: nat): Server {
    Unqueue(s.(rpm := Insert(s.rpm, Entry(s.now, id, ())), tpm := Insert(s.tpm, Entry(s.now, id, tokens))), id)
  }

  /** The `ACQUIRE_SCRIPT`; `id` is a fresh UUID, never admitted before. */
  function Acquire(limits: Limits, s: Server, id: nat, tokens: nat): (Server, Reply) {
    var s' := Arrive(limits, s, id);
    var rank := Rank(s'.queue, id);
    if rank > 0 then (s', Queued(rank)) else
    var wait := WindowWait(limits, s', tokens);
    if wait > 0 then (s', Wait(wait)) else (Admit(s', id, tokens), Admitted)
  }

  /** The windows and the clock after an attempt. */
  lemma AcquireWindows(limits: Limits, s: Server, id: nat, tokens: nat)
    ensures var a := Arrive(limits, s, id);
            var (s', reply) := Acquire(limits, s, id, tokens);
            && s'.now == s.now
            && s'.rpm == (if reply == Admitted then Insert(a.rpm, Entry(s.now, id, ())) else a.rpm)
            && s'.tpm == (if reply == Admitted then Insert(a.tpm, Entry(s.now, id, tokens)) else a.tpm)
            && (reply == Admitted ==> WindowWait(limits, a, tokens) <= 0)
  {
  }

  function Release(s: Server, id: nat, tokens: nat): Server {
    s.(rpm := Remove(s.rpm, id, ()), tpm := Remove(s.tpm, id, tokens))
  }

  function Settle(s: Server, id: nat, old_: nat, new_: nat): Server {
    s.(tpm := Revalue(s.tpm, id, old_, new_))
  }

  // ---- The wait is exact ------------------------------------------------------------------

  lemma {:induction false} UnblockedSuffix(xs: seq<Entry<nat>>, tokens: nat, limit: nat, c: int)
    requires !Blocked(xs, tokens, limit)
    ensures !Blocked(Drop(xs, c), tokens, limit)
    decreases |xs|
  {
    if xs != [] && xs[0].at <= c {
      UnblockedSuffix(xs[1..], tokens, limit, c);
    }
  }

  lemma {:induction false} ReliefIsAnEntry(xs: seq<Entry<nat>>, tokens: nat, limit: nat)
    requires Blocked(xs, tokens, limit)
    ensures exists i :: 0 <= i < |xs| && xs[i].at == Relief(xs, tokens, limit)
    decreases |xs|
  {
    if Blocked(xs[1..], tokens, limit) {
      ReliefIsAnEntry(xs[1..], tokens, limit);
      var i :| 0 <= i < |xs| - 1 && xs[1..][i].at == Relief(xs, tokens, limit);
      assert xs[i + 1].at == Relief(xs, tokens, limit);
    } else {
      assert xs[0].at == Relief(xs, tokens, limit);
    }
  }

  /** The window unblocks exactly when the relieving entry expires, ties and oversized
      requests included, and until then the relieving entry stays the same. */
  lemma {:induction false} ReliefIsExact(xs: seq<Entry<nat>>, tokens: nat, limit: nat, c: int)
    requires Sorted(xs) && Blocked(xs, tokens, limit)
    ensures Blocked(Drop(xs, c), tokens, limit) <==> c < Relief(xs, tokens, limit)
    ensures c < Relief(xs, tokens, limit) ==> Relief(Drop(xs, c), tokens, limit) == Relief(xs, tokens, limit)
    decreases |xs|
  {
    if xs[0].at > c {
      ReliefIsAnEntry(xs, tokens, limit);
    } else if Blocked(xs[1..], tokens, limit) {
      ReliefIsExact(xs[1..], tokens, limit, c);
    } else {
      UnblockedSuffix(xs[1..], tokens, limit, c);
    }
  }

  lemma TpmWaitShifts(xs: seq<Entry<nat>>, tokens: nat, limits: Limits, now: int, d: nat)
    requires Sorted(xs)
    ensures TpmWait(Drop(xs, now + d - limits.window), tokens, limits, now + d)
         == Max(0, TpmWait(xs, tokens, limits, now) - d)
  {
    if limits.tpm > 0 {
      var c := now + d - limits.window;
      if Blocked(xs, tokens, limits.tpm) {
        ReliefIsExact(xs, tokens, limits.tpm, c);
      } else {
        UnblockedSuffix(xs, tokens, limits.tpm, c);
      }
    }
  }

  lemma RpmWaitShifts(xs: seq<Entry<()>>, limits: Limits, now: int, d: nat)
    requires Sorted(xs)
    ensures RpmWait(Drop(xs, now + d - limits.window), limits, now + d) == Max(0, RpmWait(xs, limits, now) - d)
  {
    var c := now + d - limits.window;
    var m := Dropped(xs, c);
    DropKeepsOrder(xs, c);
    if limits.rpm > 0 && |xs| >= limits.rpm {
      var k := |xs| - limits.rpm;
      if m <= k {
        assert xs[m..][k - m] == xs[k];
      }
    }
  }

  /** Eviction never reaches past the caller. */
  lemma EvictKeepsCaller(s: Server, id: nat, stale: nat)
    requires Rank(s.queue, id) < |s.queue|
    ensures Rank(Evict(s, id, stale).queue, id) < |Evict(s, id, stale).queue|
  {
    var m := StaleAhead(s.queue, s.beats, id, s.now, stale);
    var r := Rank(s.queue, id);
    assert s.queue[m..][r - m].id == id;
  }

  lemma JoinQueues(s: Server, id: nat)
    ensures Rank(Join(s, id).queue, id) < |Join(s, id).queue|
  {
    InsertElements(s.queue, Entry(s.tickets + 1, id, ()));
    RankInIds(Join(s, id).queue, id);
  }

  lemma ArriveIsQueued(limits: Limits, s: Server, id: nat)
    ensures Rank(Arrive(limits, s, id).queue, id) < |Arrive(limits, s, id).queue|
  {
    JoinQueues(Prune(limits, s), id);
    EvictKeepsCaller(Join(Prune(limits, s), id), id, limits.stale);
  }

  lemma ArriveWindows(limits: Limits, s: Server, id: nat)
    ensures Arrive(limits, s, id).rpm == Drop(s.rpm, s.now - limits.window)
    ensures Arrive(limits, s, id).tpm == Drop(s.tpm, s.now - limits.window)
    ensures Arrive(limits, s, id).now == s.now
  {
  }

  lemma HeadStaysHead(limits: Limits, s: Server, id: nat)
    requires s.queue != [] && s.queue[0].id == id
    ensures Arrive(limits, s, id).queue == s.queue
  {
    EvictNothingAtHead(Join(Prune(limits, s), id), id, limits.stale);
  }

  lemma EvictNothingAtHead(s: Server, id: nat, stale: nat)
    requires s.queue != [] && s.queue[0].id == id
    ensures Evict(s, id, stale).queue == s.queue
  {
    assert StaleAhead(s.queue, s.beats, id, s.now, stale) == 0;
  }

  lemma HeadReply(limits: Limits, s: Server, id: nat, tokens: nat)
    requires var a := Arrive(limits, s, id); a.queue != [] && a.queue[0].id == id
    ensures var w := WindowWait(limits, Arrive(limits, s, id), tokens);
            Acquire(limits, s, id, tokens).1 == if w > 0 then Wait(w) else Admitted
  {
  }

  lemma WindowWaitShifts(limits: Limits, s: Server, later: Server, tokens: nat, d: nat)
    requires Sorted(s.rpm) && Sorted(s.tpm) && later.now == s.now + d
    requires later.rpm == Drop(s.rpm, later.now - limits.window)
    requires later.tpm == Drop(s.tpm, later.now - limits.window)
    ensures WindowWait(limits, later, tokens) == Max(0, WindowWait(limits, s, tokens) - d)
  {
    RpmWaitShifts(s.rpm, limits, s.now, d);
    TpmWaitShifts(s.tpm, tokens, limits, s.now, d);
  }

  lemma HeadIsToldToWait(limits: Limits, s: Server, id: nat, tokens: nat, w: int)
    requires Acquire(limits, s, id, tokens).1 == Wait(w)
    ensures var a := Arrive(limits, s, id);
            && Acquire(limits, s, id, tokens).0 == a && w == WindowWait(limits, a, tokens)
            && a.queue != [] && a.queue[0].id == id && a.now == s.now
  {
    ArriveIsQueued(limits, s, id);
  }

  lemma ArriveSorted(limits: Limits, s: Server, id: nat)
    requires Sorted(s.rpm) && Sorted(s.tpm)
    ensures Sorted(Arrive(limits, s, id).rpm) && Sorted(Arrive(limits, s, id).tpm)
  {
    ArriveWindows(limits, s, id);
    DropKeepsOrder(s.rpm, s.now - limits.window);
    DropKeepsOrder(s.tpm, s.now - limits.window);
  }

  /** A head that calls again `d` later finds its wait `d` shorter. */
  lemma NextCall(limits: Limits, a: Server, id: nat, tokens: nat, d: nat)
    requires Sorted(a.rpm) && Sorted(a.tpm) && a.queue != [] && a.queue[0].id == id
    ensures var w := Max(0, WindowWait(limits, a, tokens) - d);
            Acquire(limits, a.(now := a.now + d), id, tokens).1 == if w > 0 then Wait(w) else Admitted
  {
    var later := a.(now := a.now + d);
    HeadStaysHead(limits, later, id);
    ArriveWindows(limits, later, id);
    HeadReply(limits, later, id, tokens);
    WindowWaitShifts(limits, a, Arrive(limits, later, id), tokens, d);
  }

  /** The hint is exact: told to wait `w`, the head is refused at every earlier instant with
      exactly the remaining time, and admitted at `now + w`, if nothing else changes. */
  lemma WaitIsExact(limits: Limits, s: Server, id: nat, tokens: nat, w: int, d: nat)
    requires Sorted(s.rpm) && Sorted(s.tpm)
    requires Acquire(limits, s, id, tokens).1 == Wait(w) && d <= w
    ensures var s1 := Acquire(limits, s, id, tokens).0;
            Acquire(limits, s1.(now := s.now + d), id, tokens).1 == if d < w then Wait(w - d) else Admitted
  {
    HeadIsToldToWait(limits, s, id, tokens, w);
    ArriveSorted(limits, s, id);
    NextCall(limits, Arrive(limits, s, id), id, tokens, d);
  }
}
