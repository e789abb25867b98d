/** The gateway's side of the throttle: the polling loop that waits for a slot, and the slot. */
module ProviderSlots {
  import opened SortedSets
  import opened Numbers
  import opened ProviderThrottle
  import opened ThrottleRuns
  import opened ThrottleFifo
  import opened ThrottleHints
  import opened ThrottleScripts

  const STALE_MS := 5_000
  const QUEUE_POLL_MS := 200
  const MIN_POLL_MS := 20
  const MAX_POLL_MS := 1_000

  /** How long to sleep after a refusal. */
  function PollDelay(reply: Reply): (ms: int)
    ensures MIN_POLL_MS <= ms <= MAX_POLL_MS
    ensures reply.Wait? && reply.ms >= MIN_POLL_MS ==> ms <= reply.ms
  {
    match reply
    case Queued(_) => QUEUE_POLL_MS
    case Wait(ms) => Min(MAX_POLL_MS, Max(MIN_POLL_MS, ms))
    case Admitted => MIN_POLL_MS
  }

  /** A waiter that polls is never stale: until its next poll is due, a refused one is fresh in
      everybody's eyes. */
  lemma PollingKeepsFresh(limits: Limits, s: Server, id: nat, tokens: nat, later: int)
    requires limits.stale >= STALE_MS
    requires Acquire(limits, s, id, tokens).1 != Admitted
    requires later <= s.now + PollDelay(Acquire(limits, s, id, tokens).1)
    ensures !Stale(Acquire(limits, s, id, tokens).0.beats, id, later, limits.stale)
  {
    ArriveBeats(limits, s, id);
  }

  // ---- Others, while this client sleeps --------------------------------------------------------

  /** The ids are fresh UUIDs: nobody else acts for this one. */
  predicate Foreign(op: Op, id: nat) {
    op.Pass? || op.id != id
  }

  /** What others do while the client sleeps until `wake`, and then it wakes. */
  function Sleep(limits: Limits, w: World, ops: seq<Op>, wake: int): World {
    Step(limits, After(limits, w, Clipped(ops, wake)), Pass(wake))
  }

  function Clipped(ops: seq<Op>, wake: int): (clipped: seq<Op>)
    ensures |clipped| == |ops|
    ensures forall i :: 0 <= i < |ops| ==>
              clipped[i] == if ops[i].Pass? then Pass(Min(ops[i].now, wake)) else ops[i]
  {
    seq(|ops|, i requires 0 <= i < |ops| => if ops[i].Pass? then Pass(Min(ops[i].now, wake)) else ops[i])
  }

  lemma {:induction false} NobodyOversleeps(limits: Limits, w: World, ops: seq<Op>, wake: int)
    requires w.server.now <= wake
    requires forall i :: 0 <= i < |ops| ==> ops[i].Pass? ==> ops[i].now <= wake
    ensures After(limits, w, ops).server.now <= wake
    decreases |ops|
  {
    if ops != [] {
      if ops[0].Poll? { AcquireWindows(limits, w.server, ops[0].id, ops[0].tokens); }
      NobodyOversleeps(limits, Step(limits, w, ops[0]), ops[1..], wake);
    }
  }

  /** The books are right, the queue is in order, and this client has no slot yet. */
  ghost predicate Waiting(limits: Limits, w: World, id: nat) {
    && Books(limits, w) && QueueOk(w.server) && DistinctIds(w.server.queue)
    && id !in w.admitted
  }

  lemma UnqueueDistinct(s: Server, x: nat)
    requires DistinctIds(s.queue)
    ensures DistinctIds(Unqueue(s, x).queue)
  {
    if Rank(s.queue, x) < |s.queue| { CutKeepsDistinct(s.queue, Rank(s.queue, x)); }
  }

  lemma ArriveDistinct(limits: Limits, s: Server, x: nat)
    requires DistinctIds(s.queue)
    ensures DistinctIds(Arrive(limits, s, x).queue)
  {
    RankInIds(s.queue, x);
    if Rank(s.queue, x) == |s.queue| {
      InsertDistinct(s.queue, Entry(s.tickets + 1, x, ()));
    }
    var j := Join(Prune(limits, s), x);
    SuffixDistinct(j.queue, StaleAhead(j.queue, j.beats, x, s.now, limits.stale));
  }

  lemma StepKeepsWaiting(limits: Limits, w: World, op: Op, id: nat)
    requires Waiting(limits, w, id)
    requires Foreign(op, id) || (op.Poll? && Acquire(limits, w.server, op.id, op.tokens).1 != Admitted)
    ensures Waiting(limits, Step(limits, w, op), id)
  {
    StepBooks(limits, w, op);
    StepQueueOk(limits, w, op);
    StepDistinct(limits, w, op);
  }

  lemma StepDistinct(limits: Limits, w: World, op: Op)
    requires DistinctIds(w.server.queue)
    ensures DistinctIds(Step(limits, w, op).server.queue)
  {
    match op
    case Poll(x, tokens) =>
      ArriveDistinct(limits, w.server, x);
      PollQueue(limits, w.server, x, tokens);
      UnqueueDistinct(Arrive(limits, w.server, x), x);
    case Leave(x) => UnqueueDistinct(w.server, x);
    case GiveBack(_) =>
    case Correct(_, _) =>
    case Pass(_) =>
  }

  lemma {:induction false} RunKeepsWaiting(limits: Limits, w: World, ops: seq<Op>, id: nat)
    requires Waiting(limits, w, id) && forall i :: 0 <= i < |ops| ==> Foreign(ops[i], id)
    ensures Waiting(limits, After(limits, w, ops), id)
    decreases |ops|
  {
    if ops != [] {
      StepKeepsWaiting(limits, w, ops[0], id);
      RunKeepsWaiting(limits, Step(limits, w, ops[0]), ops[1..], id);
    }
  }

  lemma ClippedIsForeign(ops: seq<Op>, wake: int, id: nat)
    requires forall i :: 0 <= i < |ops| ==> Foreign(ops[i], id)
    ensures forall i :: 0 <= i < |ops| ==> Foreign(Clipped(ops, wake)[i], id)
  {
  }

  /** Everybody is awake by then. */
  lemma AwakeBy(limits: Limits, w: World, ops: seq<Op>, wake: int)
    requires w.server.now <= wake
    ensures After(limits, w, Clipped(ops, wake)).server.now <= wake
  {
    NobodyOversleeps(limits, w, Clipped(ops, wake), wake);
  }

  lemma WakeKeepsWaiting(limits: Limits, w: World, wake: int, id: nat)
    requires Waiting(limits, w, id) && w.server.now <= wake
    ensures Waiting(limits, Step(limits, w, Pass(wake)), id) && Step(limits, w, Pass(wake)).server.now == wake
  {
    StepKeepsWaiting(limits, w, Pass(wake), id);
  }

  lemma SleepKeepsWaiting(limits: Limits, w: World, ops: seq<Op>, wake: int, id: nat)
    requires Waiting(limits, w, id) && w.server.now <= wake
    requires forall i :: 0 <= i < |ops| ==> Foreign(ops[i], id)
    ensures Waiting(limits, Sleep(limits, w, ops, wake), id) && Sleep(limits, w, ops, wake).server.now == wake
  {
    ClippedIsForeign(ops, wake, id);
    RunKeepsWaiting(limits, w, Clipped(ops, wake), id);
    AwakeBy(limits, w, ops, wake);
    WakeKeepsWaiting(limits, After(limits, w, Clipped(ops, wake)), wake, id);
  }

  /** A head that sleeps is still the head when it wakes, if others only call behind it. */
  lemma SleepHoldsHead(limits: Limits, w: World, ops: seq<Op>, wake: int, id: nat)
    requires HoldsHead(limits, w.server, w.server, id) && w.server.now <= wake
    requires wake <= Seen(w.server.beats, id) + limits.stale
    requires forall i :: 0 <= i < |ops| ==> Behind(ops[i], id)
    ensures HoldsHead(limits, w.server, Sleep(limits, w, ops, wake).server, id)
  {
    var clipped := Clipped(ops, wake);
    AwakeBy(limits, w, ops, wake);
    BehindRun(limits, w.server, w, clipped, id);
    BehindStep(limits, w.server, After(limits, w, clipped), Pass(wake), id);
  }

  // ---- The polling loop ----------------------------------------------------------------------

  datatype Outcome = Slot(waited: nat) | TimedOut(retryAfter: int)

  ghost predicate AllForeign(traffic: nat -> seq<Op>, id: nat) {
    forall n, i :: 0 <= i < |traffic(n)| ==> Foreign(traffic(n)[i], id)
  }

  ghost predicate AllBehind(traffic: nat -> seq<Op>, id: nat) {
    forall n, i :: 0 <= i < |traffic(n)| ==> Behind(traffic(n)[i], id)
  }

  /** A head on its way to a slot that is due at a known instant. */
  ghost predicate Expecting(limits: Limits, s: Server, id: nat, tokens: nat, b: Server, wait: int, due: int) {
    && ToldToWait(limits, b, id, tokens, wait) && b.now + wait == due
    && HoldsHead(limits, b, s, id) && b.now < s.now < due + MIN_POLL_MS
  }

  /** What holds whenever the loop is about to poll; `first` is the script's first answer. */
  ghost predicate InLoop(limits: Limits, w0: World, first: Reply, id: nat, tokens: nat, quiet: bool, w: World,
                         b: Server, wait: int) {
    && Waiting(limits, w, id) && w.server.now >= w0.server.now
    && (w == w0 ==> first == Acquire(limits, w.server, id, tokens).1)
    && (w != w0 ==>
          && w.server.now > w0.server.now && first != Admitted
          && (quiet && first.Wait? ==>
                Expecting(limits, w.server, id, tokens, b, wait, w0.server.now + first.ms)))
  }

  /** The answer of a poll in the loop: what is left of the first wait, for a quiet head. */
  ghost predicate Answered(limits: Limits, w0: World, first: Reply, id: nat, tokens: nat, quiet: bool, w: World,
                           w': World, reply: Reply) {
    && w'.server.now == w.server.now
    && (first == Admitted ==> w == w0 && reply == Admitted)
    && (reply != Admitted ==> Waiting(limits, w', id))
    && (quiet && first.Wait? ==>
          var due := w0.server.now + first.ms;
          && reply == (if w.server.now < due then Wait(due - w.server.now) else Admitted)
          && w.server.now < due + MIN_POLL_MS
          && (reply.Wait? ==> ToldToWait(limits, w'.server, id, tokens, reply.ms)))
  }

  lemma PollReply(limits: Limits, w0: World, first: Reply, id: nat, tokens: nat, quiet: bool, w: World, b: Server,
                  wait: int)
    requires InLoop(limits, w0, first, id, tokens, quiet, w, b, wait)
    ensures Answered(limits, w0, first, id, tokens, quiet, w, Step(limits, w, Poll(id, tokens)),
                     Acquire(limits, w.server, id, tokens).1)
  {
    AcquireWindows(limits, w.server, id, tokens);
    if Acquire(limits, w.server, id, tokens).1 != Admitted { RefusedPoll(limits, w, id, tokens); }
    WindowsAreSorted(limits, w);
    if quiet && first.Wait? {
      if w == w0 {
        RefusedHead(limits, w.server, id, tokens, first.ms);
      } else {
        NextPoll(limits, b, w.server, id, tokens, wait);
      }
    }
  }

  lemma OwnHead(limits: Limits, s: Server, id: nat, tokens: nat, wait: int)
    requires ToldToWait(limits, s, id, tokens, wait) && QueueOk(s)
    ensures HoldsHead(limits, s, s, id)
  {
  }

  lemma RefusedPoll(limits: Limits, w: World, id: nat, tokens: nat)
    requires Waiting(limits, w, id) && Acquire(limits, w.server, id, tokens).1 != Admitted
    ensures var w' := Step(limits, w, Poll(id, tokens));
            Waiting(limits, w', id) && w'.server == Acquire(limits, w.server, id, tokens).0
  {
    StepKeepsWaiting(limits, w, Poll(id, tokens), id);
  }

  lemma SleepExpecting(limits: Limits, w: World, id: nat, tokens: nat, wait: int, ops: seq<Op>, sleep: int)
    requires limits.stale >= STALE_MS && Waiting(limits, w, id) && ToldToWait(limits, w.server, id, tokens, wait)
    requires 0 < sleep <= PollDelay(Wait(wait))
    requires forall i :: 0 <= i < |ops| ==> Foreign(ops[i], id) && Behind(ops[i], id)
    ensures var slept := Sleep(limits, w, ops, w.server.now + sleep);
            Expecting(limits, slept.server, id, tokens, w.server, wait, w.server.now + wait)
  {
    OwnHead(limits, w.server, id, tokens, wait);
    SleepHoldsHead(limits, w, ops, w.server.now + sleep, id);
    SleepKeepsWaiting(limits, w, ops, w.server.now + sleep, id);
  }

  lemma BackInLoop(limits: Limits, w0: World, first: Reply, id: nat, tokens: nat, quiet: bool, w: World, b: Server,
                   wait: int)
    requires Waiting(limits, w, id) && w.server.now > w0.server.now && first != Admitted
    requires quiet && first.Wait? ==> Expecting(limits, w.server, id, tokens, b, wait, w0.server.now + first.ms)
    ensures InLoop(limits, w0, first, id, tokens, quiet, w, b, wait)
  {
  }

  /** One more round: a refused poll, and a sleep no longer than the poll interval. */
  lemma KeepPolling(limits: Limits, w0: World, first: Reply, id: nat, tokens: nat, quiet: bool, w: World, w': World,
                    reply: Reply, ops: seq<Op>, sleep: int)
    requires limits.stale >= STALE_MS && w.server.now >= w0.server.now
    requires Answered(limits, w0, first, id, tokens, quiet, w, w', reply)
    requires reply != Admitted && 0 < sleep <= PollDelay(reply)
    requires forall i :: 0 <= i < |ops| ==> Foreign(ops[i], id) && (quiet ==> Behind(ops[i], id))
    ensures var slept := Sleep(limits, w', ops, w.server.now + sleep);
            && slept.server.now == w.server.now + sleep
            && InLoop(limits, w0, first, id, tokens, quiet, slept, w'.server, if reply.Wait? then reply.ms else 0)
  {
    SleepKeepsWaiting(limits, w', ops, w.server.now + sleep, id);
    if quiet && first.Wait? {
      SleepExpecting(limits, w', id, tokens, reply.ms, ops, sleep);
    }
    BackInLoop(limits, w0, first, id, tokens, quiet, Sleep(limits, w', ops, w.server.now + sleep), w'.server,
               if reply.Wait? then reply.ms else 0);
  }

  /** The caller holds nothing: neither a place in the queue nor a slot. */
  ghost predicate LeftCleanly(limits: Limits, w: World, id: nat) {
    && Waiting(limits, w, id) && id !in Ids(w.slots)
    && id !in w.server.beats && id !in Ids(w.server.queue)
  }

  lemma GiveUp(limits: Limits, w: World, id: nat, tokens: nat)
    requires Waiting(limits, w, id) && Acquire(limits, w.server, id, tokens).1 != Admitted
    ensures LeftCleanly(limits, Step(limits, Step(limits, w, Poll(id, tokens)), Leave(id)), id)
  {
    var w' := Step(limits, w, Poll(id, tokens));
    StepKeepsWaiting(limits, w, Poll(id, tokens), id);
    StepBooks(limits, w', Leave(id));
    StepQueueOk(limits, w', Leave(id));
    StepDistinct(limits, w', Leave(id));
    UnqueueForgets(w'.server, id);
  }

  lemma UnqueueForgets(s: Server, id: nat)
    requires DistinctIds(s.queue)
    ensures id !in Ids(Unqueue(s, id).queue)
  {
    RankInIds(s.queue, id);
    if id in Ids(s.queue) {
      CutForgets(s.queue, Rank(s.queue, id));
    }
  }

  lemma {:induction false} CutForgets(xs: seq<Entry<()>>, r: nat)
    requires DistinctIds(xs) && r < |xs|
    ensures xs[r].id !in Ids(xs[..r] + xs[r + 1..])
    decreases r
  {
    var ys := xs[..r] + xs[r + 1..];
    if r > 0 {
      assert ys[1..] == xs[1..][..r - 1] + xs[1..][r..];
      CutForgets(xs[1..], r - 1);
      IdsAreElements(xs[1..]);
      assert xs[r] in xs[1..];
    } else {
      assert ys == xs[1..];
    }
  }

  /** What the caller is told, given the script's first answer. */
  ghost predicate Exact(first: Reply, timeout: nat, outcome: Outcome) {
    && (first == Admitted ==> outcome == Slot(0))
    && (first.Wait? && first.ms <= timeout ==> outcome.Slot? && first.ms <= outcome.waited < first.ms + MIN_POLL_MS)
    && (first.Wait? && first.ms > timeout ==> outcome == TimedOut(CeilSeconds(first.ms - timeout)))
  }

  lemma AdmittedExactly(limits: Limits, w0: World, first: Reply, id: nat, tokens: nat, w: World, w': World,
                        timeout: nat)
    requires w0.server.now <= w.server.now <= w0.server.now + timeout
    requires Answered(limits, w0, first, id, tokens, true, w, w', Admitted)
    ensures Exact(first, timeout, Slot(w.server.now - w0.server.now))
  {
  }

  lemma TimesOutExactly(limits: Limits, w0: World, first: Reply, id: nat, tokens: nat, w: World, w': World,
                        reply: Reply, timeout: nat)
    requires w.server.now == w0.server.now + timeout && reply != Admitted
    requires Answered(limits, w0, first, id, tokens, true, w, w', reply)
    ensures Exact(first, timeout, TimedOut(CeilSeconds(if reply.Wait? && reply.ms > 0 then reply.ms else 1_000)))
  {
  }

  lemma AdmittedPoll(limits: Limits, w: World, id: nat, tokens: nat)
    requires id !in w.admitted && Acquire(limits, w.server, id, tokens).1 == Admitted
    ensures id in Step(limits, w, Poll(id, tokens)).admitted
  {
  }

  /** `acquireProviderSlot`, with `traffic(n)` happening during the client's n-th sleep, on a clock
      shared with the server. Whatever others do, the client either gets a slot within its time-out
      or leaves at its deadline holding nothing. And if others only poll and leave behind it, a
      caller told to wait `w` gets its slot exactly when `w` is within its time-out, less than one
      shortest poll interval late; otherwise it is told how long the slot is still away. */
  method AcquireProviderSlot(limits: Limits, w0: World, id: nat, tokens: nat, timeout: nat, traffic: nat -> seq<Op>)
    returns (w: World, outcome: Outcome)
    requires limits.stale >= STALE_MS && Waiting(limits, w0, id) && AllForeign(traffic, id)
    ensures outcome.Slot? ==>
              outcome.waited <= timeout && w.server.now == w0.server.now + outcome.waited && id in w.admitted
    ensures outcome.TimedOut? ==> w.server.now == w0.server.now + timeout && LeftCleanly(limits, w, id)
    ensures AllBehind(traffic, id) ==> Exact(Acquire(limits, w0.server, id, tokens).1, timeout, outcome)
  {
    ghost var quiet := AllBehind(traffic, id);
    var deadline := w0.server.now + timeout;
    w := w0;
    var n := 0;
    ghost var first := Acquire(limits, w0.server, id, tokens).1;
    ghost var b, wait := w0.server, 0;
    while true
      invariant w.server.now <= deadline && InLoop(limits, w0, first, id, tokens, quiet, w, b, wait)
      decreases deadline - w.server.now
    {
      PollReply(limits, w0, first, id, tokens, quiet, w, b, wait);
      var reply := Acquire(limits, w.server, id, tokens).1;
      var polled := Step(limits, w, Poll(id, tokens));
      if reply == Admitted {
        outcome := Slot(w.server.now - w0.server.now);
        AdmittedPoll(limits, w, id, tokens);
        if quiet { AdmittedExactly(limits, w0, first, id, tokens, w, polled, timeout); }
        w := polled;
        return;
      }
      var remaining := deadline - w.server.now;
      if remaining <= 0 {
        outcome := TimedOut(CeilSeconds(if reply.Wait? && reply.ms > 0 then reply.ms else 1_000));
        GiveUp(limits, w, id, tokens);
        if quiet { TimesOutExactly(limits, w0, first, id, tokens, w, polled, reply, timeout); }
        w := Step(limits, polled, Leave(id));
        return;
      }
      var sleep := Min(PollDelay(reply), remaining);
      KeepPolling(limits, w0, first, id, tokens, quiet, w, polled, reply, traffic(n), sleep);
      b, wait := polled.server, if reply.Wait? then reply.ms else 0;
      w := Sleep(limits, polled, traffic(n), w.server.now + sleep);
      n := n + 1;
    }
  }

  // ---- The slot ------------------------------------------------------------------------------

  /** What an admitted request holds: its id and the amount it has on record. */
  class ProviderSlot {
    const id: nat
    var settledTokens: nat

    constructor (id: nat, tokens: nat)
      ensures this.id == id && settledTokens == tokens
    {
      this.id := id;
      settledTokens := tokens;
    }

    /** Gives the slot back under the amount that is recorded now, not the one first estimated. */
    method Release(t: Throttle)
      modifies t`rpm, t`tpm
      ensures t.View() == ProviderThrottle.Release(old(t.View()), id, settledTokens)
    {
      t.ReleaseScript(id, settledTokens);
    }

    method Settle(t: Throttle, actual: nat)
      modifies t`tpm, this`settledTokens
      ensures settledTokens == actual
      ensures t.View() == if actual == old(settledTokens) then old(t.View())
                          else ProviderThrottle.Settle(old(t.View()), id, old(settledTokens), actual)
    {
      if actual == settledTokens {
        return;
      }
      t.SettleScript(id, settledTokens, actual);
      settledTokens := actual;
    }
  }
}
