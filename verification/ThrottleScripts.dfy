/** The throttle's scripts as loops over the stored sets, proved to perform the atomic steps of
    module ProviderThrottle. */
module ThrottleScripts {
  import opened SortedSets
  import opened Numbers
  import opened ProviderThrottle

  lemma {:induction false} TotalSplits(xs: seq<Entry<nat>>, i: nat)
    requires i <= |xs|
    ensures Total(xs) == Total(xs[..i]) + Total(xs[i..])
    decreases i
  {
    if i > 0 {
      assert xs[..i][1..] == xs[1..][..i - 1] && xs[i..] == xs[1..][i - 1..];
      TotalSplits(xs[1..], i - 1);
    } else {
      assert xs[0..] == xs;
    }
  }

  lemma TotalStep(xs: seq<Entry<nat>>, i: nat)
    requires i < |xs|
    ensures Total(xs[..i + 1]) == Total(xs[..i]) + xs[i].value
    ensures Total(xs[i..]) == xs[i].value + Total(xs[i + 1..])
  {
    TotalSplits(xs, i);
    TotalSplits(xs, i + 1);
    assert xs[i..][1..] == xs[i + 1..];
  }

  /** The token part of the script: total the window, then free entries oldest first until the
      rest makes room. */
  method ComputeTpmWait(xs: seq<Entry<nat>>, tokens: nat, limits: Limits, now: int) returns (wait: int)
    ensures wait == TpmWait(xs, tokens, limits, now)
  {
    wait := 0;
    if limits.tpm == 0 {
      return;
    }
    var used := 0;
    for i := 0 to |xs|
      invariant used == Total(xs[..i])
    {
      TotalStep(xs, i);
      used := used + xs[i].value;
    }
    assert xs[..|xs|] == xs;
    if used > 0 && used + tokens > limits.tpm {
      var freed := 0;
      var i := 0;
      assert xs[0..] == xs;
      while i < |xs|
        invariant 0 <= i <= |xs| && freed == Total(xs[..i])
        invariant Blocked(xs[i..], tokens, limits.tpm)
        invariant Relief(xs[i..], tokens, limits.tpm) == Relief(xs, tokens, limits.tpm)
      {
        TotalStep(xs, i);
        TotalSplits(xs, i + 1);
        assert xs[i..][1..] == xs[i + 1..];
        freed := freed + xs[i].value;
        if used - freed + tokens <= limits.tpm || used - freed == 0 {
          wait := Max(wait, xs[i].at + limits.window - now);
          return;
        }
        i := i + 1;
      }
    }
  }

  method ComputeRpmWait(xs: seq<Entry<()>>, limits: Limits, now: int) returns (wait: int)
    ensures wait == RpmWait(xs, limits, now)
  {
    wait := 0;
    if limits.rpm > 0 {
      var count := |xs|;
      if count >= limits.rpm {
        var entry := xs[count - limits.rpm];
        wait := Max(wait, entry.at + limits.window - now);
      }
    }
  }

  /** The head's heartbeat is still there when its turn to be checked comes. */
  lemma HeadLookup(queue: seq<Entry<()>>, beats: map<nat, int>, i: nat)
    requires DistinctIds(queue) && i < |queue|
    ensures var left := beats - Ids(queue[..i]);
            && Seen(left, queue[i].id) == Seen(beats, queue[i].id)
            && left - {queue[i].id} == beats - Ids(queue[..i + 1])
  {
    IdsOfPrefix(queue, i);
  }

  /** A stale head that is not the caller is part of the prefix to evict. */
  lemma StaleAheadBeyond(queue: seq<Entry<()>>, beats: map<nat, int>, id: nat, now: int, stale: nat, i: nat)
    requires i < |queue| && i <= StaleAhead(queue, beats, id, now, stale)
    requires queue[i].id != id && Stale(beats, queue[i].id, now, stale)
    ensures i < StaleAhead(queue, beats, id, now, stale)
  {
  }

  /** The `while true` loop that throws out unresponsive heads. */
  method DropStaleHeads(q0: seq<Entry<()>>, b0: map<nat, int>, id: nat, now: int, stale: nat)
    returns (queue: seq<Entry<()>>, beats: map<nat, int>)
    requires DistinctIds(q0)
    ensures var m := StaleAhead(q0, b0, id, now, stale);
            queue == q0[m..] && beats == b0 - Ids(q0[..m])
  {
    queue, beats := q0, b0;
    ghost var m := StaleAhead(q0, b0, id, now, stale);
    ghost var i := 0;
    assert q0[..0] == [] && q0[0..] == q0 && b0 - {} == b0;
    while true
      invariant 0 <= i <= m && queue == q0[i..] && beats == b0 - Ids(q0[..i])
      decreases |queue|
    {
      if queue == [] {
        break;
      }
      var head := queue[0].id;
      HeadLookup(q0, b0, i);
      if head == id {
        break;
      }
      var seen := if head in beats then beats[head] else 0;
      if seen >= now - stale {
        break;
      }
      StaleAheadBeyond(q0, b0, id, now, stale, i);
      queue := queue[1..];
      beats := beats - {head};
      i := i + 1;
    }
  }

  lemma {:induction false} SuffixDistinct(xs: seq<Entry<()>>, i: nat)
    requires DistinctIds(xs) && i <= |xs|
    ensures DistinctIds(xs[i..])
    decreases i
  {
    if i > 0 {
      assert xs[i..] == xs[1..][i - 1..];
      SuffixDistinct(xs[1..], i - 1);
    } else {
      assert xs[0..] == xs;
    }
  }

  class Throttle {
    const limits: Limits
    var now: int
    var rpm: seq<Entry<()>>
    var tpm: seq<Entry<nat>>
    var queue: seq<Entry<()>>
    var beats: map<nat, int>
    var tickets: int

    ghost function View(): Server
      reads this
    {
      Server(now, rpm, tpm, queue, beats, tickets)
    }

    constructor (limits: Limits, start: int)
      ensures this.limits == limits && View() == Server(start, [], [], [], map[], 0)
    {
      this.limits := limits;
      now, rpm, tpm, queue, beats, tickets := start, [], [], [], map[], 0;
    }

    /** A sorted set holds a member once. */
    predicate Valid()
      reads this
    {
      DistinctIds(queue)
    }

    method EvictStale(id: nat)
      requires Valid()
      modifies this`queue, this`beats
      ensures View() == Evict(old(View()), id, limits.stale) && Valid()
    {
      ghost var m := StaleAhead(queue, beats, id, now, limits.stale);
      SuffixDistinct(queue, m);
      queue, beats := DropStaleHeads(queue, beats, id, now, limits.stale);
    }

    /** Registration: a ticket unless one is held, and a heartbeat. */
    method Register(id: nat)
      requires Valid()
      modifies this`queue, this`beats, this`tickets
      ensures View() == Join(old(View()), id) && Valid()
    {
      RankInIds(queue, id);
      if Rank(queue, id) == |queue| {
        tickets := tickets + 1;
        InsertDistinct(queue, Entry(tickets, id, ()));
        queue := Insert(queue, Entry(tickets, id, ()));
      }
      beats := beats[id := now];
    }

    method LeaveQueue(id: nat)
      requires Valid()
      modifies this`queue, this`beats
      ensures View() == Unqueue(old(View()), id) && Valid()
    {
      var r := Rank(queue, id);
      if r < |queue| {
        CutKeepsDistinct(queue, r);
        queue := queue[..r] + queue[r + 1..];
      }
      beats := beats - {id};
    }

    /** The whole `ACQUIRE_SCRIPT`. */
    method AcquireScript(id: nat, tokens: nat) returns (reply: Reply)
      requires Valid()
      modifies this
      ensures (View(), reply) == Acquire(limits, old(View()), id, tokens) && Valid()
    {
      rpm := Drop(rpm, now - limits.window);
      tpm := Drop(tpm, now - limits.window);
      Register(id);
      EvictStale(id);
      assert View() == Arrive(limits, old(View()), id);
      var rank := Rank(queue, id);
      if rank > 0 {
        return Queued(rank);
      }
      var rpmWait := ComputeRpmWait(rpm, limits, now);
      var tpmWait := ComputeTpmWait(tpm, tokens, limits, now);
      var wait := Max(rpmWait, tpmWait);
      if wait > 0 {
        return Wait(wait);
      }
      rpm := Insert(rpm, Entry(now, id, ()));
      tpm := Insert(tpm, Entry(now, id, tokens));
      LeaveQueue(id);
      return Admitted;
    }

    method ReleaseScript(id: nat, tokens: nat)
      modifies this`rpm, this`tpm
      ensures View() == Release(old(View()), id, tokens)
    {
      rpm := Remove(rpm, id, ());
      tpm := Remove(tpm, id, tokens);
    }

    /** Re-enters the member under its new amount at the score it had. */
    method SettleScript(id: nat, recorded: nat, actual: nat)
      modifies this`tpm
      ensures View() == Settle(old(View()), id, recorded, actual)
    {
      var r := Rank(tpm, id);
      if r < |tpm| && tpm[r].value == recorded {
        var score := tpm[r].at;
        tpm := Remove(tpm, id, recorded);
        tpm := Insert(tpm, Entry(score, id, actual));
      }
    }
  }

  lemma {:induction false} CutKeepsDistinct(xs: seq<Entry<()>>, r: nat)
    requires DistinctIds(xs) && r < |xs|
    ensures DistinctIds(xs[..r] + xs[r + 1..]) && Ids(xs[..r] + xs[r + 1..]) <= Ids(xs)
    decreases r
  {
    var ys := xs[..r] + xs[r + 1..];
    if r > 0 {
      assert ys[1..] == xs[1..][..r - 1] + xs[1..][r..];
      CutKeepsDistinct(xs[1..], r - 1);
    } else {
      assert ys == xs[1..];
    }
  }
}
