/** Timing of the background renewal of one unreleased lease, on a clock shared by the worker
    and the server (equal clock rates). The worker's timers fire on time; the network and the
    server may take any time between a send and its reply, or never answer. */
module LeaseRenewal {

  const TTL := 60_000
  const INTERVAL := 10_000
  const DEADLINE := 5_000

  /** Where the renewal task stands: waiting for a tick, waiting for the server, waiting for the
      server's reply (with what it decided), or finished because the lease is lost. */
  datatype Phase =
    | Sleeping(tick: int)
    | Sent(since: int)
    | Executed(since: int, renewed: bool)
    | Stopped

  datatype Client = Client(now: int, expires: int, lost: bool, phase: Phase)

  /** The lease was granted by the server at `granted`; the worker learned of it at `start`. */
  function Begin(granted: int, start: int): Client {
    Client(start, granted + TTL, false, Sleeping(start + INTERVAL))
  }

  datatype Event =
    | Pass(now: int)   // time passes, but not past the next timer
    | Send             // the tick fires
    | Execute          // the server runs the renewal script
    | Reply            // its answer arrives
    | GiveUp           // an error, or the deadline: the flag is set and the loop ends

  predicate MayPass(c: Client, now: int) {
    && c.now <= now
    && match c.phase
       case Sleeping(tick) => now <= tick
       case Sent(since) => now <= since + DEADLINE
       case Executed(since, _) => now <= since + DEADLINE
       case Stopped => true
  }

  function Step(c: Client, e: Event): Client {
    match e
    case Pass(now) => if MayPass(c, now) then c.(now := now) else c
    case Send =>
      if c.phase.Sleeping? && c.phase.tick == c.now then c.(phase := Sent(c.now)) else c
    case Execute =>
      if !c.phase.Sent? then c
      else if c.expires <= c.now then c.(phase := Executed(c.phase.since, false))
      else c.(expires := c.now + TTL, phase := Executed(c.phase.since, true))
    case Reply =>
      if !c.phase.Executed? then c
      else if c.phase.renewed then c.(phase := Sleeping(c.phase.since + INTERVAL))
      else c.(lost := true, phase := Stopped)
    case GiveUp =>
      if c.phase.Sent? || c.phase.Executed? then c.(lost := true, phase := Stopped) else c
  }

  function After(c: Client, events: seq<Event>): Client
    decreases |events|
  {
    if events == [] then c else After(Step(c, events[0]), events[1..])
  }

  /** A worker that has not set its flag still holds the lease. */
  predicate Sound(c: Client) {
    !c.lost ==> c.now < c.expires
  }

  /** The longest the grant may take to reach the worker. */
  const SLACK := TTL - INTERVAL - DEADLINE

  predicate OnTime(c: Client) {
    match c.phase
    case Sleeping(tick) => !c.lost && c.now <= tick && c.expires > tick + DEADLINE
    case Sent(since) => !c.lost && since <= c.now <= since + DEADLINE && c.expires > since + DEADLINE
    case Executed(since, renewed) =>
      !c.lost && renewed && since <= c.now <= since + DEADLINE && c.expires >= since + TTL
    case Stopped => c.lost
  }

  lemma {:induction false} StaysOnTime(c: Client, events: seq<Event>)
    requires OnTime(c)
    ensures OnTime(After(c, events)) && Sound(After(c, events))
    decreases |events|
  {
    if events != [] {
      StaysOnTime(Step(c, events[0]), events[1..]);
    }
  }

  lemma {:induction false} StaysUnlost(c: Client, events: seq<Event>)
    requires OnTime(c) && !c.lost && GiveUp !in events
    ensures !After(c, events).lost
    decreases |events|
  {
    if events != [] {
      StaysUnlost(Step(c, events[0]), events[1..]);
    }
  }

  /** A lease is lost only by a renewal that fails or misses its deadline: while all are answered in
      time, a worker that learned of its grant in time keeps the lease for ever. */
  lemma AnsweredRenewalsKeepLease(granted: int, start: int, events: seq<Event>)
    requires granted <= start < granted + SLACK && GiveUp !in events
    ensures !After(Begin(granted, start), events).lost
    ensures After(Begin(granted, start), events).now < After(Begin(granted, start), events).expires
  {
    StaysUnlost(Begin(granted, start), events);
    StaysOnTime(Begin(granted, start), events);
  }

  /** The run that exposes a late grant: the first renewal hangs until its deadline. */
  function HangingRenewal(start: int): seq<Event> {
    [Pass(start + INTERVAL), Send, Pass(start + INTERVAL + DEADLINE)]
  }

  /** The flag never lies, for every behaviour of network and server, exactly when the grant
      took less than TTL - INTERVAL - DEADLINE (45 s) to reach the worker: the acquiring call
      itself has no deadline. */
  lemma FlagIsSoundIff(granted: int, start: int)
    requires granted <= start
    ensures (forall events: seq<Event> :: Sound(After(Begin(granted, start), events)))
       <==> start - granted < SLACK
  {
    if start - granted < SLACK {
      forall events: seq<Event> ensures Sound(After(Begin(granted, start), events)) {
        StaysOnTime(Begin(granted, start), events);
      }
    } else {
      var c := Begin(granted, start);
      var e0, e1, e2 := Pass(start + INTERVAL), Send, Pass(start + INTERVAL + DEADLINE);
      AfterAppend(c, [], e0);
      AfterAppend(c, [e0], e1);
      AfterAppend(c, [e0, e1], e2);
      assert HangingRenewal(start) == [e0, e1] + [e2] && [e0, e1] == [e0] + [e1] && [e0] == [] + [e0];
      assert !Sound(After(Begin(granted, start), HangingRenewal(start)));
    }
  }

  /** The renewal task's own variables, and the expiry it keeps alive on the server. */
  class RenewalTask {
    var now: int
    var expires: int
    var lost: bool
    var phase: Phase

    ghost function View(): Client
      reads this
    {
      Client(now, expires, lost, phase)
    }

    constructor (granted: int, start: int)
      ensures View() == Begin(granted, start)
    {
      now, expires, lost := start, granted + TTL, false;
      phase := Sleeping(start + INTERVAL);
    }

    method WaitUntil(t: int)
      requires MayPass(View(), t)
      modifies this`now
      ensures View() == Step(old(View()), Pass(t))
    {
      now := t;
    }

    /** The renewal script on the server. */
    method ExecuteScript()
      requires phase.Sent?
      modifies this`expires, this`phase
      ensures View() == Step(old(View()), Execute)
    {
      if expires <= now {
        phase := Executed(phase.since, false);
      } else {
        expires := now + TTL;
        phase := Executed(phase.since, true);
      }
    }

    method Abandon()
      requires phase.Sent? || phase.Executed?
      modifies this`lost, this`phase
      ensures View() == Step(old(View()), GiveUp)
    {
      lost, phase := true, Stopped;
    }

    /** One turn of the renewal loop. The tick fires; the script would run `delay` later and its
        answer arrive `total` after the tick, unless the deadline comes first. */
    method Turn(delay: nat, total: nat) returns (ghost events: seq<Event>)
      requires phase.Sleeping? && phase.tick == now && !lost && delay <= total
      modifies this
      ensures View() == After(old(View()), events)
      ensures lost <==> total >= DEADLINE || old(expires) <= old(now) + delay
      ensures !lost ==> phase == Sleeping(old(now) + INTERVAL) && expires == old(now) + delay + TTL
    {
      ghost var c := View();
      var since := now;
      phase := Sent(since);
      events := [Send];
      AfterAppend(c, [], Send);
      if delay < DEADLINE {
        WaitUntil(since + delay);
        AfterAppend(c, events, Pass(since + delay));
        events := events + [Pass(since + delay)];
        ExecuteScript();
        AfterAppend(c, events, Execute);
        events := events + [Execute];
      }
      if total >= DEADLINE {
        WaitUntil(since + DEADLINE);
        AfterAppend(c, events, Pass(since + DEADLINE));
        events := events + [Pass(since + DEADLINE)];
        Abandon();
        AfterAppend(c, events, GiveUp);
        events := events + [GiveUp];
      } else {
        WaitUntil(since + total);
        AfterAppend(c, events, Pass(since + total));
        events := events + [Pass(since + total)];
        if phase.renewed {
          phase := Sleeping(since + INTERVAL);
        } else {
          lost, phase := true, Stopped;
        }
        AfterAppend(c, events, Reply);
        events := events + [Reply];
      }
    }
  }

  lemma {:induction false} AfterAppend(c: Client, events: seq<Event>, e: Event)
    ensures After(c, events + [e]) == Step(After(c, events), e)
    decreases |events|
  {
    if events == [] {
      assert [e][1..] == [];
      assert After(Step(c, e), []) == Step(c, e);
      assert [] + [e] == [e];
    } else {
      assert (events + [e])[1..] == events[1..] + [e];
      AfterAppend(Step(c, events[0]), events[1..], e);
    }
  }
}
