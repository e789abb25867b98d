/** The Redis lists behind one resource pool and the commands workers run on them. Producers push
    at the front of a queue, workers take from its back. */
module TaskQueues {
  import opened PriorityRotation

  /** A raw message; `valid` says whether it parses as a task. */
  datatype Message = Message(raw: nat, valid: bool)

  datatype Lists = Lists(queue: seq<Message>, processing: seq<Message>, dead: seq<Message>)

  /** `LREM list 1 m`. */
  function RemoveOne(list: seq<Message>, m: Message): seq<Message> {
    if list == [] then []
    else if list[0] == m then list[1..]
    else [list[0]] + RemoveOne(list[1..], m)
  }

  /** `LREM list 0 m`. */
  function RemoveAll(list: seq<Message>, m: Message): seq<Message> {
    if list == [] then []
    else if list[0] == m then RemoveAll(list[1..], m)
    else [list[0]] + RemoveAll(list[1..], m)
  }

  /** `RPOPLPUSH queue processing`. */
  function Take(l: Lists): Lists
    requires l.queue != []
  {
    var m := l.queue[|l.queue| - 1];
    l.(queue := l.queue[..|l.queue| - 1], processing := [m] + l.processing)
  }

  function Bury(l: Lists, m: Message): Lists {
    l.(dead := [m] + l.dead)
  }

  function Forget(l: Lists, m: Message): Lists {
    l.(processing := RemoveOne(l.processing, m))
  }

  /** Which of the two commands on a malformed message take effect: the push to the dead list and
      the removal from processing. The second is sent whatever became of the first. */
  datatype Link = Link(pushed: bool, removed: bool)

  function Discard(l: Lists, m: Message, link: Link): Lists {
    var l' := if link.pushed then Bury(l, m) else l;
    if link.removed then Forget(l', m) else l'
  }

  predicate Listed(l: Lists, m: Message) {
    m in l.queue || m in l.processing || m in l.dead
  }

  /** When a discarded message survives: its push took effect, or its removal did not, or there is
      another copy of it. */
  lemma DiscardedSurvivesIff(l: Lists, m: Message, link: Link)
    requires m in l.processing
    ensures Listed(Discard(l, m, link), m) <==> link.pushed || !link.removed || Listed(Forget(l, m), m)
  {
  }

  /** The requeue script. */
  function Requeue(l: Lists, m: Message): Lists {
    if m in l.processing then l.(processing := RemoveOne(l.processing, m), queue := [m] + l.queue) else l
  }

  /** The platform-error retry script, while retries are left. */
  function Retry(l: Lists, m: Message): Lists {
    if m in l.processing then l.(processing := RemoveAll(l.processing, m), queue := [m] + l.queue) else l
  }

  // ---- Pulling over the rotation ----------------------------------------------------------------

  type Pool = p: seq<Lists> | |p| == 3 witness [Lists([], [], []), Lists([], [], []), Lists([], [], [])]

  datatype Pulled = Nothing | Task(level: Level, message: Message)

  /** The probe loop from `offset` on; `links` is how the commands on a malformed message met at
      an offset fare. A malformed message advances the cursor and the loop goes
      on with the next offset counted from the new cursor. */
  function PullFrom(pool: Pool, cursor: nat, offset: nat, links: nat -> Link): (Pool, nat, Pulled)
    requires offset <= 7
    decreases 7 - offset
  {
    if offset == 7 then (pool, cursor, Nothing) else
    var level := PrioritySlot(cursor, offset);
    if pool[level].queue == [] then PullFrom(pool, cursor, offset + 1, links) else
    var m := pool[level].queue[|pool[level].queue| - 1];
    var taken := Take(pool[level]);
    var cursor' := AdvanceCursor(cursor, offset);
    if m.valid then (pool[level := taken], cursor', Task(level, m))
    else PullFrom(pool[level := Discard(taken, m, links(offset))], cursor', offset + 1, links)
  }

  function Ready(pool: Pool, cursor: nat): Probes {
    seq(7, o requires 0 <= o < 7 => pool[PrioritySlot(cursor, o)].queue != [])
  }

  /** The next message of a level. */
  function Oldest(pool: Pool, level: Level): Message
    requires pool[level].queue != []
  {
    pool[level].queue[|pool[level].queue| - 1]
  }

  /** The message a call meets first is not malformed. */
  predicate MeetsNoMalformed(pool: Pool, cursor: nat) {
    !MeetsMalformed(Probe(pool, cursor, 0))
  }

  lemma SkipsEmptySlot(pool: Pool, cursor: nat, offset: nat, links: nat -> Link)
    requires offset < 7 && !Ready(pool, cursor)[offset]
    ensures PullFrom(pool, cursor, offset, links) == PullFrom(pool, cursor, offset + 1, links)
  {
  }

  lemma {:induction false} SkipsEmptySlots(pool: Pool, cursor: nat, from: nat, hit: nat, links: nat -> Link)
    requires from <= hit <= 7 && forall o :: from <= o < hit ==> !Ready(pool, cursor)[o]
    ensures PullFrom(pool, cursor, from, links) == PullFrom(pool, cursor, hit, links)
    decreases hit - from
  {
    if from < hit {
      SkipsEmptySlot(pool, cursor, from, links);
      SkipsEmptySlots(pool, cursor, from + 1, hit, links);
    }
  }

  /** A call that meets no malformed message is one pull of the rotation: it serves the level of
      the first non-empty slot, takes that level's oldest message, and moves the cursor past it. */
  lemma CleanPullFollowsRotation(pool: Pool, cursor: nat, links: nat -> Link)
    requires cursor < 7 && MeetsNoMalformed(pool, cursor)
    ensures var ready := Ready(pool, cursor);
            var (pool', cursor', pulled) := PullFrom(pool, cursor, 0, links);
            && cursor' == NextCursor(cursor, ready)
            && (forall level: Level :: Serves(cursor, ready, level) <==> pulled.Task? && pulled.level == level)
            && (pulled.Task? ==> pool[pulled.level].queue != [] && pulled.message == Oldest(pool, pulled.level)
                                 && pool' == pool[pulled.level := Take(pool[pulled.level])])
            && (pulled == Nothing ==> pool' == pool)
  {
    SkipsEmptySlots(pool, cursor, 0, FirstHit(Ready(pool, cursor)), links);
  }

  /** Such a call comes back empty-handed exactly when all three queues are empty. */
  lemma CleanPullIsCompleteIff(pool: Pool, cursor: nat, links: nat -> Link)
    requires cursor < 7 && MeetsNoMalformed(pool, cursor)
    ensures PullFrom(pool, cursor, 0, links).2 == Nothing <==> forall level: Level :: pool[level].queue == []
  {
    SkipsEmptySlots(pool, cursor, 0, FirstHit(Ready(pool, cursor)), links);
    var o := FirstHit(Ready(pool, cursor));
    if o == 7 {
      forall level: Level ensures pool[level].queue == [] {
        assert !Ready(pool, cursor)[Gap(cursor, level)];
      }
    } else {
      assert Ready(pool, cursor)[o];
    }
  }

  // ---- Calls that meet malformed messages ------------------------------------------------------

  /** Where the probe loop stands. */
  datatype Probe = Probe(pool: Pool, cursor: nat, offset: nat)

  function Hit(p: Probe): (o: nat)
    requires p.offset <= 7
    ensures p.offset <= o <= 7
  {
    FirstHit(Ready(p.pool, p.cursor), p.offset)
  }

  predicate MeetsMalformed(p: Probe)
    requires p.offset <= 7
  {
    Hit(p) < 7 && !Oldest(p.pool, PrioritySlot(p.cursor, Hit(p))).valid
  }

  /** The loop once the malformed message it meets first is dealt with: met at offset `o`, it goes
      on from offset `o + 1` of a cursor that has itself moved by `o + 1`. */
  function PastMalformed(p: Probe, links: nat -> Link): (q: Probe)
    requires p.offset <= 7 && MeetsMalformed(p)
    ensures p.offset < q.offset <= 7
  {
    var level := PrioritySlot(p.cursor, Hit(p));
    var l := p.pool[level];
    Probe(p.pool[level := Discard(Take(l), Oldest(p.pool, level), links(Hit(p)))],
          AdvanceCursor(p.cursor, Hit(p)), Hit(p) + 1)
  }

  /** The loop once it has dealt with every malformed message it meets. */
  function Settled(p: Probe, links: nat -> Link): (q: Probe)
    requires p.offset <= 7
    ensures q.offset <= 7 && !MeetsMalformed(q)
    decreases 7 - p.offset
  {
    if MeetsMalformed(p) then Settled(PastMalformed(p, links), links) else p
  }

  lemma PastMalformedPull(p: Probe, links: nat -> Link)
    requires p.offset <= 7 && MeetsMalformed(p)
    ensures var q := PastMalformed(p, links);
            PullFrom(p.pool, p.cursor, p.offset, links) == PullFrom(q.pool, q.cursor, q.offset, links)
  {
    SkipsEmptySlots(p.pool, p.cursor, p.offset, Hit(p), links);
  }

  lemma {:induction false} SettledPull(p: Probe, links: nat -> Link)
    requires p.offset <= 7
    ensures var q := Settled(p, links);
            PullFrom(p.pool, p.cursor, p.offset, links) == PullFrom(q.pool, q.cursor, q.offset, links)
    decreases 7 - p.offset
  {
    if MeetsMalformed(p) {
      PastMalformedPull(p, links);
      SettledPull(PastMalformed(p, links), links);
    }
  }

  /** The level is among the slots that the probe loop still has before it. */
  predicate Probed(p: Probe, level: Level) {
    exists o :: p.offset <= o < 7 && PrioritySlot(p.cursor, o) == level
  }

  lemma FindsTask(pool: Pool, cursor: nat, offset: nat, links: nat -> Link)
    requires offset < 7 && pool[PrioritySlot(cursor, offset)].queue != []
    requires Oldest(pool, PrioritySlot(cursor, offset)).valid
    ensures PullFrom(pool, cursor, offset, links).2
         == Task(PrioritySlot(cursor, offset), Oldest(pool, PrioritySlot(cursor, offset)))
  {
  }

  /** The rest of a call that meets no malformed message any more. */
  lemma RestOfPull(p: Probe, links: nat -> Link)
    requires p.offset <= 7 && !MeetsMalformed(p)
    ensures PullFrom(p.pool, p.cursor, p.offset, links).2
         == if Hit(p) == 7 then Nothing
            else Task(PrioritySlot(p.cursor, Hit(p)), Oldest(p.pool, PrioritySlot(p.cursor, Hit(p))))
  {
    SkipsEmptySlots(p.pool, p.cursor, p.offset, Hit(p), links);
    if Hit(p) < 7 {
      FindsTask(p.pool, p.cursor, Hit(p), links);
    }
  }

  lemma NoHitIff(p: Probe)
    requires p.offset <= 7
    ensures Hit(p) == 7 <==> forall level: Level :: Probed(p, level) ==> p.pool[level].queue == []
  {
    if Hit(p) < 7 {
      assert Probed(p, PrioritySlot(p.cursor, Hit(p)));
    } else {
      forall level: Level | Probed(p, level) ensures p.pool[level].queue == [] {
        var o :| p.offset <= o < 7 && PrioritySlot(p.cursor, o) == level;
        assert !Ready(p.pool, p.cursor)[o];
      }
    }
  }

  /** Any call, whatever it meets: it finds nothing if and only if the queues that it still probes
      are empty, once it has dealt with the malformed messages on its way and skipped the slots
      that each of them cost; otherwise it takes the oldest message of the first one that is not. */
  lemma MalformedPullIsCompleteIff(pool: Pool, cursor: nat, links: nat -> Link)
    ensures PullFrom(pool, cursor, 0, links).2 == Nothing
       <==> var q := Settled(Probe(pool, cursor, 0), links);
            forall level: Level :: Probed(q, level) ==> q.pool[level].queue == []
    ensures var q := Settled(Probe(pool, cursor, 0), links);
            var pulled := PullFrom(pool, cursor, 0, links).2;
            pulled.Task? ==> Probed(q, pulled.level) && q.pool[pulled.level].queue != []
                             && pulled.message == Oldest(q.pool, pulled.level)
  {
    var p := Probe(pool, cursor, 0);
    SettledPull(p, links);
    RestOfPull(Settled(p, links), links);
    NoHitIff(Settled(p, links));
  }

  /** The cursor and the loop offset both move, so slots are skipped. Here the only low slot is
      skipped and its task is not found. */
  lemma MalformedMessageHidesTask(links: nat -> Link)
    ensures var bad := Message(0, false);
            var good := Message(1, true);
            var pool: Pool := [Lists([], [], []), Lists([bad], [], []), Lists([good], [], [])];
            PullFrom(pool, 5, 0, links).2 == Nothing
  {
    var bad := Message(0, false);
    var good := Message(1, true);
    var pool: Pool := [Lists([], [], []), Lists([bad], [], []), Lists([good], [], [])];
    var l := Discard(Take(pool[1]), bad, links(0));
    assert l.queue == [];
    var after: Pool := pool[1 := l];
    assert PullFrom(pool, 5, 0, links) == PullFrom(after, 6, 1, links);
    assert PullFrom(after, 6, 1, links) == PullFrom(after, 6, 2, links);
    assert PullFrom(after, 6, 2, links) == PullFrom(after, 6, 3, links);
    assert PullFrom(after, 6, 3, links) == PullFrom(after, 6, 4, links);
    assert PullFrom(after, 6, 4, links) == PullFrom(after, 6, 5, links);
    assert PullFrom(after, 6, 5, links) == PullFrom(after, 6, 6, links);
    assert PullFrom(after, 6, 6, links) == PullFrom(after, 6, 7, links);
  }

  /** A message put in front of the queue is served after everything in it. */
  lemma {:induction false} FrontIsServedLast(l: Lists, m: Message, l': Lists, n: nat)
    requires l'.queue == [m] + l.queue && n <= |l.queue|
    ensures TakeMany(l', n).queue == [m] + l.queue[..|l.queue| - n]
    ensures n < |l.queue| ==> Oldest([TakeMany(l', n), l, l], 0) == l.queue[|l.queue| - 1 - n]
    decreases n
  {
    if n > 0 {
      FrontIsServedLast(l, m, l', n - 1);
    } else {
      assert l.queue[..|l.queue|] == l.queue;
    }
  }

  /** A message given back, by the requeue script or for a retry, is served after everything that
      waited before it. */
  lemma RequeuedIsServedLast(l: Lists, m: Message, l': Lists, n: nat)
    requires m in l.processing && n <= |l.queue| && (l' == Requeue(l, m) || l' == Retry(l, m))
    ensures TakeMany(l', n).queue == [m] + l.queue[..|l.queue| - n]
    ensures n < |l.queue| ==> Oldest([TakeMany(l', n), l, l], 0) == l.queue[|l.queue| - 1 - n]
    ensures n == |l.queue| ==> Oldest([TakeMany(l', n), l, l], 0) == m
  {
    FrontIsServedLast(l, m, l', n);
  }

  function TakeMany(l: Lists, n: nat): Lists {
    if n == 0 then l
    else var p := TakeMany(l, n - 1); if p.queue == [] then p else Take(p)
  }

  // ---- The commands as methods ----------------------------------------------------------------

  /** How a command ends: it is confirmed, it is refused or never arrives, or it takes effect but
      the confirmation is lost. */
  datatype Attempt = Confirmed | Failed | Unconfirmed

  class Broker {
    var pool: Pool
    var cursor: nat
    var results: set<nat>
    var fallback: set<nat>

    constructor ()
      ensures pool == [Lists([], [], []), Lists([], [], []), Lists([], [], [])] && cursor == 0
      ensures results == {} && fallback == {}
    {
      pool, cursor, results, fallback := [Lists([], [], []), Lists([], [], []), Lists([], [], [])], 0, {}, {};
    }

    /** Parses a message already moved to processing; a malformed one is pushed to the dead list
        and then removed from processing, and neither command's answer is looked at. */
    method HandlePulled(level: Level, m: Message, link: Link) returns (pulled: Pulled)
      modifies this`pool
      ensures m.valid ==> pulled == Task(level, m) && pool == old(pool)
      ensures !m.valid ==> pulled == Nothing && pool == old(pool)[level := Discard(old(pool)[level], m, link)]
    {
      if m.valid {
        return Task(level, m);
      }
      if link.pushed {
        pool := pool[level := Bury(pool[level], m)];
      }
      if link.removed {
        pool := pool[level := Forget(pool[level], m)];
      }
      return Nothing;
    }

    method TryPullTaskPriority(links: nat -> Link) returns (pulled: Pulled)
      modifies this`pool, this`cursor
      ensures (pool, cursor, pulled) == PullFrom(old(pool), old(cursor), 0, links)
    {
      for offset := 0 to 7
        invariant PullFrom(pool, cursor, offset, links) == PullFrom(old(pool), old(cursor), 0, links)
      {
        var level := PrioritySlot(cursor, offset);
        if pool[level].queue != [] {
          var raw := Oldest(pool, level);
          ghost var before := pool;
          pool := pool[level := Take(pool[level])];
          cursor := AdvanceCursor(cursor, offset);
          pulled := HandlePulled(level, raw, links(offset));
          if pulled.Task? {
            return;
          }
          assert pool == before[level := Discard(Take(before[level]), raw, links(offset))];
        }
      }
      return Nothing;
    }

    method RequeueTask(level: Level, m: Message) returns (moved: bool)
      modifies this`pool
      ensures pool == old(pool)[level := Requeue(old(pool)[level], m)]
      ensures moved <==> m in old(pool)[level].processing
    {
      moved := m in pool[level].processing;
      if moved {
        pool := pool[level := pool[level].(processing := RemoveOne(pool[level].processing, m))];
        pool := pool[level := pool[level].(queue := [m] + pool[level].queue)];
      }
    }

    /** Reports success only for a confirmed removal; a message that is not removed stays in
        processing for the sweeper. */
    method AckTask(level: Level, m: Message, attempt: Attempt) returns (ok: bool)
      modifies this`pool
      ensures ok <==> attempt == Confirmed
      ensures pool == if attempt == Failed then old(pool) else old(pool)[level := Forget(old(pool)[level], m)]
    {
      if attempt != Failed {
        pool := pool[level := Forget(pool[level], m)];
      }
      return attempt == Confirmed;
    }

    /** Up to three attempts; success is reported only for a confirmed push, so a caller that
        acknowledges on success has a result on record. A file written after the third failure
        is not success. */
    method PushResultWithRetry(task: nat, attempts: seq<Attempt>, writable: bool) returns (ok: bool)
      requires |attempts| == 3
      modifies this`results, this`fallback
      ensures ok <==> Confirmed in attempts
      ensures results == if attempts == [Failed, Failed, Failed] then old(results) else old(results) + {task}
      ensures fallback == if !ok && writable then old(fallback) + {task} else old(fallback)
    {
      ok := false;
      var i := 0;
      while i < 3 && !ok
        invariant 0 <= i <= 3 && (ok <==> Confirmed in attempts[..i]) && fallback == old(fallback)
        invariant results == old(results) + if (forall j :: 0 <= j < i ==> attempts[j] == Failed) then {} else {task}
      {
        assert attempts[..i + 1] == attempts[..i] + [attempts[i]];
        if attempts[i] != Failed {
          results := results + {task};
        }
        ok := attempts[i] == Confirmed;
        i := i + 1;
      }
      assert attempts[..3] == attempts;
      if !ok && writable {
        fallback := fallback + {task};
      }
    }
  }
}
