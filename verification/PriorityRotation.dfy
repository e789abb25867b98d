/** The 4:2:1 rotation over three priority queues, for pulls that meet no malformed message. */
module PriorityRotation {

  /** 0 = high, 1 = medium, 2 = low. */
  type Level = l: nat | l < 3 witness 0

  const SLOTS: seq<Level> := [0, 0, 0, 0, 1, 1, 2]

  function PrioritySlot(cursor: nat, offset: nat): Level {
    SLOTS[(cursor + offset) % 7]
  }

  function AdvanceCursor(cursor: nat, offset: nat): nat {
    (cursor + offset + 1) % 7
  }

  /** One pull probes seven slots in order; `ready[o]` says whether the queue probed at offset
      `o` had a message at that moment. */
  type Probes = r: seq<bool> | |r| == 7 witness [false, false, false, false, false, false, false]

  /** Offset of the first probe that finds a message, or 7. */
  function FirstHit(ready: Probes, from: nat := 0): (o: nat)
    requires from <= 7
    ensures from <= o <= 7
    ensures forall i :: from <= i < o ==> !ready[i]
    ensures o < 7 ==> ready[o]
    decreases 7 - from
  {
    if from == 7 || ready[from] then from else FirstHit(ready, from + 1)
  }

  function NextCursor(cursor: nat, ready: Probes): nat {
    var o := FirstHit(ready);
    if o == 7 then cursor else AdvanceCursor(cursor, o)
  }

  /** The pull takes a message from `level`. */
  predicate Serves(cursor: nat, ready: Probes, level: Level) {
    var o := FirstHit(ready);
    o < 7 && PrioritySlot(cursor, o) == level
  }

  /** `level` was found non-empty whenever it was probed. */
  predicate StaysReady(cursor: nat, ready: Probes, level: Level) {
    forall o :: 0 <= o < 7 && PrioritySlot(cursor, o) == level ==> ready[o]
  }

  /** Distance from the cursor to the level's next slot. */
  function Gap(cursor: nat, level: Level): (d: nat)
    requires cursor < 7
    ensures d < 7 && PrioritySlot(cursor, d) == level
    ensures forall i :: 0 <= i < d ==> PrioritySlot(cursor, i) != level
  {
    match level
    case 0 => if cursor < 4 then 0 else 7 - cursor
    case 1 => if cursor < 4 then 4 - cursor else if cursor < 6 then 0 else 5
    case _ => 6 - cursor
  }

  /** How often a waiting level can be passed over at most: 3, 5 or 6 times. */
  function Patience(level: Level): nat {
    match level case 0 => 3 case 1 => 5 case _ => 6
  }

  lemma PassedOverComesCloser(cursor: nat, ready: Probes, level: Level)
    requires cursor < 7 && StaysReady(cursor, ready, level) && !Serves(cursor, ready, level)
    ensures NextCursor(cursor, ready) < 7
    ensures Gap(NextCursor(cursor, ready), level) < Gap(cursor, level)
  {
    var o := FirstHit(ready);
    var d := Gap(cursor, level);
    assert o < d;
  }

  /** `level` stays non-empty through the pulls and none of them takes from it. */
  predicate PassedOver(cursor: nat, pulls: seq<Probes>, level: Level)
    decreases |pulls|
  {
    pulls != [] ==>
      && StaysReady(cursor, pulls[0], level) && !Serves(cursor, pulls[0], level)
      && PassedOver(NextCursor(cursor, pulls[0]), pulls[1..], level)
  }

  /** No starvation: from any cursor and whatever the other queues do, a level that stays
      non-empty is passed over by at most as many pulls in a row as slots separate it from the
      cursor: never more than 3 for high, 5 for medium, 6 for low. */
  lemma {:induction false} PassedOverAtMost(cursor: nat, pulls: seq<Probes>, level: Level)
    requires cursor < 7 && PassedOver(cursor, pulls, level)
    ensures |pulls| <= Gap(cursor, level) <= Patience(level)
    decreases |pulls|
  {
    if pulls != [] {
      PassedOverComesCloser(cursor, pulls[0], level);
      PassedOverAtMost(NextCursor(cursor, pulls[0]), pulls[1..], level);
    }
  }

  const ALL_READY: Probes := [true, true, true, true, true, true, true]

  /** The bound is reached from every cursor: with all queues busy the level waits its full gap. */
  lemma {:induction false} GapIsReached(cursor: nat, level: Level) returns (pulls: seq<Probes>)
    requires cursor < 7
    ensures PassedOver(cursor, pulls, level) && |pulls| == Gap(cursor, level)
    decreases Gap(cursor, level)
  {
    pulls := [];
    if Gap(cursor, level) > 0 {
      assert FirstHit(ALL_READY) == 0;
      var next := NextCursor(cursor, ALL_READY);
      PassedOverComesCloser(cursor, ALL_READY, level);
      var rest := GapIsReached(next, level);
      pulls := [ALL_READY] + rest;
      assert pulls[1..] == rest;
    }
  }

  /** How many of `n` pulls take from `level` when no queue is ever empty. */
  function Served(cursor: nat, n: nat, level: Level): nat
    decreases n
  {
    if n == 0 then 0
    else (if Serves(cursor, ALL_READY, level) then 1 else 0) + Served(NextCursor(cursor, ALL_READY), n - 1, level)
  }

  function Share(level: Level): nat {
    match level case 0 => 4 case 1 => 2 case _ => 1
  }

  function Successor(cursor: nat): nat
    requires cursor < 7
  {
    if cursor == 6 then 0 else cursor + 1
  }

  /** The cursor after `n` pulls that all hit at once. */
  function Rotate(cursor: nat, n: nat): (c: nat)
    requires cursor < 7
    ensures c < 7
    decreases n
  {
    if n == 0 then cursor else Rotate(Successor(cursor), n - 1)
  }

  lemma ServedStep(cursor: nat, n: nat, level: Level)
    requires cursor < 7 && n > 0
    ensures Served(cursor, n, level)
         == (if SLOTS[cursor] == level then 1 else 0) + Served(Successor(cursor), n - 1, level)
  {
    assert FirstHit(ALL_READY) == 0;
  }

  lemma {:induction false} ServedSplits(cursor: nat, n: nat, m: nat, level: Level)
    requires cursor < 7
    ensures Served(cursor, n + m, level) == Served(cursor, n, level) + Served(Rotate(cursor, n), m, level)
    decreases n
  {
    if n > 0 {
      ServedStep(cursor, n + m, level);
      ServedStep(cursor, n, level);
      ServedSplits(Successor(cursor), n - 1, m, level);
    }
  }

  lemma {:induction false} RotateBy(cursor: nat, n: nat)
    requires cursor + n <= 7 && cursor < 7
    ensures Rotate(cursor, n) == if cursor + n == 7 then 0 else cursor + n
    decreases n
  {
    if n > 0 && cursor < 6 {
      RotateBy(cursor + 1, n - 1);
    }
  }

  lemma {:induction false} RotateSplits(cursor: nat, n: nat, m: nat)
    requires cursor < 7
    ensures Rotate(cursor, n + m) == Rotate(Rotate(cursor, n), m)
    decreases n
  {
    if n > 0 {
      RotateSplits(Successor(cursor), n - 1, m);
    }
  }

  /** Seven pulls come back to the same cursor. */
  lemma FullCircle(cursor: nat)
    requires cursor < 7
    ensures Rotate(cursor, 7) == cursor
  {
    RotateSplits(cursor, 7 - cursor, cursor);
    RotateBy(cursor, 7 - cursor);
    RotateBy(0, cursor);
  }

  /** Seven pulls serve every level its share, wherever they start: moving the start by one slot
      drops that slot at one end and adds it at the other. */
  lemma {:induction false} OneRound(cursor: nat, level: Level)
    requires cursor < 7
    ensures Served(cursor, 7, level) == Share(level)
    decreases cursor
  {
    if cursor == 0 {
      ServedStep(0, 7, level);
      ServedStep(1, 6, level);
      ServedStep(2, 5, level);
      ServedStep(3, 4, level);
      ServedStep(4, 3, level);
      ServedStep(5, 2, level);
      ServedStep(6, 1, level);
    } else {
      OneRound(cursor - 1, level);
      FullCircle(cursor - 1);
      ServedSplits(cursor - 1, 7, 1, level);
      ServedStep(cursor - 1, 8, level);
      ServedStep(cursor - 1, 1, level);
    }
  }

  /** Exact shares: while all queues stay non-empty, any 7k pulls from any cursor take exactly
      4k from high, 2k from medium and k from low. */
  lemma {:induction false} ExactShares(cursor: nat, k: nat, level: Level)
    requires cursor < 7
    ensures Served(cursor, 7 * k, level) == k * Share(level)
    decreases k
  {
    if k > 0 {
      var before := k - 1;
      assert 7 * k == 7 + 7 * before && k * Share(level) == Share(level) + before * Share(level);
      ServedSplits(cursor, 7, 7 * before, level);
      OneRound(cursor, level);
      FullCircle(cursor);
      ExactShares(cursor, before, level);
    }
  }
}
