/** The per-user claim that keeps one user from having two evaluations at once, across workers
    that crash, restart and see submissions again. One claim key: one (pool, kind, user). */
module UserClaims {
  import opened FiniteSums
  import opened Numbers

  /** A claim's member in the user's sorted set. */
  function Member(instance: string, submission: string): string {
    instance + ":" + submission
  }

  /** Instance ids are `noj-` and hexadecimal digits; they never contain a colon. */
  predicate Plain(instance: string) {
    ':' !in instance
  }

  /** What stands before the first colon is legible. */
  lemma {:induction false} FirstColon(a: string, x: string, b: string, y: string)
    requires Plain(a) && Plain(b) && a + ":" + x == b + ":" + y
    ensures a == b && x == y
  {
    var k := a + ":" + x;
    assert k[0] == (if a == "" then ':' else a[0]) && k[0] == (if b == "" then ':' else b[0]);
    assert a != "" ==> a[0] in a;
    assert b != "" ==> b[0] in b;
    if a == "" {
      assert x == k[1..] && y == k[1..];
    } else {
      assert k[1..] == a[1..] + ":" + x && k[1..] == b[1..] + ":" + y;
      assert forall ch :: ch in a[1..] ==> ch in a;
      assert forall ch :: ch in b[1..] ==> ch in b;
      FirstColon(a[1..], x, b[1..], y);
      assert a == [a[0]] + a[1..] && b == [b[0]] + b[1..];
    }
  }

  /** The purge at start-up goes by the prefix `instance:`, and that is exact: it matches the
      instance's own claims and nobody else's, whatever the submission id looks like. */
  lemma PrefixMatchesOwnClaimsOnly(instance: string, other: string, submission: string)
    requires Plain(instance) && Plain(other)
    ensures instance + ":" <= Member(other, submission) <==> instance == other
  {
    var m := Member(other, submission);
    var p := instance + ":";
    if p <= m {
      assert m == p + m[|p|..];
      FirstColon(instance, m[|p|..], other, submission);
    }
  }

  lemma MembersAreDistinct(i: string, s: string, i': string, s': string)
    requires Plain(i) && Plain(i') && Member(i, s) == Member(i', s')
    ensures i == i' && s == s'
  {
    FirstColon(i, s, i', s');
  }

  // ---- One user's claim set ------------------------------------------------------------------

  type Millis = ms: int | ms > 0 witness 1

  datatype Claims = Claims(scores: map<string, int>, dies: int)

  /** Drop claims as old as the TTL, and claim only if nothing is left. */
  function TryClaim(c: Claims, now: int, ttl: Millis, member: string): (Claims, bool) {
    var left := map m | m in c.scores && c.scores[m] > now - ttl :: c.scores[m];
    if left != map[] then (c.(scores := left), false)
    else (Claims(map[member := now], now + Max(2 * ttl, 60_000)), true)
  }

  function Unclaim(c: Claims, member: string): Claims {
    c.(scores := c.scores - {member})
  }

  const NOBODY: Claims := Claims(map[], 0)

  /** The key as a whole expires, long after its newest claim. */
  function Aged(c: Claims, now: int): Claims {
    if now > c.dies then NOBODY else c
  }

  // ---- Workers -----------------------------------------------------------------------------------

  /** An evaluation, from its claim until its release reaches the server. */
  datatype Holder = Holder(instance: string, submission: string, since: int, running: bool)

  datatype World = World(now: int, claims: Claims, up: set<string>, holders: set<Holder>)

  datatype Op =
    | Claim(instance: string, submission: string)
    | ClaimUnheard(instance: string, submission: string)   // the answer is lost: taken for busy
    | Finish(holder: Holder)
    | Release(holder: Holder)
    | Crash(instance: string)
    | PurgeOne(instance: string, member: string)   // one step of the start-up purge
    | Boot(instance: string)                       // the purge is over, or was given up
    | Pass(now: int)

  function Step(ttl: Millis, w: World, op: Op): World {
    match op
    case Claim(i, s) =>
      if i !in w.up then w else
      var (c, ok) := TryClaim(w.claims, w.now, ttl, Member(i, s));
      w.(claims := c, holders := if ok then w.holders + {Holder(i, s, w.now, true)} else w.holders)
    case ClaimUnheard(i, s) =>
      if i !in w.up then w else w.(claims := TryClaim(w.claims, w.now, ttl, Member(i, s)).0)
    case Finish(h) =>
      if h !in w.holders then w else w.(holders := w.holders - {h} + {h.(running := false)})
    case Release(h) =>
      if h !in w.holders || h.running then w
      else w.(claims := Unclaim(w.claims, Member(h.instance, h.submission)), holders := w.holders - {h})
    case Crash(i) =>
      w.(up := w.up - {i}, holders := set h | h in w.holders && h.instance != i)
    case PurgeOne(i, m) =>
      if i in w.up || !Plain(i) || !(i + ":" <= m) then w else w.(claims := Unclaim(w.claims, m))
    case Boot(i) => if Plain(i) then w.(up := w.up + {i}) else w
    case Pass(now) =>
      if now < w.now then w
      else w.(now := now, claims := Aged(w.claims, now))
  }

  function After(ttl: Millis, w: World, ops: seq<Op>): World
    decreases |ops|
  {
    if ops == [] then w else After(ttl, Step(ttl, w, ops[0]), ops[1..])
  }

  function Initial(now: int): World {
    World(now, Claims(map[], now), {}, {})
  }

  /** Every evaluation is over and released before its claim reaches the TTL. */
  predicate InTime(ttl: Millis, w: World) {
    forall h :: h in w.holders ==> w.now < h.since + ttl
  }

  ghost predicate Timely(ttl: Millis, w: World, ops: seq<Op>)
    decreases |ops|
  {
    InTime(ttl, w) && (ops != [] ==> Timely(ttl, Step(ttl, w, ops[0]), ops[1..]))
  }

  ghost predicate Sound(ttl: Millis, w: World) {
    && (forall i :: i in w.up ==> Plain(i))
    && (forall h :: h in w.holders ==>
          && h.instance in w.up
          && Member(h.instance, h.submission) in w.claims.scores
          && w.claims.scores[Member(h.instance, h.submission)] == h.since)
    && (forall g, h :: g in w.holders && h in w.holders ==> g == h)
    && (forall m :: m in w.claims.scores ==> w.claims.dies >= w.claims.scores[m] + 2 * ttl)
  }

  /** While an evaluation holds its claim within the TTL, nobody else's attempt succeeds. */
  lemma ClaimIsRefused(ttl: Millis, w: World, i: string, s: string, h: Holder)
    requires Sound(ttl, w) && InTime(ttl, w) && h in w.holders
    ensures !TryClaim(w.claims, w.now, ttl, Member(i, s)).1
    ensures TryClaim(w.claims, w.now, ttl, Member(i, s)).0.dies == w.claims.dies
  {
    var left := map m | m in w.claims.scores && w.claims.scores[m] > w.now - ttl :: w.claims.scores[m];
    assert Member(h.instance, h.submission) in left;
  }

  lemma ClaimIsSound(ttl: Millis, w: World, i: string, s: string)
    requires Sound(ttl, w) && InTime(ttl, w)
    ensures Sound(ttl, Step(ttl, w, Claim(i, s)))
  {
    if i in w.up {
      if w.holders == {} {
        var w' := Step(ttl, w, Claim(i, s));
        assert forall h :: h in w'.holders ==> h == Holder(i, s, w.now, true);
      } else {
        var h :| h in w.holders;
        ClaimIsRefused(ttl, w, i, s, h);
      }
    }
  }

  /** A claim nobody knows of: it was stored only if nobody held one, and it shuts everybody out until
      it expires or is purged. */
  lemma UnheardIsSound(ttl: Millis, w: World, i: string, s: string)
    requires Sound(ttl, w) && InTime(ttl, w)
    ensures Sound(ttl, Step(ttl, w, ClaimUnheard(i, s)))
  {
    if i in w.up && w.holders != {} {
      var h :| h in w.holders;
      ClaimIsRefused(ttl, w, i, s, h);
    }
  }

  lemma ReleaseIsSound(ttl: Millis, w: World, h: Holder)
    requires Sound(ttl, w)
    ensures Sound(ttl, Step(ttl, w, Release(h)))
  {
  }

  lemma PurgeIsSound(ttl: Millis, w: World, i: string, m: string)
    requires Sound(ttl, w)
    ensures Sound(ttl, Step(ttl, w, PurgeOne(i, m)))
  {
    if i !in w.up && Plain(i) && i + ":" <= m {
      forall h | h in w.holders ensures Member(h.instance, h.submission) != m {
        PrefixMatchesOwnClaimsOnly(i, h.instance, h.submission);
      }
    }
  }

  lemma StepIsSound(ttl: Millis, w: World, op: Op)
    requires Sound(ttl, w) && InTime(ttl, w) && InTime(ttl, Step(ttl, w, op))
    ensures Sound(ttl, Step(ttl, w, op))
  {
    match op
    case Claim(i, s) => ClaimIsSound(ttl, w, i, s);
    case ClaimUnheard(i, s) => UnheardIsSound(ttl, w, i, s);
    case Release(h) => ReleaseIsSound(ttl, w, h);
    case PurgeOne(i, m) => PurgeIsSound(ttl, w, i, m);
    case Finish(_) =>
    case Crash(_) =>
    case Boot(_) =>
    case Pass(_) =>
  }

  lemma {:induction false} RunIsSound(ttl: Millis, w: World, ops: seq<Op>)
    requires Sound(ttl, w) && Timely(ttl, w, ops)
    ensures Sound(ttl, After(ttl, w, ops))
    decreases |ops|
  {
    if ops != [] {
      StepIsSound(ttl, w, ops[0]);
      RunIsSound(ttl, Step(ttl, w, ops[0]), ops[1..]);
    }
  }

  /** Mutual exclusion: if every evaluation is over and released within the TTL, then whatever
      crashes, lost answers, restarts, purges and redeliveries happen, at most one evaluation of
      the user is in progress at any time. */
  lemma AtMostOneEvaluation(ttl: Millis, start: int, ops: seq<Op>)
    requires Timely(ttl, Initial(start), ops)
    ensures forall g, h :: g in After(ttl, Initial(start), ops).holders && h in After(ttl, Initial(start), ops).holders
              ==> g == h
  {
    RunIsSound(ttl, Initial(start), ops);
  }

  /** An attempt succeeds if and only if every claim on record has reached the TTL, whoever left
      it there: a worker that is still evaluating, or one that crashed. */
  lemma ClaimSucceedsIff(c: Claims, now: int, ttl: Millis, member: string)
    ensures TryClaim(c, now, ttl, member).1 <==> forall m :: m in c.scores ==> c.scores[m] <= now - ttl
  {
    var left := map m | m in c.scores && c.scores[m] > now - ttl :: c.scores[m];
    if m :| m in c.scores && c.scores[m] > now - ttl {
      assert m in left;
    }
  }

  /** The exact danger: a second evaluation starts beside those in progress if and only if all of
      them, and whatever claims crashed workers left, have reached the TTL. */
  lemma SecondClaimSucceedsIff(ttl: Millis, w: World, i: string, s: string)
    requires i in w.up
    ensures Holder(i, s, w.now, true) in Step(ttl, w, Claim(i, s)).holders
       <==> || Holder(i, s, w.now, true) in w.holders
            || forall m :: m in w.claims.scores ==> w.claims.scores[m] <= w.now - ttl
  {
    ClaimSucceedsIff(w.claims, w.now, ttl, Member(i, s));
  }

  /** And it happens: an evaluation that runs into the TTL is joined by a second one, of the same
      user, on another worker, and both are running. */
  lemma OverstayingLetsSecondIn(ttl: Millis, i: string, s: string, j: string, s': string)
    requires Plain(i) && Plain(j) && i != j
    ensures After(ttl, Initial(0), [Boot(i), Boot(j), Claim(i, s), Pass(ttl), Claim(j, s')]).holders
         == {Holder(i, s, 0, true), Holder(j, s', ttl, true)}
  {
    var ops := [Boot(i), Boot(j), Claim(i, s), Pass(ttl), Claim(j, s')];
    var w1 := Step(ttl, Initial(0), ops[0]);
    var w2 := Step(ttl, w1, ops[1]);
    ClaimSucceedsIff(w2.claims, 0, ttl, Member(i, s));
    var w3 := Step(ttl, w2, ops[2]);
    var w4 := Step(ttl, w3, ops[3]);
    assert w4.claims.scores == map[Member(i, s) := 0] && w4.holders == {Holder(i, s, 0, true)};
    ClaimSucceedsIff(w4.claims, ttl, ttl, Member(j, s'));
    var w5 := Step(ttl, w4, ops[4]);
    assert ops[1..][1..][1..][1..][1..] == [];
    assert After(ttl, w4, ops[1..][1..][1..][1..]) == w5;
    assert After(ttl, w3, ops[1..][1..][1..]) == w5;
    assert After(ttl, w2, ops[1..][1..]) == w5;
  }

  // ---- Release frees the user --------------------------------------------------------------------

  /** A release takes the evaluation's own member off the record, and nothing else. */
  lemma ReleaseIsExact(c: Claims, member: string, other: string)
    ensures var left := Unclaim(c, member);
            && member !in left.scores && left.dies == c.dies
            && (other != member ==>
                  && (other in left.scores <==> other in c.scores)
                  && (other in c.scores ==> left.scores[other] == c.scores[other]))
  {
  }

  /** Nothing that leaves a member on record without an evaluation to release it. */
  predicate Orderly(op: Op) {
    !op.Crash? && !op.ClaimUnheard?
  }

  function MembersOf(holders: set<Holder>): set<string> {
    set h | h in holders :: Member(h.instance, h.submission)
  }

  lemma ReleaseKeepsAccount(ttl: Millis, w: World, h: Holder)
    requires w.claims.scores.Keys <= MembersOf(w.holders)
    ensures var w' := Step(ttl, w, Release(h)); w'.claims.scores.Keys <= MembersOf(w'.holders)
  {
    var w' := Step(ttl, w, Release(h));
    forall m | m in w'.claims.scores ensures m in MembersOf(w'.holders) {
      ReleaseIsExact(w.claims, Member(h.instance, h.submission), m);
      var g :| g in w.holders && Member(g.instance, g.submission) == m;
      assert h in w.holders && !h.running ==> g in w'.holders;
    }
  }

  lemma FinishKeepsAccount(ttl: Millis, w: World, h: Holder)
    requires w.claims.scores.Keys <= MembersOf(w.holders)
    ensures var w' := Step(ttl, w, Finish(h)); w'.claims.scores.Keys <= MembersOf(w'.holders)
  {
    var w' := Step(ttl, w, Finish(h));
    forall m | m in w'.claims.scores ensures m in MembersOf(w'.holders) {
      var g :| g in w.holders && Member(g.instance, g.submission) == m;
      assert g == h || g in w'.holders;
      assert h in w.holders ==> h.(running := false) in w'.holders;
    }
  }

  lemma ClaimKeepsAccount(ttl: Millis, w: World, i: string, s: string)
    requires w.claims.scores.Keys <= MembersOf(w.holders)
    ensures var w' := Step(ttl, w, Claim(i, s)); w'.claims.scores.Keys <= MembersOf(w'.holders)
  {
    var w' := Step(ttl, w, Claim(i, s));
    forall m | m in w'.claims.scores ensures m in MembersOf(w'.holders) {
      var g := if m in w.claims.scores then var g :| g in w.holders && Member(g.instance, g.submission) == m; g
               else Holder(i, s, w.now, true);
      assert g in w'.holders;
    }
  }

  lemma StepKeepsAccount(ttl: Millis, w: World, op: Op)
    requires w.claims.scores.Keys <= MembersOf(w.holders) && Orderly(op)
    ensures var w' := Step(ttl, w, op); w'.claims.scores.Keys <= MembersOf(w'.holders)
  {
    match op
    case Claim(i, s) => ClaimKeepsAccount(ttl, w, i, s);
    case Release(h) => ReleaseKeepsAccount(ttl, w, h);
    case Finish(h) => FinishKeepsAccount(ttl, w, h);
    case PurgeOne(_, _) =>
    case Boot(_) =>
    case Pass(_) =>
  }

  lemma {:induction false} RunKeepsAccount(ttl: Millis, w: World, ops: seq<Op>)
    requires w.claims.scores.Keys <= MembersOf(w.holders) && forall i :: 0 <= i < |ops| ==> Orderly(ops[i])
    ensures After(ttl, w, ops).claims.scores.Keys <= MembersOf(After(ttl, w, ops).holders)
    decreases |ops|
  {
    if ops != [] {
      StepKeepsAccount(ttl, w, ops[0]);
      RunKeepsAccount(ttl, Step(ttl, w, ops[0]), ops[1..]);
    }
  }

  lemma {:induction false} TimelyEnds(ttl: Millis, w: World, ops: seq<Op>)
    requires Timely(ttl, w, ops)
    ensures InTime(ttl, After(ttl, w, ops))
    decreases |ops|
  {
    if ops != [] {
      TimelyEnds(ttl, Step(ttl, w, ops[0]), ops[1..]);
    }
  }

  /** Availability: over any run without crashes and lost answers whose evaluations are over in time,
      the members on record are exactly those of the evaluations in progress, so the user can be
      claimed if and only if there is none. */
  lemma FreeIffNobodyHolds(ttl: Millis, start: int, ops: seq<Op>, member: string)
    requires Timely(ttl, Initial(start), ops) && forall i :: 0 <= i < |ops| ==> Orderly(ops[i])
    ensures var w := After(ttl, Initial(start), ops);
            && w.claims.scores.Keys == MembersOf(w.holders)
            && (TryClaim(w.claims, w.now, ttl, member).1 <==> w.holders == {})
  {
    var w := After(ttl, Initial(start), ops);
    RunIsSound(ttl, Initial(start), ops);
    RunKeepsAccount(ttl, Initial(start), ops);
    TimelyEnds(ttl, Initial(start), ops);
    ClaimSucceedsIff(w.claims, w.now, ttl, member);
    if h :| h in w.holders {
      assert Member(h.instance, h.submission) in w.claims.scores;
    }
  }

  /** Whatever else happens, a member without an evaluation blocks the user no longer than the TTL:
      so long after the last attempt on record, everybody's next one succeeds. */
  lemma OrphansOnlyDelay(c: Claims, last: int, now: int, ttl: Millis, member: string)
    requires (forall m :: m in c.scores ==> c.scores[m] <= last) && now >= last + ttl
    ensures TryClaim(c, now, ttl, member).1
    ensures TryClaim(c, now, ttl, member).0.scores == map[member := now]
  {
    ClaimSucceedsIff(c, now, ttl, member);
  }

  // ---- The claim sets of all users ------------------------------------------------------------

  function Without(scores: map<string, int>, prefix: string): map<string, int> {
    map m | m in scores && !(prefix <= m) :: scores[m]
  }

  function With(scores: map<string, int>, prefix: string): set<string> {
    set m | m in scores && prefix <= m
  }

  /** What is dropped once all but these members have been looked at. */
  function Gone(scores: map<string, int>, prefix: string, members: set<string>): set<string> {
    With(scores, prefix) - members
  }

  /** One member more is looked at. */
  lemma PurgeStep(scores: map<string, int>, prefix: string, members: set<string>, member: string)
    requires member in members && member in scores
    ensures var gone := Gone(scores, prefix, members);
            var gone' := Gone(scores, prefix, members - {member});
            if prefix <= member
            then |gone'| == |gone| + 1 && scores - gone' == scores - gone - {member}
            else gone' == gone
  {
    if prefix <= member {
      assert Gone(scores, prefix, members - {member}) == Gone(scores, prefix, members) + {member};
    }
  }

  lemma PurgeEnds(scores: map<string, int>, prefix: string)
    ensures Gone(scores, prefix, scores.Keys) == {} && scores - {} == scores
    ensures Gone(scores, prefix, {}) == With(scores, prefix)
    ensures scores - With(scores, prefix) == Without(scores, prefix)
  {
  }

  /** The inner loop of the purge: one user's members, one after the other. */
  method PurgeKey(scores: map<string, int>, prefix: string) returns (left: map<string, int>, removed: nat)
    ensures left == Without(scores, prefix)
    ensures removed == |With(scores, prefix)|
  {
    left, removed := scores, 0;
    var members := scores.Keys;
    PurgeEnds(scores, prefix);
    while members != {}
      invariant members <= scores.Keys
      invariant left == scores - Gone(scores, prefix, members)
      invariant removed == |Gone(scores, prefix, members)|
      decreases members
    {
      var member :| member in members;
      PurgeStep(scores, prefix, members, member);
      members := members - {member};
      if prefix <= member {
        left := left - {member};
        removed := removed + 1;
      }
    }
  }

  function Residue(claims: map<string, Claims>, user: string): map<string, int> {
    if user in claims then claims[user].scores else map[]
  }

  /** How many claims of the instance each user has. */
  function Owned(claims: map<string, Claims>, prefix: string): string -> nat {
    user => |With(Residue(claims, user), prefix)|
  }

  function Purged(c: Claims, prefix: string): Claims {
    c.(scores := Without(c.scores, prefix))
  }

  /** The outer loop: one key after the other. */
  method PurgeAll(claims: map<string, Claims>, prefix: string) returns (left: map<string, Claims>, removed: nat)
    ensures left.Keys == claims.Keys
    ensures forall user :: user in claims ==> left[user] == Purged(claims[user], prefix)
    ensures removed == Sum(claims.Keys, Owned(claims, prefix))
  {
    left, removed := claims, 0;
    var users := claims.Keys;
    while users != {}
      invariant users <= claims.Keys == left.Keys
      invariant forall user :: user in claims ==>
                  left[user] == if user in users then claims[user] else Purged(claims[user], prefix)
      invariant removed + Sum(users, Owned(claims, prefix)) == Sum(claims.Keys, Owned(claims, prefix))
      decreases users
    {
      var user :| user in users;
      SumRemove(users, Owned(claims, prefix), user);
      var scores, n := PurgeKey(left[user].scores, prefix);
      left := left[user := left[user].(scores := scores)];
      removed := removed + n;
      users := users - {user};
    }
  }

  class ClaimStore {
    const ttl: Millis
    var now: int
    var claims: map<string, Claims>

    ghost function Of(user: string): Claims
      reads this
    {
      if user in claims then claims[user] else NOBODY
    }

    constructor (ttl: Millis, start: int)
      ensures this.ttl == ttl && now == start && claims == map[]
    {
      this.ttl := ttl;
      now, claims := start, map[];
    }

    /** Time goes by, and keys expire. */
    method Wait(until: int)
      requires until >= now
      modifies this
      ensures now == until
      ensures forall user :: Of(user) == Aged(old(Of(user)), until)
    {
      now := until;
      claims := map user | user in claims && until <= claims[user].dies :: claims[user];
    }

    method TryClaimUser(user: string, member: string) returns (claimed: bool)
      modifies this`claims
      ensures (Of(user), claimed) == TryClaim(old(Of(user)), now, ttl, member)
      ensures forall other :: other != user ==> Of(other) == old(Of(other))
    {
      var c := if user in claims then claims[user] else NOBODY;
      var left := map m | m in c.scores && c.scores[m] > now - ttl :: c.scores[m];
      if left != map[] {
        claims := claims[user := c.(scores := left)];
        return false;
      }
      claims := claims[user := Claims(map[member := now], now + Max(2 * ttl, 60_000))];
      return true;
    }

    method ReleaseUser(user: string, member: string)
      modifies this`claims
      ensures Of(user) == Unclaim(old(Of(user)), member)
      ensures forall other :: other != user ==> Of(other) == old(Of(other))
    {
      if user in claims {
        claims := claims[user := claims[user].(scores := claims[user].scores - {member})];
      }
    }

    /** What a restarted worker does first: over all users, drop the claims of its own former
        life, and only those, and say how many there were. */
    method PurgeInstanceClaims(instance: string) returns (removed: nat)
      modifies this`claims
      ensures forall user :: Of(user) == Purged(old(Of(user)), instance + ":")
      ensures removed == Sum(old(claims).Keys, Owned(old(claims), instance + ":"))
    {
      claims, removed := PurgeAll(claims, instance + ":");
    }
  }

  /** After the purge nothing of the instance is left, and nothing of another instance is lost. */
  lemma PurgeIsExact(scores: map<string, int>, instance: string, other: string, submission: string)
    requires Plain(instance) && Plain(other)
    ensures Member(other, submission) in Without(scores, instance + ":")
       <==> other != instance && Member(other, submission) in scores
  {
    PrefixMatchesOwnClaimsOnly(instance, other, submission);
  }
}
