/** The gateway's two quota scripts: check every counter, then add to every counter; and the
    later correction by the difference between estimate and actual use. */
module QuotaScripts {
  import opened Numbers
  import opened QuotaKeys

  // ---- The server's counters -----------------------------------------------------------------

  /** Instants are milliseconds. A counter counts for nothing once its expiry has passed. */
  datatype Db = Db(now: int, counts: map<string, int>, dies: map<string, int>)

  const EMPTY: Db := Db(0, map[], map[])

  predicate Expired(db: Db, k: string) {
    k in db.dies && db.now > db.dies[k]
  }

  /** The last value a counter had, expired since or not. */
  function Stored(db: Db, k: string): int {
    Get(db.counts, k)
  }

  /** The value a script reads; a missing or expired counter reads as zero. */
  function Count(db: Db, k: string): int {
    if Expired(db, k) then 0 else Stored(db, k)
  }

  function Tick(db: Db, at: int): Db {
    db.(now := Max(db.now, at))
  }

  /** What a script is told about one counter; `ttl` is in seconds. */
  datatype Spec = Spec(key: string, limit: int, inc: int, ttl: nat)

  const RATE_TTL: nat := 60

  // ---- Which counters a call is charged to -----------------------------------------------------

  /** One call's worth, in each metric. */
  datatype Amounts = Amounts(calls: int, tokens: int, cost: int)

  function In(a: Amounts, m: Metric): int {
    match m case Calls => a.calls case Tokens => a.tokens case Cost => a.cost
  }

  function ScopeCounters(s: Scope, w: Window, includeCalls: bool): seq<Counter> {
    (if includeCalls then [Scoped(s, w, Calls)] else []) + [Scoped(s, w, Tokens), Scoped(s, w, Cost)]
  }

  function Charged(includeCalls: bool): seq<Counter> {
    (if includeCalls then [Evaluation(Calls)] else []) + [Evaluation(Tokens), Evaluation(Cost)]
    + ScopeCounters(User, Day, includeCalls) + ScopeCounters(User, Month, includeCalls)
    + ScopeCounters(Global, Day, includeCalls) + ScopeCounters(Global, Month, includeCalls)
    + ScopeCounters(Problem, Day, includeCalls) + ScopeCounters(Problem, Month, includeCalls)
    + ScopeCounters(UserProblem, Day, includeCalls) + ScopeCounters(UserProblem, Month, includeCalls)
  }

  /** The limit in force for a counter: the evaluation's cost is never limited. */
  function LimitOf(limit: string -> int, k: string, c: Counter): int {
    if c == Evaluation(Cost) then -1 else limit(k)
  }

  /** The limits in force, and how long each of a call's counters is to live from its start. */
  datatype Terms = Terms(limit: string -> int, life: Counter -> nat)

  function SpecOf(p: Payload, st: Stamp, t: Terms, a: Amounts, c: Counter): Spec {
    Spec(KeyOf(p, st, c), LimitOf(t.limit, KeyOf(p, st, c), c), In(a, c.metric), t.life(c))
  }

  function Specs(p: Payload, st: Stamp, t: Terms, a: Amounts, includeCalls: bool): (specs: seq<Spec>)
    ensures |specs| == |Charged(includeCalls)|
    ensures forall i :: 0 <= i < |specs| ==> specs[i] == SpecOf(p, st, t, a, Charged(includeCalls)[i])
  {
    var ids := Charged(includeCalls);
    seq(|ids|, i requires 0 <= i < |ids| => SpecOf(p, st, t, a, ids[i]))
  }

  /** Where a counter stands in the list of all 27. */
  function Place(c: Counter): nat {
    match c
    case Evaluation(m) => MetricPlace(m)
    case Scoped(s, w, m) => 3 + 6 * ScopePlace(s) + (if w == Day then 0 else 3) + MetricPlace(m)
  }

  function MetricPlace(m: Metric): nat {
    match m case Calls => 0 case Tokens => 1 case Cost => 2
  }

  function ScopePlace(s: Scope): nat {
    match s case User => 0 case Global => 1 case Problem => 2 case UserProblem => 3
  }

  /** The same in the list of 18 that a settlement corrects. */
  function SettledPlace(c: Counter): nat
    requires c.metric != Calls
  {
    match c
    case Evaluation(m) => MetricPlace(m) - 1
    case Scoped(s, w, m) => 2 + 4 * ScopePlace(s) + (if w == Day then 0 else 2) + MetricPlace(m) - 1
  }

  lemma EveryCounterCharged(c: Counter)
    ensures |Charged(true)| == 27 && Charged(true)[Place(c)] == c
  {
  }

  /** Some counter has each place. */
  lemma PlaceIsTaken(i: nat) returns (c: Counter)
    requires i < 27
    ensures Place(c) == i
  {
    var m := if i % 3 == 0 then Calls else if i % 3 == 1 then Tokens else Cost;
    if i < 3 {
      c := Evaluation(m);
    } else {
      var j := (i - 3) / 3;
      var s := if j < 2 then User else if j < 4 then Global else if j < 6 then Problem else UserProblem;
      c := Scoped(s, if j % 2 == 0 then Day else Month, m);
    }
  }

  lemma EveryCounterOnce(i: nat)
    requires i < 27
    ensures |Charged(true)| == 27 && Place(Charged(true)[i]) == i
  {
    var c := PlaceIsTaken(i);
    EveryCounterCharged(c);
  }

  lemma SettlesEachOnce(i: nat)
    ensures |Charged(false)| == 18
    ensures i < 18 ==> Charged(false)[i].metric != Calls && SettledPlace(Charged(false)[i]) == i
  {
  }

  lemma SettlesAllButCalls(c: Counter)
    requires c.metric != Calls
    ensures SettledPlace(c) < |Charged(false)| && Charged(false)[SettledPlace(c)] == c
  {
  }

  predicate DistinctKeys(specs: seq<Spec>) {
    forall i, j :: 0 <= i < j < |specs| ==> specs[i].key != specs[j].key
  }

  /** The 27 keys of a call, and the 18 of a settlement, are pairwise distinct for all ids. */
  lemma KeysAreDistinct(p: Payload, st: Stamp, t: Terms, a: Amounts, includeCalls: bool)
    ensures DistinctKeys(Specs(p, st, t, a, includeCalls))
    ensures |Specs(p, st, t, a, includeCalls)| == if includeCalls then 27 else 18
  {
    var ids := Charged(includeCalls);
    SettlesEachOnce(0);
    EveryCounterOnce(0);
    forall i, j | 0 <= i < j < |ids| ensures KeyOf(p, st, ids[i]) != KeyOf(p, st, ids[j]) {
      if includeCalls {
        EveryCounterOnce(i);
        EveryCounterOnce(j);
      } else {
        SettlesEachOnce(i);
        SettlesEachOnce(j);
      }
      KeysAgreeIff(p, st, ids[i], st, ids[j]);
    }
  }

  // ---- Check everything, then add everything ---------------------------------------------------

  datatype Reply =
    | Done
    | RateExceeded
    | LimitExceeded(counter: nat, current: int, requested: int, limit: int)

  /** The same test before a call is added, with its increment, and after a settlement, without. */
  datatype Rule = Admission | Report

  predicate Fails(rule: Rule, db: Db, s: Spec) {
    s.limit == 0 || (s.limit > 0 && Count(db, s.key) + (if rule == Admission then s.inc else 0) > s.limit)
  }

  /** Add, and start the counter's life if it starts from zero. */
  function Add(db: Db, k: string, amount: int, ttl: nat): Db {
    var value := Count(db, k) + amount;
    db.(counts := db.counts[k := value],
        dies := if value == amount then db.dies[k := db.now + 1000 * ttl] else db.dies)
  }

  /** Add, but never leave a negative count behind; the zero put in its place has no expiry. */
  function Nudge(db: Db, k: string, amount: int, ttl: nat): Db {
    if Count(db, k) + amount < 0 then db.(counts := db.counts[k := 0], dies := db.dies - {k})
    else Add(db, k, amount, ttl)
  }

  function AddAll(db: Db, specs: seq<Spec>): Db
    decreases |specs|
  {
    if specs == [] then db else AddAll(Add(db, specs[0].key, specs[0].inc, specs[0].ttl), specs[1..])
  }

  function NudgeAll(db: Db, specs: seq<Spec>): Db
    decreases |specs|
  {
    if specs == [] then db else NudgeAll(Nudge(db, specs[0].key, specs[0].inc, specs[0].ttl), specs[1..])
  }

  /** A counter that a script did not touch. */
  ghost predicate SameEntry(db: Db, db': Db, k: string) {
    && db'.now == db.now && Stored(db', k) == Stored(db, k)
    && (k in db'.dies <==> k in db.dies) && (k in db.dies ==> db'.dies[k] == db.dies[k])
  }

  /** A counter that was touched is alive, for as long as before or from now on for its time. */
  ghost predicate Alive(db: Db, db': Db, k: string, ttl: nat) {
    && db'.now == db.now && !Expired(db', k)
    && (k in db'.dies ==> (k in db.dies && db'.dies[k] == db.dies[k]) || db'.dies[k] == db.now + 1000 * ttl)
  }

  ghost predicate Raised(db: Db, db': Db, s: Spec) {
    && Alive(db, db', s.key, s.ttl) && Stored(db', s.key) == Count(db, s.key) + s.inc
    && (Count(db, s.key) == 0 ==> s.key in db'.dies && db'.dies[s.key] == db.now + 1000 * s.ttl)
  }

  ghost predicate Nudged(db: Db, db': Db, s: Spec) {
    Alive(db, db', s.key, s.ttl) && Stored(db', s.key) == Max(0, Count(db, s.key) + s.inc)
  }

  function Keys(specs: seq<Spec>): set<string> {
    set i | 0 <= i < |specs| :: specs[i].key
  }

  lemma TailKeys(specs: seq<Spec>)
    requires specs != [] && DistinctKeys(specs)
    ensures DistinctKeys(specs[1..]) && specs[0].key !in Keys(specs[1..])
    ensures Keys(specs) == {specs[0].key} + Keys(specs[1..])
  {
    forall k | k in Keys(specs) ensures k in {specs[0].key} + Keys(specs[1..]) {
      var i :| 0 <= i < |specs| && specs[i].key == k;
      assert i > 0 ==> specs[1..][i - 1].key == k;
    }
  }

  lemma AddsOne(db: Db, s: Spec)
    ensures Raised(db, Add(db, s.key, s.inc, s.ttl), s)
    ensures forall k :: k != s.key ==> SameEntry(db, Add(db, s.key, s.inc, s.ttl), k)
  {
  }

  lemma NudgesOne(db: Db, s: Spec)
    ensures Nudged(db, Nudge(db, s.key, s.inc, s.ttl), s)
    ensures forall k :: k != s.key ==> SameEntry(db, Nudge(db, s.key, s.inc, s.ttl), k)
  {
  }

  /** Every listed counter is raised by its own increment, once, and starts to live if it was at
      zero; no other counter changes. */
  lemma {:induction false} AddsEachOnce(db: Db, specs: seq<Spec>)
    requires DistinctKeys(specs)
    ensures forall i :: 0 <= i < |specs| ==> Raised(db, AddAll(db, specs), specs[i])
    ensures forall k :: k !in Keys(specs) ==> SameEntry(db, AddAll(db, specs), k)
    decreases |specs|
  {
    if specs != [] {
      TailKeys(specs);
      var db' := Add(db, specs[0].key, specs[0].inc, specs[0].ttl);
      AddsOne(db, specs[0]);
      AddsEachOnce(db', specs[1..]);
      forall i | 0 <= i < |specs| ensures Raised(db, AddAll(db, specs), specs[i]) {
        if i > 0 {
          assert specs[1..][i - 1] == specs[i];
        }
      }
    }
  }

  /** Every listed counter is corrected by its own difference, but not below zero; no other
      counter changes. */
  lemma {:induction false} NudgesEachOnce(db: Db, specs: seq<Spec>)
    requires DistinctKeys(specs)
    ensures forall i :: 0 <= i < |specs| ==> Nudged(db, NudgeAll(db, specs), specs[i])
    ensures forall k :: k !in Keys(specs) ==> SameEntry(db, NudgeAll(db, specs), k)
    decreases |specs|
  {
    if specs != [] {
      TailKeys(specs);
      var db' := Nudge(db, specs[0].key, specs[0].inc, specs[0].ttl);
      NudgesOne(db, specs[0]);
      NudgesEachOnce(db', specs[1..]);
      forall i | 0 <= i < |specs| ensures Nudged(db, NudgeAll(db, specs), specs[i]) {
        if i > 0 {
          assert specs[1..][i - 1] == specs[i];
        }
      }
    }
  }

  /** The first counter that fails, or the length of the list. */
  function First(rule: Rule, db: Db, specs: seq<Spec>): (i: nat)
    ensures i <= |specs|
    ensures forall j :: 0 <= j < i ==> !Fails(rule, db, specs[j])
    ensures i < |specs| ==> Fails(rule, db, specs[i])
    decreases |specs|
  {
    if specs == [] then 0
    else if Fails(rule, db, specs[0]) then 0
    else
      var i := First(rule, db, specs[1..]);
      assert forall j :: 0 < j < i + 1 ==> specs[j] == specs[1..][j - 1];
      i + 1
  }

  function Verdict(rule: Rule, db: Db, specs: seq<Spec>): Reply {
    var i := First(rule, db, specs);
    if i < |specs| then LimitExceeded(i + 1, Count(db, specs[i].key), specs[i].inc, specs[i].limit) else Done
  }

  /** The whole `LIMIT_SCRIPT`: two rate windows, then all checks, then all increments. */
  function Enforce(db: Db, rates: (string, string), userRate: int, ipRate: int, specs: seq<Spec>): (Db, Reply) {
    var db1 := Add(db, rates.0, 1, RATE_TTL);
    if Count(db1, rates.0) > userRate then (db1, RateExceeded) else
    var db2 := Add(db1, rates.1, 1, RATE_TTL);
    if Count(db2, rates.1) > ipRate then (db2, RateExceeded) else
    var reply := Verdict(Admission, db2, specs);
    (if reply == Done then AddAll(db2, specs) else db2, reply)
  }

  /** The whole `SETTLE_SCRIPT`. */
  function Settle(db: Db, specs: seq<Spec>): (Db, Reply) {
    var db' := NudgeAll(db, specs);
    (db', Verdict(Report, db', specs))
  }

  // ---- All or nothing ----------------------------------------------------------------------

  /** Room for this call in a counter: no limit, or a positive one that is not exceeded. */
  predicate HasRoom(db: Db, p: Payload, st: Stamp, t: Terms, a: Amounts, c: Counter) {
    var k := KeyOf(p, st, c);
    c == Evaluation(Cost) || t.limit(k) < 0 || (t.limit(k) > 0 && Count(db, k) + In(a, c.metric) <= t.limit(k))
  }

  /** The same but for the rate windows. */
  ghost predicate SameCounters(db: Db, db': Db) {
    forall k :: !IsRate(k) ==> SameEntry(db, db', k)
  }

  lemma RoomIsNoRefusal(db: Db, db': Db, p: Payload, st: Stamp, t: Terms, a: Amounts, c: Counter)
    requires SameCounters(db, db')
    ensures HasRoom(db, p, st, t, a, c) <==> !Fails(Admission, db', SpecOf(p, st, t, a, c))
  {
    CountersAreNotRates(p, st, c);
    assert SameEntry(db, db', KeyOf(p, st, c));
  }

  /** A call passes the checks if and only if each of its 27 counters has room. */
  lemma PassesIff(db: Db, db': Db, p: Payload, st: Stamp, t: Terms, a: Amounts)
    requires SameCounters(db, db')
    ensures (forall i :: 0 <= i < |Charged(true)| ==> !Fails(Admission, db', Specs(p, st, t, a, true)[i]))
       <==> (forall c: Counter :: HasRoom(db, p, st, t, a, c))
  {
    var specs := Specs(p, st, t, a, true);
    if forall i :: 0 <= i < |Charged(true)| ==> !Fails(Admission, db', specs[i]) {
      forall c: Counter ensures HasRoom(db, p, st, t, a, c) {
        EveryCounterCharged(c);
        assert !Fails(Admission, db', specs[Place(c)]);
        RoomIsNoRefusal(db, db', p, st, t, a, c);
      }
    } else {
      var i :| 0 <= i < |Charged(true)| && Fails(Admission, db', specs[i]);
      RoomIsNoRefusal(db, db', p, st, t, a, Charged(true)[i]);
    }
  }

  /** Both rate windows counted once more. */
  function Rated(db: Db, rates: (string, string)): Db {
    Add(Add(db, rates.0, 1, RATE_TTL), rates.1, 1, RATE_TTL)
  }

  lemma RatesApart(db: Db, rates: (string, string))
    requires IsRate(rates.0) && IsRate(rates.1)
    ensures SameCounters(db, Add(db, rates.0, 1, RATE_TTL)) && SameCounters(db, Rated(db, rates))
  {
  }

  /** Both per-minute windows are below their limits when this call arrives. */
  predicate RatesAllow(db: Db, rates: (string, string), userRate: int, ipRate: int) {
    Count(db, rates.0) < userRate && Count(Add(db, rates.0, 1, RATE_TTL), rates.1) < ipRate
  }

  /** A call is granted if and only if both rate windows allow it and each of its 27 counters
      has room for its increment. */
  lemma GrantedIff(db: Db, p: Payload, st: Stamp, ip: string, minute: string,
                   t: Terms, userRate: int, ipRate: int, a: Amounts)
    ensures Enforce(db, RateKeys(p, ip, minute), userRate, ipRate, Specs(p, st, t, a, true)).1.Done?
       <==> && RatesAllow(db, RateKeys(p, ip, minute), userRate, ipRate)
            && forall c: Counter :: HasRoom(db, p, st, t, a, c)
  {
    var rates := RateKeys(p, ip, minute);
    var specs := Specs(p, st, t, a, true);
    RatesApart(db, rates);
    assert First(Admission, Rated(db, rates), specs) <= |specs|;
    PassesIff(db, Rated(db, rates), p, st, t, a);
  }

  /** A refusal by a counter names the first one, in order, that has no room, with the figures
      it was judged by. */
  lemma RefusalNamesFirstFull(db: Db, p: Payload, st: Stamp, ip: string, minute: string,
                              t: Terms, userRate: int, ipRate: int, a: Amounts)
    requires Enforce(db, RateKeys(p, ip, minute), userRate, ipRate, Specs(p, st, t, a, true)).1.LimitExceeded?
    ensures var reply := Enforce(db, RateKeys(p, ip, minute), userRate, ipRate, Specs(p, st, t, a, true)).1;
            && 1 <= reply.counter <= |Charged(true)|
            && var c := Charged(true)[reply.counter - 1];
            && !HasRoom(db, p, st, t, a, c)
            && reply.current == Count(db, KeyOf(p, st, c)) && reply.requested == In(a, c.metric)
            && reply.limit == t.limit(KeyOf(p, st, c))
            && forall i :: 0 <= i < reply.counter - 1 ==> HasRoom(db, p, st, t, a, Charged(true)[i])
  {
    var rates := RateKeys(p, ip, minute);
    var db2 := Rated(db, rates);
    var specs := Specs(p, st, t, a, true);
    var n := First(Admission, db2, specs);
    RatesApart(db, rates);
    CountersAreNotRates(p, st, Charged(true)[n]);
    assert SameEntry(db, db2, KeyOf(p, st, Charged(true)[n]));
    RoomIsNoRefusal(db, db2, p, st, t, a, Charged(true)[n]);
    forall i | 0 <= i < n ensures HasRoom(db, p, st, t, a, Charged(true)[i]) {
      assert !Fails(Admission, db2, specs[i]);
      RoomIsNoRefusal(db, db2, p, st, t, a, Charged(true)[i]);
    }
  }

  /** What a grant adds: each of the 27 counters its own increment, exactly once. */
  lemma GrantAddsEachOnce(db: Db, p: Payload, st: Stamp, t: Terms, a: Amounts)
    ensures forall c: Counter :: Raised(db, AddAll(db, Specs(p, st, t, a, true)), SpecOf(p, st, t, a, c))
    ensures forall k :: (forall c: Counter :: KeyOf(p, st, c) != k) ==>
              SameEntry(db, AddAll(db, Specs(p, st, t, a, true)), k)
  {
    var specs := Specs(p, st, t, a, true);
    KeysAreDistinct(p, st, t, a, true);
    AddsEachOnce(db, specs);
    forall c: Counter ensures Raised(db, AddAll(db, specs), SpecOf(p, st, t, a, c)) {
      EveryCounterCharged(c);
      assert specs[Place(c)] == SpecOf(p, st, t, a, c);
    }
  }

  /** A settlement corrects each of the 18 token and cost counters once, never below zero. */
  lemma SettlementCorrectsEachOnce(db: Db, p: Payload, st: Stamp, t: Terms, a: Amounts)
    ensures forall c: Counter :: c.metric != Calls ==>
              Nudged(db, NudgeAll(db, Specs(p, st, t, a, false)), SpecOf(p, st, t, a, c))
    ensures forall k :: (forall c: Counter :: c.metric != Calls ==> KeyOf(p, st, c) != k)
              ==> SameEntry(db, NudgeAll(db, Specs(p, st, t, a, false)), k)
  {
    var specs := Specs(p, st, t, a, false);
    KeysAreDistinct(p, st, t, a, false);
    NudgesEachOnce(db, specs);
    forall c: Counter | c.metric != Calls ensures Nudged(db, NudgeAll(db, specs), SpecOf(p, st, t, a, c)) {
      SettlesAllButCalls(c);
      assert specs[SettledPlace(c)] == SpecOf(p, st, t, a, c);
    }
    forall k | forall c: Counter :: c.metric != Calls ==> KeyOf(p, st, c) != k
      ensures SameEntry(db, NudgeAll(db, specs), k)
    {
      forall i | 0 <= i < |specs| ensures specs[i].key != k {
        SettlesEachOnce(i);
      }
    }
  }

  /** What a counter reads once corrected by a settlement. */
  function CorrectedCount(db: Db, p: Payload, st: Stamp, a: Amounts, c: Counter): int {
    Max(0, Count(db, KeyOf(p, st, c)) + In(a, c.metric))
  }

  /** The corrected count is within the limit, which is none or a positive one. */
  predicate WithinLimit(db: Db, p: Payload, st: Stamp, t: Terms, a: Amounts, c: Counter) {
    var limit := t.limit(KeyOf(p, st, c));
    c == Evaluation(Cost) || limit < 0 || (limit > 0 && CorrectedCount(db, p, st, a, c) <= limit)
  }

  lemma CorrectedIsRead(db: Db, p: Payload, st: Stamp, t: Terms, a: Amounts, c: Counter)
    requires c.metric != Calls
    ensures var db' := Settle(db, Specs(p, st, t, a, false)).0;
            && Count(db', KeyOf(p, st, c)) == CorrectedCount(db, p, st, a, c)
            && (Fails(Report, db', SpecOf(p, st, t, a, c)) <==> !WithinLimit(db, p, st, t, a, c))
  {
    SettlementCorrectsEachOnce(db, p, st, t, a);
  }

  /** A settlement's call stays served if and only if every token and cost counter, corrected by the
      difference, is within its limit. */
  lemma SettlementPassesIff(db: Db, p: Payload, st: Stamp, t: Terms, a: Amounts)
    ensures Settle(db, Specs(p, st, t, a, false)).1.Done?
       <==> forall c: Counter :: c.metric != Calls ==> WithinLimit(db, p, st, t, a, c)
  {
    var specs := Specs(p, st, t, a, false);
    var (db', reply) := Settle(db, specs);
    var n := First(Report, db', specs);
    if n == |specs| {
      forall c: Counter | c.metric != Calls ensures WithinLimit(db, p, st, t, a, c) {
        SettlesAllButCalls(c);
        assert !Fails(Report, db', specs[SettledPlace(c)]);
        CorrectedIsRead(db, p, st, t, a, c);
      }
    } else {
      SettlesEachOnce(n);
      CorrectedIsRead(db, p, st, t, a, Charged(false)[n]);
    }
  }

  /** Otherwise it reports the first counter, in order, that is not, with its corrected count. */
  lemma SettlementNamesFirstOver(db: Db, p: Payload, st: Stamp, t: Terms, a: Amounts)
    requires !Settle(db, Specs(p, st, t, a, false)).1.Done?
    ensures var reply := Settle(db, Specs(p, st, t, a, false)).1;
            && reply.LimitExceeded? && 1 <= reply.counter <= |Charged(false)|
            && var c := Charged(false)[reply.counter - 1];
            && !WithinLimit(db, p, st, t, a, c)
            && reply.current == CorrectedCount(db, p, st, a, c) && reply.requested == In(a, c.metric)
            && reply.limit == t.limit(KeyOf(p, st, c))
            && forall i :: 0 <= i < reply.counter - 1 ==> WithinLimit(db, p, st, t, a, Charged(false)[i])
  {
    var specs := Specs(p, st, t, a, false);
    var (db', reply) := Settle(db, specs);
    var n := First(Report, db', specs);
    SettlesEachOnce(n);
    CorrectedIsRead(db, p, st, t, a, Charged(false)[n]);
    forall i | 0 <= i < n ensures WithinLimit(db, p, st, t, a, Charged(false)[i]) {
      SettlesEachOnce(i);
      assert !Fails(Report, db', specs[i]);
      CorrectedIsRead(db, p, st, t, a, Charged(false)[i]);
    }
  }

  lemma EnforceOutcome(db: Db, rates: (string, string), userRate: int, ipRate: int, specs: seq<Spec>)
    requires IsRate(rates.0) && IsRate(rates.1)
    ensures var (db', reply) := Enforce(db, rates, userRate, ipRate, specs);
            if reply.Done? then db' == AddAll(Rated(db, rates), specs) else SameCounters(db, db')
  {
    RatesApart(db, rates);
  }

  lemma AfterRates(db: Db, db2: Db, db': Db, s: Spec, k: string)
    requires SameEntry(db, db2, k)
    ensures SameEntry(db2, db', k) ==> SameEntry(db, db', k)
    ensures s.key == k && Raised(db2, db', s) ==> Raised(db, db', s)
  {
  }

  /** All or nothing: a refused call changes no counter; a granted one raises each of its 27
      counters by its own increment and no other. */
  lemma AllOrNothing(db: Db, p: Payload, st: Stamp, ip: string, minute: string,
                     t: Terms, userRate: int, ipRate: int, a: Amounts, k: string, c: Counter)
    requires !IsRate(k)
    ensures var (db', reply) := Enforce(db, RateKeys(p, ip, minute), userRate, ipRate, Specs(p, st, t, a, true));
            && (!reply.Done? ==> SameEntry(db, db', k))
            && (reply.Done? && KeyOf(p, st, c) == k ==> Raised(db, db', SpecOf(p, st, t, a, c)))
            && (reply.Done? && (forall c': Counter :: KeyOf(p, st, c') != k) ==> SameEntry(db, db', k))
  {
    var rates := RateKeys(p, ip, minute);
    var specs := Specs(p, st, t, a, true);
    EnforceOutcome(db, rates, userRate, ipRate, specs);
    RatesApart(db, rates);
    assert SameEntry(db, Rated(db, rates), k);
    var (db', reply) := Enforce(db, rates, userRate, ipRate, specs);
    AfterRates(db, Rated(db, rates), db', SpecOf(p, st, t, a, c), k);
    if reply.Done? {
      GrantAddsEachOnce(Rated(db, rates), p, st, t, a);
    } else {
      assert SameEntry(db, db', k);
    }
  }

  // ---- The scripts as loops ----------------------------------------------------------------

  /** Looks at one counter after the other and stops at the first that has no room. */
  method CheckAll(db: Db, specs: seq<Spec>) returns (reply: Reply)
    ensures reply == Verdict(Admission, db, specs)
  {
    for i := 0 to |specs|
      invariant i <= First(Admission, db, specs)
    {
      var s := specs[i];
      var cur := Count(db, s.key);
      if s.limit == 0 || (s.limit > 0 && cur + s.inc > s.limit) {
        return LimitExceeded(i + 1, cur, s.inc, s.limit);
      }
    }
    return Done;
  }

  method ReportOver(db: Db, specs: seq<Spec>) returns (reply: Reply)
    ensures reply == Verdict(Report, db, specs)
  {
    for i := 0 to |specs|
      invariant i <= First(Report, db, specs)
    {
      var s := specs[i];
      var cur := Count(db, s.key);
      if s.limit == 0 || (s.limit > 0 && cur > s.limit) {
        return LimitExceeded(i + 1, cur, s.inc, s.limit);
      }
    }
    return Done;
  }

  /** The store and the scripts that change it. */
  class Store {
    var now: int
    var counts: map<string, int>
    var dies: map<string, int>

    function View(): Db
      reads this
    {
      Db(now, counts, dies)
    }

    constructor ()
      ensures View() == EMPTY
    {
      now, counts, dies := 0, map[], map[];
    }

    method Wait(until: int)
      modifies this`now
      ensures View() == Tick(old(View()), until)
    {
      if until > now {
        now := until;
      }
    }

    /** `INCRBY`: an expired counter starts again from zero, without an expiry of its own. */
    method IncrBy(key: string, amount: int) returns (value: int)
      modifies this`counts
      ensures value == old(Count(View(), key)) + amount && counts == old(counts)[key := value]
    {
      value := (if key in dies && now > dies[key] then 0 else if key in counts then counts[key] else 0) + amount;
      counts := counts[key := value];
    }

    method Expire(key: string, ttl: nat)
      modifies this`dies
      ensures dies == old(dies)[key := now + 1000 * ttl]
    {
      dies := dies[key := now + 1000 * ttl];
    }

    method Bump(key: string, amount: int, ttl: nat) returns (value: int)
      modifies this`counts, this`dies
      ensures View() == Add(old(View()), key, amount, ttl) && value == Count(View(), key)
    {
      value := IncrBy(key, amount);
      if value == amount {
        Expire(key, ttl);
      }
    }

    method AddEach(specs: seq<Spec>)
      modifies this`counts, this`dies
      ensures View() == AddAll(old(View()), specs)
    {
      assert specs[0..] == specs;
      for i := 0 to |specs|
        invariant AddAll(View(), specs[i..]) == AddAll(old(View()), specs)
      {
        assert specs[i..][1..] == specs[i + 1..];
        var _ := Bump(specs[i].key, specs[i].inc, specs[i].ttl);
      }
    }

    /** Adds a correction; a count that would go negative is set to zero, which drops its expiry. */
    method Correct(s: Spec)
      modifies this`counts, this`dies
      ensures View() == Nudge(old(View()), s.key, s.inc, s.ttl)
    {
      var value := IncrBy(s.key, s.inc);
      if value < 0 {
        counts := counts[s.key := 0];
        dies := dies - {s.key};
      } else if value == s.inc {
        Expire(s.key, s.ttl);
      }
    }

    method CorrectEach(specs: seq<Spec>)
      modifies this`counts, this`dies
      ensures View() == NudgeAll(old(View()), specs)
    {
      assert specs[0..] == specs;
      for i := 0 to |specs|
        invariant NudgeAll(View(), specs[i..]) == NudgeAll(old(View()), specs)
      {
        assert specs[i..][1..] == specs[i + 1..];
        Correct(specs[i]);
      }
    }

    method LimitScript(rates: (string, string), userRate: int, ipRate: int, specs: seq<Spec>) returns (reply: Reply)
      modifies this`counts, this`dies
      ensures (View(), reply) == Enforce(old(View()), rates, userRate, ipRate, specs)
    {
      var r1 := Bump(rates.0, 1, RATE_TTL);
      if r1 > userRate {
        return RateExceeded;
      }
      var r2 := Bump(rates.1, 1, RATE_TTL);
      if r2 > ipRate {
        return RateExceeded;
      }
      reply := CheckAll(View(), specs);
      if reply == Done {
        AddEach(specs);
      }
    }

    method SettleScript(specs: seq<Spec>) returns (reply: Reply)
      modifies this`counts, this`dies
      ensures (View(), reply) == Settle(old(View()), specs)
    {
      CorrectEach(specs);
      reply := ReportOver(View(), specs);
    }
  }
}
