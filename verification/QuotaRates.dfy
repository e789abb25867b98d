/** The per-minute rate windows: whose calls share one, and how many a minute lets through. */
module QuotaRates {
  import opened Numbers
  import opened QuotaKeys
  import opened QuotaScripts
  import opened QuotaRuns
  import opened QuotaLives

  // ---- Who shares a window ---------------------------------------------------------------------

  predicate HasAddress(ip: string) {
    ip != "" && ip != "unknown"
  }

  lemma RateKeyLegible(name: string, minute: string, name': string, minute': string)
    requires |minute| == |minute'|
    ensures "llm:rate:" + name + ":" + minute == "llm:rate:" + name' + ":" + minute'
       <==> name == name' && minute == minute'
  {
    var k, k' := "llm:rate:" + name + ":" + minute, "llm:rate:" + name' + ":" + minute';
    if k == k' {
      assert |k| == 10 + |name| + |minute| && |name| == |name'|;
      assert name == k[9..9 + |name|] == k'[9..9 + |name|] == name';
      assert minute == k[10 + |name|..] == k'[10 + |name|..] == minute';
    }
  }

  lemma AddressNamesApart(ip: string, sub: string)
    ensures "ip:" + ip != "sub:" + sub
  {
    assert ("ip:" + ip)[0] == 'i' && ("sub:" + sub)[0] == 's';
  }

  lemma TailAfter(a: string, x: string, y: string)
    ensures a + x == a + y <==> x == y
  {
    if a + x == a + y { CommonFront(a, x, y); }
  }

  /** What the second window of a call is named after. */
  function AddressName(p: Payload, ip: string): string {
    if HasAddress(ip) then "ip:" + ip else "sub:" + p.submission
  }

  lemma SecondRateKey(p: Payload, ip: string, minute: string)
    ensures RateKeys(p, ip, minute).1 == "llm:rate:" + AddressName(p, ip) + ":" + minute
  {
    if HasAddress(ip) {
      assert "llm:rate:ip:" + ip + ":" + minute == "llm:rate:" + ("ip:" + ip) + ":" + minute;
    } else {
      assert "llm:rate:sub:" + p.submission + ":" + minute == "llm:rate:" + ("sub:" + p.submission) + ":" + minute;
    }
  }

  lemma AddressNamesAgreeIff(p: Payload, ip: string, p': Payload, ip': string)
    ensures AddressName(p, ip) == AddressName(p', ip')
       <==> if HasAddress(ip) then HasAddress(ip') && ip == ip'
            else !HasAddress(ip') && p.submission == p'.submission
  {
    TailAfter("ip:", ip, ip');
    TailAfter("sub:", p.submission, p'.submission);
    AddressNamesApart(ip, p'.submission);
    AddressNamesApart(ip', p.submission);
  }

  /** Minutes are written in one length. Two calls share the first window if and only if they are of
      one user in one minute, and the second if and only if they come in one minute from one address,
      or without an address for one submission; and a user's window is somebody's second one exactly
      if the user is called like that. */
  lemma RateKeysAgreeIff(p: Payload, ip: string, minute: string, p': Payload, ip': string, minute': string)
    requires |minute| == |minute'|
    ensures RateKeys(p, ip, minute).0 == RateKeys(p', ip', minute').0 <==> p.user == p'.user && minute == minute'
    ensures RateKeys(p, ip, minute).1 == RateKeys(p', ip', minute').1
       <==> minute == minute' && (if HasAddress(ip) then HasAddress(ip') && ip == ip'
                                  else !HasAddress(ip') && p.submission == p'.submission)
    ensures RateKeys(p, ip, minute).0 == RateKeys(p', ip', minute').1
       <==> minute == minute' && p.user == AddressName(p', ip')
  {
    SecondRateKey(p, ip, minute);
    SecondRateKey(p', ip', minute');
    RateKeyLegible(p.user, minute, p'.user, minute');
    RateKeyLegible(AddressName(p, ip), minute, AddressName(p', ip'), minute');
    RateKeyLegible(p.user, minute, AddressName(p', ip'), minute');
    AddressNamesAgreeIff(p, ip, p', ip');
  }

  // ---- How often a window is counted -------------------------------------------------------------

  /** The keys of the two windows of an attempt. */
  function KeysOf(op: Op): (string, string)
    requires op.Attempt?
  {
    RateKeys(op.p, op.ip, op.minute)
  }

  /** The user's window has room for one more call. */
  predicate UserPasses(w: World, op: Op)
    requires op.Attempt?
  {
    Count(Found(w, op), KeysOf(op).0) < op.userRate
  }

  /** How often an operation is counted in a window: an attempt in its user's, and in its address's
      if the user's has let it pass. */
  function Hit(w: World, op: Op, k: string): nat {
    if !op.Attempt? || op.n in w.calls then 0
    else (if KeysOf(op).0 == k then 1 else 0) + (if KeysOf(op).1 == k && UserPasses(w, op) then 1 else 0)
  }

  function Hits(limit: string -> int, w: World, ops: seq<Op>, k: string): nat
    decreases |ops|
  {
    if ops == [] then 0 else Hit(w, ops[0], k) + Hits(limit, Step(limit, w, ops[0]), ops[1..], k)
  }

  predicate InWindow(op: Op, k: string) {
    op.Attempt? && (KeysOf(op).0 == k || KeysOf(op).1 == k)
  }

  /** The attempt is judged in this window by no more than this rate. */
  predicate RatesWithin(op: Op, k: string, rate: int)
    requires op.Attempt?
  {
    (KeysOf(op).0 == k ==> op.userRate <= rate) && (KeysOf(op).1 == k ==> op.ipRate <= rate)
  }

  /** How many calls of a window are granted. */
  function GrantsIn(limit: string -> int, w: World, ops: seq<Op>, k: string): nat
    decreases |ops|
  {
    if ops == [] then 0
    else (if InWindow(ops[0], k) && Grants(limit, w, ops[0]) then 1 else 0)
         + GrantsIn(limit, Step(limit, w, ops[0]), ops[1..], k)
  }

  /** The clock runs forward, and the window's attempts come within a minute from `start`, under a
      rate of at most `rate`. */
  predicate InMinute(ops: seq<Op>, now: int, k: string, rate: int, start: int)
    decreases |ops|
  {
    ops == [] ||
    (&& now <= ops[0].t.at
     && (InWindow(ops[0], k) ==> start <= ops[0].t.at <= start + 60_000)
     && (InWindow(ops[0], k) ==> RatesWithin(ops[0], k, rate))
     && InMinute(ops[1..], ops[0].t.at, k, rate, start))
  }

  /** The effect of `n` counts on a window: it is alive, for as long as before or for a minute. */
  ghost predicate Counted(db: Db, db': Db, k: string, n: nat) {
    && db'.now == db.now
    && (n == 0 ==> SameEntry(db, db', k))
    && (n > 0 ==> Alive(db, db', k, RATE_TTL) && Stored(db', k) == Count(db, k) + n)
  }

  lemma AddCounts(db: Db, key: string, k: string)
    ensures Counted(db, Add(db, key, 1, RATE_TTL), k, if key == k then 1 else 0)
  {
  }

  lemma CountedTwice(db: Db, db1: Db, db2: Db, k: string, n: nat, m: nat)
    requires Counted(db, db1, k, n) && Counted(db1, db2, k, m)
    ensures Counted(db, db2, k, n + m)
  {
  }

  lemma GrantLeavesRates(db: Db, op: Op, t: Terms, k: string)
    requires op.Attempt? && IsRate(k)
    ensures Counted(db, AddAll(db, Specs(op.p, op.st, t, Estimate(op.est), true)), k, 0)
  {
    GrantAddsEachOnce(db, op.p, op.st, t, Estimate(op.est));
    forall c: Counter ensures KeyOf(op.p, op.st, c) != k { CountersAreNotRates(op.p, op.st, c); }
    assert Raised(db, AddAll(db, Specs(op.p, op.st, t, Estimate(op.est), true)),
                  SpecOf(op.p, op.st, t, Estimate(op.est), Evaluation(Calls)));
  }

  /** What one run of the script does to a window, and that it grants nothing beyond the rate. */
  lemma ScriptCounts(db: Db, op: Op, t: Terms, k: string, rate: int)
    requires op.Attempt? && IsRate(k) && RatesWithin(op, k, rate)
    ensures var (db', reply) := Enforce(db, KeysOf(op), op.userRate, op.ipRate,
                                        Specs(op.p, op.st, t, Estimate(op.est), true));
            var passes := Count(db, KeysOf(op).0) < op.userRate;
            && Counted(db, db', k, (if KeysOf(op).0 == k then 1 else 0) + if KeysOf(op).1 == k && passes then 1 else 0)
            && (reply.Done? ==> passes && (InWindow(op, k) ==> Stored(db', k) <= rate))
  {
    var rates, specs := KeysOf(op), Specs(op.p, op.st, t, Estimate(op.est), true);
    var db1 := Add(db, rates.0, 1, RATE_TTL);
    var db2 := Add(db1, rates.1, 1, RATE_TTL);
    AddCounts(db, rates.0, rates.0);
    AddCounts(db, rates.0, k);
    AddCounts(db1, rates.1, rates.1);
    AddCounts(db1, rates.1, k);
    CountedTwice(db, db1, db2, k, if rates.0 == k then 1 else 0, if rates.1 == k then 1 else 0);
    GrantLeavesRates(db2, op, t, k);
  }

  // ---- Over a whole minute -------------------------------------------------------------------------

  /** The window counts `hits`, and has not expired and will not within the minute. */
  ghost predicate Open(w: World, k: string, hits: nat, start: int) {
    Stored(w.db, k) == hits && (k in w.db.dies ==> w.db.dies[k] >= start + 60_000)
  }

  lemma StepCounts(limit: string -> int, w: World, op: Op, k: string, rate: int, hits: nat, start: int)
    requires IsRate(k) && Open(w, k, hits, start) && w.db.now <= op.t.at
    requires InWindow(op, k) ==> start <= op.t.at <= start + 60_000
    requires InWindow(op, k) ==> RatesWithin(op, k, rate)
    ensures Open(Step(limit, w, op), k, hits + Hit(w, op, k), start)
    ensures InWindow(op, k) && Grants(limit, w, op) ==> Hit(w, op, k) > 0 && hits + Hit(w, op, k) <= rate
  {
    if op.Attempt? {
      ScriptCounts(Found(w, op), op, TermsOf(limit, op.p, op.t), k, rate);
    } else if Settles(w, op) {
      var p := w.calls[op.n].p;
      forall c: Counter ensures KeyOf(p, op.st, c) != k { CountersAreNotRates(p, op.st, c); }
      SettlementElsewhere(limit, w, op, k);
    }
  }

  /** Over a minute a window counts each attempt once: those of its user, and those of its address
      that their users' windows let pass. */
  lemma {:induction false} MinuteCounts(limit: string -> int, w: World, ops: seq<Op>, k: string, rate: int, hits: nat,
                                        start: int)
    requires IsRate(k) && Open(w, k, hits, start) && InMinute(ops, w.db.now, k, rate, start)
    ensures Open(After(limit, w, ops), k, hits + Hits(limit, w, ops, k), start)
    decreases |ops|
  {
    if ops != [] {
      StepCounts(limit, w, ops[0], k, rate, hits, start);
      StepKeepsTime(limit, w, ops[0]);
      Earlier(ops[1..], Step(limit, w, ops[0]).db.now, ops[0].t.at, k, rate, start);
      MinuteCounts(limit, Step(limit, w, ops[0]), ops[1..], k, rate, hits + Hit(w, ops[0], k), start);
    }
  }

  lemma Earlier(ops: seq<Op>, now: int, now': int, k: string, rate: int, start: int)
    requires now <= now' && InMinute(ops, now', k, rate, start)
    ensures InMinute(ops, now, k, rate, start)
  {
  }

  lemma {:induction false} MinuteGrants(limit: string -> int, w: World, ops: seq<Op>, k: string, rate: int, hits: nat,
                                        start: int, granted: nat)
    requires IsRate(k) && Open(w, k, hits, start) && InMinute(ops, w.db.now, k, rate, start)
    requires granted <= hits && granted <= Max(0, rate)
    ensures granted + GrantsIn(limit, w, ops, k) <= Max(0, rate)
    decreases |ops|
  {
    if ops != [] {
      var op := ops[0];
      StepCounts(limit, w, op, k, rate, hits, start);
      StepKeepsTime(limit, w, op);
      Earlier(ops[1..], Step(limit, w, op).db.now, op.t.at, k, rate, start);
      MinuteGrants(limit, Step(limit, w, op), ops[1..], k, rate, hits + Hit(w, op, k), start,
                   granted + if InWindow(op, k) && Grants(limit, w, op) then 1 else 0);
    }
  }

  /** No minute of a user, an address or a submission is granted more calls than its rate. */
  lemma RateIsKept(limit: string -> int, ops: seq<Op>, k: string, rate: int, start: int)
    requires IsRate(k) && InMinute(ops, 0, k, rate, start)
    ensures GrantsIn(limit, FRESH, ops, k) <= Max(0, rate)
  {
    MinuteGrants(limit, FRESH, ops, k, rate, 0, start, 0);
  }

  lemma {:induction false} RunKeepsTime(limit: string -> int, w: World, ops: seq<Op>, k: string, rate: int, start: int,
                                        last: Op)
    requires InMinute(ops + [last], w.db.now, k, rate, start)
    ensures After(limit, w, ops).db.now <= last.t.at
    ensures InWindow(last, k) ==> start <= last.t.at <= start + 60_000
    decreases |ops|
  {
    if ops != [] {
      assert (ops + [last])[1..] == ops[1..] + [last];
      StepKeepsTime(limit, w, ops[0]);
      Earlier(ops[1..] + [last], Step(limit, w, ops[0]).db.now, ops[0].t.at, k, rate, start);
      RunKeepsTime(limit, Step(limit, w, ops[0]), ops[1..], k, rate, start, last);
    }
  }

  lemma {:induction false} Prefix(ops: seq<Op>, last: Op, now: int, k: string, rate: int, start: int)
    requires InMinute(ops + [last], now, k, rate, start)
    ensures InMinute(ops, now, k, rate, start)
    decreases |ops|
  {
    if ops != [] {
      assert (ops + [last])[1..] == ops[1..] + [last];
      Prefix(ops[1..], last, ops[0].t.at, k, rate, start);
    }
  }

  /** An attempt passes its user's window if and only if the attempts counted there this minute are
      fewer than the user's rate. */
  lemma UserPassesIff(limit: string -> int, ops: seq<Op>, op: Op, rate: int, start: int)
    requires op.Attempt? && InMinute(ops + [op], 0, KeysOf(op).0, rate, start)
    ensures UserPasses(After(limit, FRESH, ops), op) <==> Hits(limit, FRESH, ops, KeysOf(op).0) < op.userRate
  {
    var k := KeysOf(op).0;
    Prefix(ops, op, 0, k, rate, start);
    RunKeepsTime(limit, FRESH, ops, k, rate, start, op);
    MinuteCounts(limit, FRESH, ops, k, rate, 0, start);
  }
}
