/** How long the quota counters live: long enough for every window, and for an evaluation as long as
    nobody calls after the first caller's time is up. */
module QuotaLives {
  import opened QuotaKeys
  import opened QuotaScripts
  import opened QuotaRuns

  // ---- A horizon that every use of a counter respects --------------------------------------------

  /** Whose token the operation is charged to. */
  function TokenOf(w: World, op: Op): Payload
    requires op.Conclude? ==> op.n in w.calls
  {
    if op.Attempt? then op.p else w.calls[op.n].p
  }

  /** Time goes on, and an operation on this counter comes by the horizon `h` and would start the
      counter to live at least that long. */
  ghost predicate Respects(w: World, op: Op, k: string, h: int) {
    && w.db.now <= op.t.at
    && (Touches(w, op, k) ==>
          && op.t.at <= h
          && forall c: Counter :: KeyOf(TokenOf(w, op), op.st, c) == k ==>
               op.t.at + 1000 * Life(TokenOf(w, op), op.t, c) >= h)
  }

  ghost predicate AllRespect(limit: string -> int, w: World, ops: seq<Op>, k: string, h: int)
    decreases |ops|
  {
    ops == [] || (Respects(w, ops[0], k, h) && AllRespect(limit, Step(limit, w, ops[0]), ops[1..], k, h))
  }

  /** If it has an expiry, that is not before the horizon. */
  ghost predicate LivesTo(w: World, k: string, h: int) {
    k in w.db.dies ==> w.db.dies[k] >= h
  }

  lemma AttemptLivesTo(limit: string -> int, w: World, op: Op, k: string, h: int)
    requires op.Attempt? && !IsRate(k) && LivesTo(w, k, h) && Respects(w, op, k, h)
    ensures LivesTo(Step(limit, w, op), k, h)
  {
    var c := if ChargedTo(op.p, op.st, k) then (var x :| KeyOf(op.p, op.st, x) == k; x) else Evaluation(Calls);
    AttemptAt(limit, w, op, k, c);
    if ChargedTo(op.p, op.st, k) {
      assert KeyOf(TokenOf(w, op), op.st, c) == k;
      assert SpecAt(limit, op, c).ttl == Life(op.p, op.t, c);
    }
  }

  lemma SettlementLivesTo(limit: string -> int, w: World, op: Op, k: string, h: int)
    requires Settles(w, op) && LivesTo(w, k, h) && Respects(w, op, k, h)
    ensures LivesTo(Step(limit, w, op), k, h)
  {
    if Corrected(w.calls[op.n].p, op.st, k) {
      var c: Counter :| c.metric != Calls && KeyOf(w.calls[op.n].p, op.st, c) == k;
      SettlementHere(limit, w, op, c);
      assert KeyOf(TokenOf(w, op), op.st, c) == k;
    } else {
      SettlementElsewhere(limit, w, op, k);
    }
  }

  /** A counter that everyone uses by the horizon, and would start to live to it, is never found
      expired. */
  lemma {:induction false} HorizonKeepsAlive(limit: string -> int, w: World, ops: seq<Op>, k: string, h: int)
    requires !IsRate(k) && LivesTo(w, k, h) && AllRespect(limit, w, ops, k, h)
    ensures AllFoundAlive(limit, w, ops, k)
    decreases |ops|
  {
    if ops != [] {
      if ops[0].Attempt? {
        AttemptLivesTo(limit, w, ops[0], k, h);
      } else if Settles(w, ops[0]) {
        SettlementLivesTo(limit, w, ops[0], k, h);
      }
      HorizonKeepsAlive(limit, Step(limit, w, ops[0]), ops[1..], k, h);
    }
  }

  lemma StepKeepsTime(limit: string -> int, w: World, op: Op)
    requires w.db.now <= op.t.at
    ensures Step(limit, w, op).db.now <= op.t.at
  {
    var k := KeyOf(Payload("", "", "", "", 0, 0), Stamp("", ""), Evaluation(Calls));
    CountersAreNotRates(Payload("", "", "", "", 0, 0), Stamp("", ""), Evaluation(Calls));
    if op.Attempt? {
      if op.n !in w.calls {
        AttemptTime(Found(w, op), op, TermsOf(limit, op.p, op.t));
      }
    } else if Settles(w, op) {
      SettlementHere(limit, w, op, Evaluation(Tokens));
    }
  }

  lemma AttemptTime(db: Db, op: Op, t: Terms)
    requires op.Attempt?
    ensures Enforce(db, RateKeys(op.p, op.ip, op.minute), op.userRate, op.ipRate,
                    Specs(op.p, op.st, t, Estimate(op.est), true)).0.now == db.now
  {
    var k := KeyOf(op.p, op.st, Evaluation(Calls));
    CountersAreNotRates(op.p, op.st, Evaluation(Calls));
    AllOrNothing(db, op.p, op.st, op.ip, op.minute, t, op.userRate, op.ipRate, Estimate(op.est), k, Evaluation(Calls));
  }

  // ---- The counters of a scope -------------------------------------------------------------------

  /** The clock runs forward, every operation falls before the ends of its day and month, and whoever
      writes this window's date means the window that ends at `end`. */
  predicate Dated(ops: seq<Op>, now: int, win: Window, date: string, end: int)
    decreases |ops|
  {
    ops == [] ||
    (&& now <= ops[0].t.at < EndOf(ops[0].t, win) && PlainStamp(ops[0].st)
     && (WindowKey(ops[0].st, win) == date ==> EndOf(ops[0].t, win) == end)
     && Dated(ops[1..], ops[0].t.at, win, date, end))
  }

  lemma LivesToWindowEnd(w: World, op: Op, p: Payload, st: Stamp, c: Counter, end: int)
    requires c.Scoped? && PlainStamp(st) && PlainStamp(op.st)
    requires w.db.now <= op.t.at < EndOf(op.t, c.window)
    requires WindowKey(op.st, c.window) == WindowKey(st, c.window) ==> EndOf(op.t, c.window) == end
    ensures Respects(w, op, KeyOf(p, st, c), end)
  {
    var k := KeyOf(p, st, c);
    if Touches(w, op, k) {
      var q := TokenOf(w, op);
      forall x: Counter | KeyOf(q, op.st, x) == k
        ensures op.t.at <= end <= op.t.at + 1000 * Life(q, op.t, x)
      {
        SharedCounterIff(q, op.st, x, p, st, c);
      }
      var x :| KeyOf(q, op.st, x) == k;
    }
  }

  lemma {:induction false} DatedRespects(limit: string -> int, w: World, ops: seq<Op>, now: int, p: Payload, st: Stamp,
                                         c: Counter, end: int)
    requires c.Scoped? && PlainStamp(st) && w.db.now <= now
    requires Dated(ops, now, c.window, WindowKey(st, c.window), end)
    ensures AllRespect(limit, w, ops, KeyOf(p, st, c), end)
    decreases |ops|
  {
    if ops != [] {
      LivesToWindowEnd(w, ops[0], p, st, c, end);
      StepKeepsTime(limit, w, ops[0]);
      DatedRespects(limit, Step(limit, w, ops[0]), ops[1..], ops[0].t.at, p, st, c, end);
    }
  }

  /** A scope's counter outlives its window: on a clock that agrees with the dates it is never found
      expired, whatever the ids. */
  lemma WindowsAreOutlived(limit: string -> int, ops: seq<Op>, p: Payload, st: Stamp, c: Counter, end: int)
    requires c.Scoped? && PlainStamp(st) && Dated(ops, 0, c.window, WindowKey(st, c.window), end)
    ensures AllFoundAlive(limit, FRESH, ops, KeyOf(p, st, c))
  {
    CountersAreNotRates(p, st, c);
    DatedRespects(limit, FRESH, ops, 0, p, st, c, end);
    HorizonKeepsAlive(limit, FRESH, ops, KeyOf(p, st, c), end);
  }

  /** So in a user's, a problem's or everybody's day or month no more calls are granted than the
      limit allows, without further assumption. */
  lemma WindowCallsNeverExceedLimit(limit: string -> int, ops: seq<Op>, p: Payload, st: Stamp, c: Counter, end: int)
    requires c.Scoped? && c.metric == Calls && PlainStamp(st) && limit(KeyOf(p, st, c)) >= 0
    requires Dated(ops, 0, c.window, WindowKey(st, c.window), end)
    ensures |Granted(After(limit, FRESH, ops).calls, KeyOf(p, st, c))| <= limit(KeyOf(p, st, c))
  {
    WindowsAreOutlived(limit, ops, p, st, c, end);
    GrantsNeverExceedLimit(limit, ops, p, st, c);
  }

  /** And its counters hold what its calls use, if these are settled in their windows. */
  lemma WindowIsConserved(limit: string -> int, ops: seq<Op>, p: Payload, st: Stamp, c: Counter, end: int)
    requires c.Scoped? && PlainStamp(st) && AllOnTime(limit, FRESH, ops)
    requires Dated(ops, 0, c.window, WindowKey(st, c.window), end)
    ensures var w := After(limit, FRESH, ops); Stored(w.db, KeyOf(p, st, c)) == Total(w.calls, KeyOf(p, st, c))
  {
    CountersAreNotRates(p, st, c);
    WindowsAreOutlived(limit, ops, p, st, c, end);
    QuotaIsConserved(limit, ops, KeyOf(p, st, c));
  }

  // ---- The counters of an evaluation ---------------------------------------------------------------

  /** The clock runs forward, and all calls of this evaluation come by `h`, with tokens that live as
      long as it takes from their call to `h`. */
  predicate CallsBy(ops: seq<Op>, now: int, p: Payload, h: int)
    decreases |ops|
  {
    ops == [] ||
    (&& now <= ops[0].t.at
     && (ops[0].Attempt? && EvaluationPrefix(ops[0].p) == EvaluationPrefix(p) ==>
           ops[0].t.at <= h <= ops[0].t.at + 1000 * Lifetime(ops[0].p))
     && CallsBy(ops[1..], ops[0].t.at, p, h))
  }

  lemma CallRespects(w: World, op: Op, p: Payload, st: Stamp, h: int)
    requires w.db.now <= op.t.at
    requires op.Attempt? && EvaluationPrefix(op.p) == EvaluationPrefix(p) ==>
               op.t.at <= h <= op.t.at + 1000 * Lifetime(op.p)
    ensures Respects(w, op, KeyOf(p, st, Evaluation(Calls)), h)
  {
    var k := KeyOf(p, st, Evaluation(Calls));
    if op.Conclude? && op.n in w.calls {
      CallsAreNotCorrected(w.calls[op.n].p, op.st, p, st, Evaluation(Calls));
    }
    if Touches(w, op, k) {
      forall x: Counter | KeyOf(op.p, op.st, x) == k ensures op.t.at <= h <= op.t.at + 1000 * Life(op.p, op.t, x) {
        SharedKeySharesKind(op.p, op.st, x, p, st, Evaluation(Calls));
      }
      var x :| KeyOf(op.p, op.st, x) == k;
    }
  }

  lemma {:induction false} CallsRespect(limit: string -> int, w: World, ops: seq<Op>, now: int, p: Payload,
                                        st: Stamp, h: int)
    requires w.db.now <= now && CallsBy(ops, now, p, h)
    ensures AllRespect(limit, w, ops, KeyOf(p, st, Evaluation(Calls)), h)
    decreases |ops|
  {
    if ops != [] {
      CallRespects(w, ops[0], p, st, h);
      StepKeepsTime(limit, w, ops[0]);
      CallsRespect(limit, Step(limit, w, ops[0]), ops[1..], ops[0].t.at, p, st, h);
    }
  }

  /** An evaluation is granted no more calls than its limit, if all of them come within the lifetime,
      from its own call, of every token used. */
  lemma EvaluationCallsNeverExceedLimit(limit: string -> int, ops: seq<Op>, p: Payload, st: Stamp, h: int)
    requires CallsBy(ops, 0, p, h) && limit(KeyOf(p, st, Evaluation(Calls))) >= 0
    ensures var k := KeyOf(p, st, Evaluation(Calls)); |Granted(After(limit, FRESH, ops).calls, k)| <= limit(k)
  {
    var k := KeyOf(p, st, Evaluation(Calls));
    CountersAreNotRates(p, st, Evaluation(Calls));
    CallsRespect(limit, FRESH, ops, 0, p, st, h);
    HorizonKeepsAlive(limit, FRESH, ops, k, h);
    GrantsNeverExceedLimit(limit, ops, p, st, Evaluation(Calls));
  }

  /** One token's calls do, but for its very last second: a token is accepted until the second it
      expires in is over, and the counter's life is counted in whole seconds from the first call. */
  lemma TokenOutlivedUntilExpiry(p: Payload, at: int)
    requires 1000 * p.iat <= at <= 1000 * p.exp
    ensures at <= 1000 * p.exp <= at + 1000 * Lifetime(p)
  {
  }

  /** And with it, if the token lives less than a minute, or is first used at the end of the second
      it was issued in. */
  lemma TokenOutlivedInLastSecond(p: Payload, at: int)
    requires at <= 1000 * p.exp + 999 && ((1000 * p.iat <= at && p.exp - p.iat < 60) || 1000 * p.iat + 999 <= at)
    ensures at <= 1000 * p.exp + 999 <= at + 1000 * Lifetime(p)
  {
  }

  // ---- A second budget -----------------------------------------------------------------------------

  /** One call for this counter, and no other limits. */
  function OneCallOf(k: string): string -> int {
    x => if x == k then 1 else -1
  }

  lemma RatesAreFar(db: Db, rates: (string, string))
    requires forall r :: IsRate(r) ==> Count(db, r) <= 2
    requires IsRate(rates.0) && IsRate(rates.1)
    ensures RatesAllow(db, rates, 100, 100)
  {
    assert Count(db, rates.0) <= 2 && Count(db, rates.1) <= 2;
  }

  /** The first call is granted, and its budget is used up for the lifetime of its token. */
  lemma FirstCall(p: Payload, st: Stamp, t: Time, est: Use, k: string, w: World)
    requires k == KeyOf(p, st, Evaluation(Calls)) && t.at >= 0
    requires w == Step(OneCallOf(k), FRESH, CallAt(0, p, st, t, est))
    ensures w.calls == map[0 := Call(p, st, est, Pending)] && w.db.now == t.at
    ensures Stored(w.db, k) == 1 && k in w.db.dies && w.db.dies[k] == t.at + 1000 * Lifetime(p)
  {
    var op := CallAt(0, p, st, t, est);
    var terms := TermsOf(OneCallOf(k), p, t);
    RatesAreFar(Found(FRESH, op), RateKeys(p, "", ""));
    forall c: Counter ensures HasRoom(Found(FRESH, op), p, st, terms, Estimate(est), c) {
      KeysAgreeIff(p, st, c, st, Evaluation(Calls));
    }
    GrantedIff(Found(FRESH, op), p, st, "", "", terms, 100, 100, Estimate(est));
    CountersAreNotRates(p, st, Evaluation(Calls));
    AttemptAt(OneCallOf(k), FRESH, op, k, Evaluation(Calls));
    assert map[][0 := Call(p, st, est, Pending)] == map[0 := Call(p, st, est, Pending)];
  }

  lemma FewRates(p: Payload, st: Stamp, t: Time, est: Use, k: string, w: World, r: string)
    requires k == KeyOf(p, st, Evaluation(Calls)) && IsRate(r)
    requires w == Step(OneCallOf(k), FRESH, CallAt(0, p, st, t, est))
    ensures Stored(w.db, r) <= 2
  {
    var op := CallAt(0, p, st, t, est);
    var db := Found(FRESH, op);
    var rates := RateKeys(p, "", "");
    var terms := TermsOf(OneCallOf(k), p, t);
    forall c: Counter ensures KeyOf(p, st, c) != r {
      CountersAreNotRates(p, st, c);
    }
    GrantAddsEachOnce(Rated(db, rates), p, st, terms, Estimate(est));
    assert SameEntry(Rated(db, rates), AddAll(Rated(db, rates), Specs(p, st, terms, Estimate(est), true)), r);
    FewerRates(db, rates, r);
  }

  lemma FewerRates(db: Db, rates: (string, string), r: string)
    requires db.counts == map[] && db.dies == map[]
    ensures Stored(Rated(db, rates), r) <= 2 && Stored(Add(db, rates.0, 1, RATE_TTL), r) <= 2 && Stored(db, r) <= 2
  {
  }

  /** A second call on that budget, with the same token or another, is granted if and only if it comes
      after that lifetime. */
  lemma SecondCall(w: World, q: Payload, st: Stamp, t: Time, est: Use, k: string, ends: int)
    requires k == KeyOf(q, st, Evaluation(Calls)) && w.db.now <= t.at
    requires 1 !in w.calls && Stored(w.db, k) == 1 && k in w.db.dies && w.db.dies[k] == ends
    requires forall r :: IsRate(r) ==> Stored(w.db, r) <= 2
    ensures Grants(OneCallOf(k), w, CallAt(1, q, st, t, est)) <==> t.at > ends
  {
    var op := CallAt(1, q, st, t, est);
    var db := Found(w, op);
    var terms := TermsOf(OneCallOf(k), q, t);
    forall r | IsRate(r) ensures Count(db, r) <= 2 {
      assert Stored(db, r) == Stored(w.db, r);
    }
    RatesAreFar(db, RateKeys(q, "", ""));
    GrantedIff(db, q, st, "", "", terms, 100, 100, Estimate(est));
    forall c: Counter
      ensures HasRoom(db, q, st, terms, Estimate(est), c) <==> (c == Evaluation(Calls) ==> t.at > ends)
    {
      KeysAgreeIff(q, st, c, st, Evaluation(Calls));
    }
  }

  lemma BothGranted(call: Call, call': Call, k: string)
    requires ChargedTo(call.p, call.st, k) && ChargedTo(call'.p, call'.st, k)
    ensures |Granted(map[0 := call, 1 := call'], k)| == 2 && |Granted(map[0 := call], k)| == 1
  {
    assert Granted(map[0 := call, 1 := call'], k) == {0, 1};
    assert Granted(map[0 := call], k) == {0};
  }

  /** When a budget begins again. Two calls of one evaluation, whose limit is one call, are both
      granted if and only if the second comes after the lifetime, counted from the first call, of the
      first call's token. The second token may be another one, as for a re-test of a submission that
      has no attempt id; it may also be the same one, in its last second. */
  lemma BudgetBeginsAgainIff(p: Payload, st: Stamp, t: Time, q: Payload, st': Stamp, t': Time, est: Use, est': Use)
    requires EvaluationPrefix(p) == EvaluationPrefix(q) && 0 <= t.at <= t'.at
    ensures var k := KeyOf(p, st, Evaluation(Calls));
            |Granted(After(OneCallOf(k), FRESH, [CallAt(0, p, st, t, est), CallAt(1, q, st', t', est')]).calls, k)| == 2
            <==> t'.at > t.at + 1000 * Lifetime(p)
  {
    var k := KeyOf(p, st, Evaluation(Calls));
    var a, b := CallAt(0, p, st, t, est), CallAt(1, q, st', t', est');
    var w1 := Step(OneCallOf(k), FRESH, a);
    var w2 := Step(OneCallOf(k), w1, b);
    FirstCall(p, st, t, est, k, w1);
    forall r | IsRate(r) ensures Stored(w1.db, r) <= 2 {
      FewRates(p, st, t, est, k, w1, r);
    }
    SecondCall(w1, q, st', t', est', k, t.at + 1000 * Lifetime(p));
    CountersAreNotRates(q, st', Evaluation(Calls));
    AttemptAt(OneCallOf(k), w1, b, k, Evaluation(Calls));
    AfterTwo(OneCallOf(k), FRESH, a, w1, b, w2);
    var call, call' := Call(p, st, est, Pending), Call(q, st', est', Pending);
    assert map[0 := call][1 := call'] == map[0 := call, 1 := call'];
    BothGranted(call, call', k);
  }

  /** For instance within one token's life: issued for an hour and used at once, it gets its only call
      a second time half a second after that hour, when it is still accepted. */
  lemma LastSecondIsFree(p: Payload, st: Stamp, t: Time, st': Stamp, t': Time, est: Use, est': Use)
    requires p.iat >= 0 && p.exp == p.iat + 3600 && t.at == 1000 * p.iat + 100 && t'.at == 1000 * p.exp + 500
    ensures var k := KeyOf(p, st, Evaluation(Calls));
            |Granted(After(OneCallOf(k), FRESH, [CallAt(0, p, st, t, est), CallAt(1, p, st', t', est')]).calls, k)| == 2
  {
    BudgetBeginsAgainIff(p, st, t, p, st', t', est, est');
  }
}
