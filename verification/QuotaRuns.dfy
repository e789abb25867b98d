/** Quota counters over whole runs: any number of calls attempted and settled in any order. */
module QuotaRuns {
  import opened FiniteSums
  import opened Numbers
  import opened QuotaKeys
  import opened QuotaScripts

  datatype Use = Use(tokens: nat, cost: nat)

  datatype Settlement = Pending | Settled(st: Stamp, actual: Use)

  /** A granted call: what it was charged as, when, and what it turned out to use. */
  datatype Call = Call(p: Payload, st: Stamp, est: Use, settlement: Settlement)

  datatype World = World(db: Db, calls: map<nat, Call>)

  /** An instant in milliseconds, and when its day and its month end. */
  datatype Time = Time(at: int, dayEnd: int, monthEnd: int)

  function EndOf(t: Time, w: Window): int {
    if w == Day then t.dayEnd else t.monthEnd
  }

  datatype Op =
    | Attempt(n: nat, p: Payload, st: Stamp, t: Time, ip: string, minute: string, userRate: int, ipRate: int, est: Use)
    | Conclude(n: nat, st: Stamp, t: Time, actual: Use)

  function Estimate(u: Use): Amounts {
    Amounts(1, u.tokens, u.cost)
  }

  function Difference(est: Use, actual: Use): Amounts {
    Amounts(0, actual.tokens - est.tokens, actual.cost - est.cost)
  }

  /** How long a token's own counters live from their start, in seconds. */
  function Lifetime(p: Payload): nat {
    Max(60, p.exp - p.iat)
  }

  /** A scope's counter lives to the end of its window, the evaluation's for a token's lifetime. */
  function Life(p: Payload, t: Time, c: Counter): nat {
    match c
    case Evaluation(_) => Lifetime(p)
    case Scoped(_, w, _) => Max(1, CeilSeconds(EndOf(t, w) - t.at))
  }

  function TermsOf(limit: string -> int, p: Payload, t: Time): Terms {
    Terms(limit, c => Life(p, t, c))
  }

  /** Whether this settlement reaches the server: the call was granted and not settled before. */
  predicate Settles(w: World, op: Op) {
    op.Conclude? && op.n in w.calls && w.calls[op.n].settlement.Pending?
  }

  /** The counters as the operation finds them. */
  function Found(w: World, op: Op): Db {
    Tick(w.db, op.t.at)
  }

  function Step(limit: string -> int, w: World, op: Op): World {
    match op
    case Attempt(n, p, st, t, ip, minute, userRate, ipRate, est) =>
      if n in w.calls then w else
      var (db, reply) := Enforce(Found(w, op), RateKeys(p, ip, minute), userRate, ipRate,
                                 Specs(p, st, TermsOf(limit, p, t), Estimate(est), true));
      World(db, if reply.Done? then w.calls[n := Call(p, st, est, Pending)] else w.calls)
    case Conclude(n, st, t, actual) =>
      if !Settles(w, op) then w else
      var c := w.calls[n];
      World(Settle(Found(w, op), Specs(c.p, st, TermsOf(limit, c.p, t), Difference(c.est, actual), false)).0,
            w.calls[n := c.(settlement := Settled(st, actual))])
  }

  function After(limit: string -> int, w: World, ops: seq<Op>): World
    decreases |ops|
  {
    if ops == [] then w else After(limit, Step(limit, w, ops[0]), ops[1..])
  }

  const FRESH: World := World(EMPTY, map[])

  // ---- What the counters should say ------------------------------------------------------------

  function Metered(u: Use, m: Metric): nat {
    match m case Calls => 1 case Tokens => u.tokens case Cost => u.cost
  }

  /** A call counts for what it used, once that is known, and for its estimate until then. */
  function Worth(c: Call, m: Metric): nat {
    Metered(if c.settlement.Settled? then c.settlement.actual else c.est, m)
  }

  ghost predicate ChargedTo(p: Payload, st: Stamp, k: string) {
    exists c :: KeyOf(p, st, c) == k
  }

  ghost function Charge(c: Call, k: string): nat {
    if ChargedTo(c.p, c.st, k) then
      var x :| KeyOf(c.p, c.st, x) == k;
      Worth(c, x.metric)
    else 0
  }

  lemma ChargeAt(c: Call, x: Counter)
    ensures Charge(c, KeyOf(c.p, c.st, x)) == Worth(c, x.metric)
  {
    var k := KeyOf(c.p, c.st, x);
    assert ChargedTo(c.p, c.st, k);
    var y :| KeyOf(c.p, c.st, y) == k && Charge(c, k) == Worth(c, y.metric);
    SharedKeySharesKind(c.p, c.st, x, c.p, c.st, y);
  }

  ghost function Charges(calls: map<nat, Call>, k: string): nat -> nat {
    n => if n in calls then Charge(calls[n], k) else 0
  }

  ghost function Total(calls: map<nat, Call>, k: string): nat {
    Sum(calls.Keys, Charges(calls, k))
  }

  /** One counter's books are right. */
  ghost predicate Balanced(w: World, k: string) {
    Stored(w.db, k) == Total(w.calls, k)
  }

  lemma TotalWithNew(calls: map<nat, Call>, n: nat, c: Call, k: string)
    requires n !in calls
    ensures Total(calls[n := c], k) == Total(calls, k) + Charge(c, k)
  {
    var calls' := calls[n := c];
    assert calls'.Keys == calls.Keys + {n};
    SumAdd(calls.Keys, Charges(calls', k), n);
    SumSame(calls.Keys, Charges(calls', k), Charges(calls, k));
  }

  lemma TotalWithChanged(calls: map<nat, Call>, n: nat, c: Call, k: string)
    requires n in calls
    ensures Total(calls[n := c], k) + Charge(calls[n], k) == Total(calls, k) + Charge(c, k)
    ensures Charge(calls[n], k) <= Total(calls, k)
  {
    var calls' := calls[n := c];
    assert calls'.Keys == calls.Keys;
    SumReplace(calls.Keys, Charges(calls, k), Charges(calls', k), n);
    SumRemove(calls.Keys, Charges(calls, k), n);
  }

  // ---- Conservation ----------------------------------------------------------------------------

  ghost predicate Corrected(p: Payload, st: Stamp, k: string) {
    exists c: Counter :: c.metric != Calls && KeyOf(p, st, c) == k
  }

  /** Whether the operation is about this counter. */
  ghost predicate Touches(w: World, op: Op, k: string) {
    match op
    case Attempt(_, p, st, _, _, _, _, _, _) => ChargedTo(p, st, k)
    case Conclude(n, st, _, _) => Settles(w, op) && Corrected(w.calls[n].p, st, k)
  }

  /** A counter is only touched while it lives. */
  ghost predicate FoundAlive(w: World, op: Op, k: string) {
    Touches(w, op, k) ==> !Expired(Found(w, op), k)
  }

  /** A counter left as it was, expiry and all. */
  ghost predicate Untouched(w: World, w': World, k: string) {
    && Stored(w'.db, k) == Stored(w.db, k)
    && (k in w'.db.dies <==> k in w.db.dies) && (k in w.db.dies ==> w'.db.dies[k] == w.db.dies[k])
  }

  /** Whether this attempt is granted. */
  predicate Grants(limit: string -> int, w: World, op: Op)
    requires op.Attempt?
  {
    && op.n !in w.calls
    && Enforce(Found(w, op), RateKeys(op.p, op.ip, op.minute), op.userRate, op.ipRate,
               Specs(op.p, op.st, TermsOf(limit, op.p, op.t), Estimate(op.est), true)).1.Done?
  }

  function SpecAt(limit: string -> int, op: Op, c: Counter): Spec
    requires op.Attempt?
  {
    SpecOf(op.p, op.st, TermsOf(limit, op.p, op.t), Estimate(op.est), c)
  }

  /** What an attempt does to a counter: a refused one nothing, a granted one adds its part to
      the counters it is charged to. */
  lemma AttemptAt(limit: string -> int, w: World, op: Op, k: string, c: Counter)
    requires op.Attempt? && !IsRate(k)
    ensures var w' := Step(limit, w, op);
            && w'.calls
               == (if Grants(limit, w, op) then w.calls[op.n := Call(op.p, op.st, op.est, Pending)] else w.calls)
            && (!Grants(limit, w, op) || !ChargedTo(op.p, op.st, k) ==> Untouched(w, w', k))
            && (Grants(limit, w, op) && KeyOf(op.p, op.st, c) == k ==>
                  Raised(Found(w, op), w'.db, SpecAt(limit, op, c)))
  {
    AllOrNothing(Found(w, op), op.p, op.st, op.ip, op.minute, TermsOf(limit, op.p, op.t), op.userRate, op.ipRate,
                 Estimate(op.est), k, c);
  }

  lemma ChargedAttemptBalances(limit: string -> int, w: World, op: Op, c: Counter)
    requires op.Attempt? && Grants(limit, w, op)
    requires Balanced(w, KeyOf(op.p, op.st, c)) && !Expired(Found(w, op), KeyOf(op.p, op.st, c))
    ensures Balanced(Step(limit, w, op), KeyOf(op.p, op.st, c))
  {
    var k := KeyOf(op.p, op.st, c);
    var call := Call(op.p, op.st, op.est, Pending);
    CountersAreNotRates(op.p, op.st, c);
    AttemptAt(limit, w, op, k, c);
    ChargeAt(call, c);
    TotalWithNew(w.calls, op.n, call, k);
  }

  lemma OtherAttemptBalances(limit: string -> int, w: World, op: Op, k: string)
    requires op.Attempt? && !IsRate(k) && Balanced(w, k) && (!Grants(limit, w, op) || !ChargedTo(op.p, op.st, k))
    ensures Balanced(Step(limit, w, op), k)
  {
    AttemptAt(limit, w, op, k, Evaluation(Calls));
    if Grants(limit, w, op) {
      TotalWithNew(w.calls, op.n, Call(op.p, op.st, op.est, Pending), k);
    }
  }

  /** An attempt that finds its counters alive keeps every counter's books. */
  lemma AttemptBalances(limit: string -> int, w: World, op: Op, k: string)
    requires op.Attempt? && !IsRate(k) && Balanced(w, k) && FoundAlive(w, op, k)
    ensures Balanced(Step(limit, w, op), k)
  {
    if Grants(limit, w, op) && ChargedTo(op.p, op.st, k) {
      var c :| KeyOf(op.p, op.st, c) == k;
      ChargedAttemptBalances(limit, w, op, c);
    } else {
      OtherAttemptBalances(limit, w, op, k);
    }
  }

  /** One that finds a counter expired starts it again: the books stay right if and only if nothing
      had been counted there. */
  lemma RestartBalancesIff(limit: string -> int, w: World, op: Op, c: Counter)
    requires op.Attempt? && Grants(limit, w, op)
    requires Balanced(w, KeyOf(op.p, op.st, c)) && Expired(Found(w, op), KeyOf(op.p, op.st, c))
    ensures Balanced(Step(limit, w, op), KeyOf(op.p, op.st, c)) <==> Stored(w.db, KeyOf(op.p, op.st, c)) == 0
  {
    var k := KeyOf(op.p, op.st, c);
    CountersAreNotRates(op.p, op.st, c);
    AttemptAt(limit, w, op, k, c);
    var call := Call(op.p, op.st, op.est, Pending);
    ChargeAt(call, c);
    TotalWithNew(w.calls, op.n, call, k);
  }

  /** Within its window a settlement finds at least the estimate in every living counter: the result
      is never negative, and nothing is clamped. */
  lemma NothingToClamp(w: World, n: nat, actual: Use, c: Counter)
    requires n in w.calls && w.calls[n].settlement.Pending?
    requires Balanced(w, KeyOf(w.calls[n].p, w.calls[n].st, c)) && c.metric != Calls
    ensures var call := w.calls[n];
            Metered(actual, c.metric)
            <= Stored(w.db, KeyOf(call.p, call.st, c)) + In(Difference(call.est, actual), c.metric)
  {
    var call := w.calls[n];
    ChargeAt(call, c);
    TotalWithChanged(w.calls, n, call, KeyOf(call.p, call.st, c));
  }

  lemma SettleElsewhere(db: Db, p: Payload, st: Stamp, t: Terms, a: Amounts, k: string)
    requires !Corrected(p, st, k)
    ensures SameEntry(db, Settle(db, Specs(p, st, t, a, false)).0, k)
  {
    SettlementCorrectsEachOnce(db, p, st, t, a);
  }

  lemma SettlementElsewhere(limit: string -> int, w: World, op: Op, k: string)
    requires Settles(w, op) && !Corrected(w.calls[op.n].p, op.st, k)
    ensures Untouched(w, Step(limit, w, op), k)
  {
    var c := w.calls[op.n];
    SettleElsewhere(Found(w, op), c.p, op.st, TermsOf(limit, c.p, op.t), Difference(c.est, op.actual), k);
  }

  lemma SettlementHere(limit: string -> int, w: World, op: Op, c: Counter)
    requires Settles(w, op) && c.metric != Calls
    ensures var call := w.calls[op.n];
            Nudged(Found(w, op), Step(limit, w, op).db,
                   SpecOf(call.p, op.st, TermsOf(limit, call.p, op.t), Difference(call.est, op.actual), c))
  {
    var call := w.calls[op.n];
    SettlementCorrectsEachOnce(Found(w, op), call.p, op.st, TermsOf(limit, call.p, op.t),
                               Difference(call.est, op.actual));
  }

  /** The difference a settlement is to make to a counter. */
  function Delta(w: World, op: Op, m: Metric): int
    requires Settles(w, op)
  {
    In(Difference(w.calls[op.n].est, op.actual), m)
  }

  /** What an expired counter would have to hold for its correction to do no harm: the correction
      starts it again, from zero. */
  ghost predicate Harmless(w: World, op: Op, c: Counter)
    requires Settles(w, op)
  {
    var k := KeyOf(w.calls[op.n].p, op.st, c);
    Expired(Found(w, op), k) ==> Max(0, Delta(w, op, c.metric)) == Stored(w.db, k) + Delta(w, op, c.metric)
  }

  lemma CorrectedExactly(limit: string -> int, w: World, op: Op, c: Counter)
    requires Settles(w, op) && c.metric != Calls && OnTime(w, op)
    requires Balanced(w, KeyOf(w.calls[op.n].p, op.st, c))
    ensures var k := KeyOf(w.calls[op.n].p, op.st, c);
            Stored(Step(limit, w, op).db, k) == Stored(w.db, k) + Delta(w, op, c.metric) <==> Harmless(w, op, c)
  {
    SettlementHere(limit, w, op, c);
    if op.st == w.calls[op.n].st {
      NothingToClamp(w, op.n, op.actual, c);
    }
  }

  /** Only the token and cost counters are corrected: never one of calls, whoever's it is. */
  lemma CallsAreNotCorrected(p: Payload, st: Stamp, p': Payload, st': Stamp, c: Counter)
    requires c.metric == Calls
    ensures !Corrected(p, st, KeyOf(p', st', c))
  {
    if Corrected(p, st, KeyOf(p', st', c)) {
      var x: Counter :| x.metric != Calls && KeyOf(p, st, x) == KeyOf(p', st', c);
      SharedKeySharesKind(p, st, x, p', st', c);
    }
  }

  /** How a settlement changes what one counter should say. */
  lemma TotalAfterSettlement(limit: string -> int, w: World, op: Op, k: string)
    requires Settles(w, op)
    ensures var c := w.calls[op.n];
            Total(Step(limit, w, op).calls, k) + Charge(c, k)
            == Total(w.calls, k) + Charge(c.(settlement := Settled(op.st, op.actual)), k)
  {
    TotalWithChanged(w.calls, op.n, w.calls[op.n].(settlement := Settled(op.st, op.actual)), k);
  }

  /** A counter that the call was not charged to, or only as a call, is owed no correction. */
  lemma NothingOwed(c: Call, s: Settlement, k: string)
    requires !Corrected(c.p, c.st, k)
    ensures Charge(c.(settlement := s), k) == Charge(c, k)
  {
    if ChargedTo(c.p, c.st, k) {
      var x :| KeyOf(c.p, c.st, x) == k;
      ChargeAt(c, x);
      ChargeAt(c.(settlement := s), x);
    }
  }

  lemma ExactUseOwesNothing(c: Call, st: Stamp, k: string)
    requires c.settlement.Pending?
    ensures Charge(c.(settlement := Settled(st, c.est)), k) == Charge(c, k)
  {
    if ChargedTo(c.p, c.st, k) {
      var x :| KeyOf(c.p, c.st, x) == k;
      ChargeAt(c, x);
      ChargeAt(c.(settlement := Settled(st, c.est)), x);
    }
  }

  /** What a settlement on time changes in the books of a counter that it corrects. */
  lemma OwedExactly(limit: string -> int, w: World, op: Op, c: Counter)
    requires Settles(w, op) && c.metric != Calls && OnTime(w, op)
    ensures var k := KeyOf(w.calls[op.n].p, op.st, c);
            Total(Step(limit, w, op).calls, k) == Total(w.calls, k) + Delta(w, op, c.metric)
  {
    var call := w.calls[op.n];
    var k := KeyOf(call.p, op.st, c);
    TotalAfterSettlement(limit, w, op, k);
    if op.st == call.st {
      ChargeAt(call, c);
      ChargeAt(call.(settlement := Settled(op.st, op.actual)), c);
    } else {
      ExactUseOwesNothing(call, op.st, k);
    }
  }

  /** A settlement on time keeps the books of a counter that it corrects if and only if the counter
      lives or holds what makes starting again harmless. */
  lemma CorrectionBalancesIff(limit: string -> int, w: World, op: Op, c: Counter)
    requires Settles(w, op) && c.metric != Calls && OnTime(w, op)
    requires Balanced(w, KeyOf(w.calls[op.n].p, op.st, c))
    ensures Balanced(Step(limit, w, op), KeyOf(w.calls[op.n].p, op.st, c)) <==> Harmless(w, op, c)
  {
    CorrectedExactly(limit, w, op, c);
    OwedExactly(limit, w, op, c);
  }

  /** And of every other counter in any case. */
  lemma OthersStayBalanced(limit: string -> int, w: World, op: Op, k: string)
    requires Settles(w, op) && OnTime(w, op) && Balanced(w, k) && !Corrected(w.calls[op.n].p, op.st, k)
    ensures Balanced(Step(limit, w, op), k)
  {
    var call := w.calls[op.n];
    TotalAfterSettlement(limit, w, op, k);
    SettlementElsewhere(limit, w, op, k);
    if op.st == call.st {
      NothingOwed(call, Settled(op.st, op.actual), k);
    } else {
      ExactUseOwesNothing(call, op.st, k);
    }
  }

  /** So a settlement on time that finds its counters alive keeps every counter's books. */
  lemma SettlementBalances(limit: string -> int, w: World, op: Op, k: string)
    requires Settles(w, op) && OnTime(w, op) && Balanced(w, k) && FoundAlive(w, op, k)
    ensures Balanced(Step(limit, w, op), k)
  {
    if Corrected(w.calls[op.n].p, op.st, k) {
      var c: Counter :| c.metric != Calls && KeyOf(w.calls[op.n].p, op.st, c) == k;
      CorrectionBalancesIff(limit, w, op, c);
    } else {
      OthersStayBalanced(limit, w, op, k);
    }
  }

  /** No settlement disturbs a counter of calls. */
  lemma CallsStayBalanced(limit: string -> int, w: World, op: Op, p: Payload, st: Stamp, c: Counter)
    requires Settles(w, op) && c.metric == Calls && Balanced(w, KeyOf(p, st, c))
    ensures Balanced(Step(limit, w, op), KeyOf(p, st, c))
  {
    var call := w.calls[op.n];
    var k := KeyOf(p, st, c);
    CallsAreNotCorrected(call.p, call.st, p, st, c);
    CallsAreNotCorrected(call.p, op.st, p, st, c);
    TotalAfterSettlement(limit, w, op, k);
    NothingOwed(call, Settled(op.st, op.actual), k);
    SettlementElsewhere(limit, w, op, k);
  }

  // ---- Whole runs ----------------------------------------------------------------------------

  /** A settlement in its call's own windows, or one that corrects nothing. */
  predicate OnTime(w: World, op: Op) {
    Settles(w, op) ==> op.st == w.calls[op.n].st || op.actual == w.calls[op.n].est
  }

  predicate AllOnTime(limit: string -> int, w: World, ops: seq<Op>)
    decreases |ops|
  {
    ops == [] || (OnTime(w, ops[0]) && AllOnTime(limit, Step(limit, w, ops[0]), ops[1..]))
  }

  /** No operation of the run finds this counter expired. */
  ghost predicate AllFoundAlive(limit: string -> int, w: World, ops: seq<Op>, k: string)
    decreases |ops|
  {
    ops == [] || (FoundAlive(w, ops[0], k) && AllFoundAlive(limit, Step(limit, w, ops[0]), ops[1..], k))
  }

  lemma StepBalances(limit: string -> int, w: World, op: Op, k: string)
    requires OnTime(w, op) && FoundAlive(w, op, k) && !IsRate(k) && Balanced(w, k)
    ensures Balanced(Step(limit, w, op), k)
  {
    if op.Attempt? {
      AttemptBalances(limit, w, op, k);
    } else if Settles(w, op) {
      SettlementBalances(limit, w, op, k);
    }
  }

  lemma {:induction false} RunBalances(limit: string -> int, w: World, ops: seq<Op>, k: string)
    requires AllOnTime(limit, w, ops) && AllFoundAlive(limit, w, ops, k) && !IsRate(k) && Balanced(w, k)
    ensures Balanced(After(limit, w, ops), k)
    decreases |ops|
  {
    if ops != [] {
      StepBalances(limit, w, ops[0], k);
      RunBalances(limit, Step(limit, w, ops[0]), ops[1..], k);
    }
  }

  /** Conservation: after any run whose settlements fall in the windows of their calls, a counter
      that nobody found expired holds the actual use of the settled calls charged to it plus the
      estimates of the others; and that is what a script reads until the counter expires. */
  lemma QuotaIsConserved(limit: string -> int, ops: seq<Op>, k: string)
    requires AllOnTime(limit, FRESH, ops) && AllFoundAlive(limit, FRESH, ops, k) && !IsRate(k)
    ensures var w := After(limit, FRESH, ops);
            && Stored(w.db, k) == Total(w.calls, k)
            && (!Expired(w.db, k) ==> Count(w.db, k) == Total(w.calls, k))
  {
    RunBalances(limit, FRESH, ops, k);
  }

  /** In particular no settlement in such a run ever meets the clamp at zero. */
  lemma ClampNeverFires(limit: string -> int, ops: seq<Op>, op: Op, c: Counter)
    requires AllOnTime(limit, FRESH, ops)
    requires Settles(After(limit, FRESH, ops), op) && op.st == After(limit, FRESH, ops).calls[op.n].st
    requires var w := After(limit, FRESH, ops);
             var k := KeyOf(w.calls[op.n].p, op.st, c);
             AllFoundAlive(limit, FRESH, ops, k) && FoundAlive(w, op, k)
    requires c.metric != Calls
    ensures var w := After(limit, FRESH, ops);
            Count(Found(w, op), KeyOf(w.calls[op.n].p, op.st, c)) + Delta(w, op, c.metric) >= 0
  {
    var w := After(limit, FRESH, ops);
    var call := w.calls[op.n];
    CountersAreNotRates(call.p, call.st, c);
    RunBalances(limit, FRESH, ops, KeyOf(call.p, call.st, c));
    NothingToClamp(w, op.n, op.actual, c);
  }

  /** The condition is exact: a settlement keeps all books if and only if it falls in both windows
      of its call or has nothing to correct, and finds no counter expired that it would start again
      at a wrong value. A call settled after midnight is taken off the new day's counters, clamped
      or not, and stays on the old day's as estimated. */
  lemma SettlementKeepsBooksIff(limit: string -> int, w: World, op: Op)
    requires Settles(w, op) && forall k :: !IsRate(k) ==> Balanced(w, k)
    ensures (forall k :: !IsRate(k) ==> Balanced(Step(limit, w, op), k))
       <==> OnTime(w, op) && forall c: Counter :: c.metric != Calls ==> Harmless(w, op, c)
  {
    var call := w.calls[op.n];
    if !OnTime(w, op) {
      var win := if op.st.day != call.st.day then Day else Month;
      var m := if op.actual.tokens != call.est.tokens then Tokens else Cost;
      CountersAreNotRates(call.p, call.st, Scoped(User, win, m));
      LateSettlementUnbalances(limit, w, op, Scoped(User, win, m));
    } else {
      forall c: Counter | c.metric != Calls
        ensures Balanced(Step(limit, w, op), KeyOf(call.p, op.st, c)) <==> Harmless(w, op, c)
        ensures !IsRate(KeyOf(call.p, op.st, c))
      {
        CountersAreNotRates(call.p, op.st, c);
        CorrectionBalancesIff(limit, w, op, c);
      }
      forall k | !IsRate(k) && !Corrected(call.p, op.st, k) ensures Balanced(Step(limit, w, op), k) {
        OthersStayBalanced(limit, w, op, k);
      }
    }
  }

  lemma LateSettlementUnbalances(limit: string -> int, w: World, op: Op, c: Counter)
    requires Settles(w, op) && c.Scoped? && c.metric != Calls
    requires WindowKey(op.st, c.window) != WindowKey(w.calls[op.n].st, c.window)
    requires Metered(op.actual, c.metric) != Metered(w.calls[op.n].est, c.metric)
    requires Balanced(w, KeyOf(w.calls[op.n].p, w.calls[op.n].st, c))
    ensures !Balanced(Step(limit, w, op), KeyOf(w.calls[op.n].p, w.calls[op.n].st, c))
  {
    var call := w.calls[op.n];
    var k := KeyOf(call.p, call.st, c);
    forall x: Counter ensures KeyOf(call.p, op.st, x) != k {
      KeysAgreeIff(call.p, op.st, x, call.st, c);
    }
    assert !Corrected(call.p, op.st, k);
    TotalAfterSettlement(limit, w, op, k);
    ChargeAt(call, c);
    ChargeAt(call.(settlement := Settled(op.st, op.actual)), c);
    SettlementElsewhere(limit, w, op, k);
  }

  /** No counter is limited. */
  const UNLIMITED: string -> int := _ => -1

  /** The calls of the examples: made without an address, in a minute of their own. */
  function CallAt(n: nat, p: Payload, st: Stamp, t: Time, est: Use): Op {
    Attempt(n, p, st, t, "", "", 100, 100, est)
  }

  lemma UnlimitedIsGranted(p: Payload, st: Stamp, t: Time, est: Use)
    ensures Grants(UNLIMITED, FRESH, CallAt(0, p, st, t, est))
  {
    GrantedIff(Found(FRESH, CallAt(0, p, st, t, est)), p, st, "", "", TermsOf(UNLIMITED, p, t), 100, 100,
               Estimate(est));
  }

  lemma OneCall(call: Call, x: Counter, other: string)
    requires !ChargedTo(call.p, call.st, other)
    ensures Total(map[0 := call], KeyOf(call.p, call.st, x)) == Worth(call, x.metric)
    ensures Total(map[0 := call], other) == 0
  {
    TotalWithNew(map[], 0, call, KeyOf(call.p, call.st, x));
    TotalWithNew(map[], 0, call, other);
    assert map[][0 := call] == map[0 := call];
    ChargeAt(call, x);
  }

  lemma FirstCallCharges(p: Payload, st: Stamp, t: Time, est: Use, c: Counter, other: string, w: World)
    requires !ChargedTo(p, st, other) && !IsRate(other)
    requires w == Step(UNLIMITED, FRESH, CallAt(0, p, st, t, est))
    ensures w.calls == map[0 := Call(p, st, est, Pending)]
    ensures Stored(w.db, KeyOf(p, st, c)) == Metered(est, c.metric) && Stored(w.db, other) == 0
  {
    var op := CallAt(0, p, st, t, est);
    UnlimitedIsGranted(p, st, t, est);
    CountersAreNotRates(p, st, c);
    AttemptAt(UNLIMITED, FRESH, op, KeyOf(p, st, c), c);
    AttemptAt(UNLIMITED, FRESH, op, other, c);
    assert map[][0 := Call(p, st, est, Pending)] == map[0 := Call(p, st, est, Pending)];
  }

  lemma DaysAreApart(p: Payload, st: Stamp, st': Stamp, m: Metric)
    requires st.day != st'.day
    ensures !ChargedTo(p, st, KeyOf(p, st', Scoped(User, Day, m)))
    ensures !Corrected(p, st', KeyOf(p, st, Scoped(User, Day, m)))
  {
    var c := Scoped(User, Day, m);
    forall x: Counter ensures KeyOf(p, st', x) != KeyOf(p, st, c) && KeyOf(p, st, x) != KeyOf(p, st', c) {
      KeysAgreeIff(p, st', x, st, c);
      KeysAgreeIff(p, st, x, st', c);
    }
  }

  lemma AfterTwo(limit: string -> int, w: World, a: Op, w1: World, b: Op, w2: World)
    requires w1 == Step(limit, w, a) && w2 == Step(limit, w1, b)
    ensures After(limit, w, [a, b]) == w2
  {
    assert [a, b][1..] == [b] && [b][1..] == [];
    assert After(limit, w1, [b]) == w2;
  }

  /** Charged on one day, corrected on the next. */
  ghost predicate Astray(w: World, p: Payload, st: Stamp, st': Stamp, est: Use, actual: Use, c: Counter) {
    && Stored(w.db, KeyOf(p, st, c)) == Metered(est, c.metric)
    && Total(w.calls, KeyOf(p, st, c)) == Metered(actual, c.metric)
    && Stored(w.db, KeyOf(p, st', c)) == Max(0, Metered(actual, c.metric) - Metered(est, c.metric))
    && Total(w.calls, KeyOf(p, st', c)) == 0
  }

  lemma LateSettlementIsRecorded(w: World, call: Call, op: Op)
    requires w.calls == map[0 := call] && call.settlement.Pending? && op.Conclude? && op.n == 0
    ensures Step(UNLIMITED, w, op).calls == map[0 := call.(settlement := Settled(op.st, op.actual))]
  {
  }

  lemma LateSettlementCharges(w: World, p: Payload, st: Stamp, est: Use, op: Op, c: Counter, w': World)
    requires w.calls == map[0 := Call(p, st, est, Pending)] && op.Conclude? && op.n == 0 && c.metric != Calls
    requires !Corrected(p, op.st, KeyOf(p, st, c)) && Stored(w.db, KeyOf(p, op.st, c)) == 0
    requires w' == Step(UNLIMITED, w, op)
    ensures Stored(w'.db, KeyOf(p, st, c)) == Stored(w.db, KeyOf(p, st, c))
    ensures Stored(w'.db, KeyOf(p, op.st, c)) == Max(0, Metered(op.actual, c.metric) - Metered(est, c.metric))
  {
    SettlementElsewhere(UNLIMITED, w, op, KeyOf(p, st, c));
    SettlementHere(UNLIMITED, w, op, c);
  }

  lemma MidnightIsAstray(p: Payload, st: Stamp, t: Time, est: Use, op: Op, c: Counter, w1: World, w2: World)
    requires st.day != op.st.day && op.Conclude? && op.n == 0 && c == Scoped(User, Day, Tokens)
    requires w1 == Step(UNLIMITED, FRESH, CallAt(0, p, st, t, est)) && w2 == Step(UNLIMITED, w1, op)
    ensures Astray(w2, p, st, op.st, est, op.actual, c)
  {
    DaysAreApart(p, st, op.st, Tokens);
    CountersAreNotRates(p, op.st, c);
    FirstCallCharges(p, st, t, est, c, KeyOf(p, op.st, c), w1);
    LateSettlementIsRecorded(w1, Call(p, st, est, Pending), op);
    LateSettlementCharges(w1, p, st, est, op, c, w2);
    OneCall(Call(p, st, est, Settled(op.st, op.actual)), c, KeyOf(p, op.st, c));
  }

  /** And it happens: the first day's counter keeps the estimate although the call used something
      else, and what it used beyond the estimate is charged to the day after. */
  lemma SettledAfterMidnight(p: Payload, st: Stamp, t: Time, st': Stamp, t': Time, est: Use, actual: Use)
    requires st.day != st'.day
    ensures Astray(After(UNLIMITED, FRESH, [CallAt(0, p, st, t, est), Conclude(0, st', t', actual)]),
                   p, st, st', est, actual, Scoped(User, Day, Tokens))
  {
    var a, b := CallAt(0, p, st, t, est), Conclude(0, st', t', actual);
    var w1 := Step(UNLIMITED, FRESH, a);
    var w2 := Step(UNLIMITED, w1, b);
    MidnightIsAstray(p, st, t, est, b, Scoped(User, Day, Tokens), w1, w2);
    AfterTwo(UNLIMITED, FRESH, a, w1, b, w2);
  }

  // ---- Counters of calls ---------------------------------------------------------------------

  /** The granted calls that a counter was charged. */
  ghost function Granted(calls: map<nat, Call>, k: string): set<nat> {
    set n | n in calls && ChargedTo(calls[n].p, calls[n].st, k)
  }

  lemma {:induction false} CountAsSum(all: set<nat>, some: set<nat>, f: nat -> nat)
    requires some <= all && forall n :: n in all ==> f(n) == if n in some then 1 else 0
    ensures Sum(all, f) == |some|
    decreases all
  {
    if all == {} {
      assert some == {};
    } else {
      var n :| n in all;
      SumRemove(all, f, n);
      CountAsSum(all - {n}, some - {n}, f);
    }
  }

  lemma {:induction false} RunBalancesCalls(limit: string -> int, w: World, ops: seq<Op>, p: Payload, st: Stamp,
                                            c: Counter)
    requires c.metric == Calls && Balanced(w, KeyOf(p, st, c)) && AllFoundAlive(limit, w, ops, KeyOf(p, st, c))
    ensures Balanced(After(limit, w, ops), KeyOf(p, st, c))
    decreases |ops|
  {
    if ops != [] {
      CountersAreNotRates(p, st, c);
      if ops[0].Attempt? {
        AttemptBalances(limit, w, ops[0], KeyOf(p, st, c));
      } else if Settles(w, ops[0]) {
        CallsStayBalanced(limit, w, ops[0], p, st, c);
      }
      RunBalancesCalls(limit, Step(limit, w, ops[0]), ops[1..], p, st, c);
    }
  }

  /** Whenever its calls are settled, a counter of calls that no call found expired is exactly the
      number of calls granted against it. */
  lemma CallsCountGrants(limit: string -> int, ops: seq<Op>, p: Payload, st: Stamp, c: Counter)
    requires c.metric == Calls && AllFoundAlive(limit, FRESH, ops, KeyOf(p, st, c))
    ensures var w := After(limit, FRESH, ops); Stored(w.db, KeyOf(p, st, c)) == |Granted(w.calls, KeyOf(p, st, c))|
  {
    var w := After(limit, FRESH, ops);
    var k := KeyOf(p, st, c);
    RunBalancesCalls(limit, FRESH, ops, p, st, c);
    forall n | n in w.calls ensures Charge(w.calls[n], k) == if n in Granted(w.calls, k) then 1 else 0 {
      var call := w.calls[n];
      if ChargedTo(call.p, call.st, k) {
        var x :| KeyOf(call.p, call.st, x) == k;
        SharedKeySharesKind(call.p, call.st, x, p, st, c);
        ChargeAt(call, x);
      }
    }
    CountAsSum(w.calls.Keys, Granted(w.calls, k), Charges(w.calls, k));
  }

  // ---- How far a limit can be passed -----------------------------------------------------------

  function Excess(c: Call, m: Metric): nat {
    if c.settlement.Settled? && Metered(c.settlement.actual, m) > Metered(c.est, m)
    then Metered(c.settlement.actual, m) - Metered(c.est, m) else 0
  }

  /** How much more a call turned out to use than estimated, on a counter where it was settled. */
  ghost function Overrun(c: Call, k: string): nat {
    if c.settlement.Settled? && Corrected(c.p, c.settlement.st, k) then
      var x: Counter :| x.metric != Calls && KeyOf(c.p, c.settlement.st, x) == k;
      Excess(c, x.metric)
    else 0
  }

  lemma OverrunAt(c: Call, x: Counter)
    requires c.settlement.Settled? && x.metric != Calls
    ensures Overrun(c, KeyOf(c.p, c.settlement.st, x)) == Excess(c, x.metric)
  {
    var st := c.settlement.st;
    var k := KeyOf(c.p, st, x);
    assert Corrected(c.p, st, k);
    var y: Counter :| y.metric != Calls && KeyOf(c.p, st, y) == k && Overrun(c, k) == Excess(c, y.metric);
    SharedKeySharesKind(c.p, st, x, c.p, st, y);
  }

  ghost function Overruns(calls: map<nat, Call>, k: string): nat -> nat {
    n => if n in calls then Overrun(calls[n], k) else 0
  }

  ghost function TotalOverrun(calls: map<nat, Call>, k: string): nat {
    Sum(calls.Keys, Overruns(calls, k))
  }

  lemma OverrunWithNew(calls: map<nat, Call>, n: nat, c: Call, k: string)
    requires n !in calls && c.settlement.Pending?
    ensures TotalOverrun(calls[n := c], k) == TotalOverrun(calls, k)
  {
    var calls' := calls[n := c];
    assert calls'.Keys == calls.Keys + {n};
    SumAdd(calls.Keys, Overruns(calls', k), n);
    SumSame(calls.Keys, Overruns(calls', k), Overruns(calls, k));
  }

  lemma OverrunWithSettled(calls: map<nat, Call>, n: nat, s: Settlement, k: string)
    requires n in calls && calls[n].settlement.Pending?
    ensures TotalOverrun(calls[n := calls[n].(settlement := s)], k)
         == TotalOverrun(calls, k) + Overrun(calls[n].(settlement := s), k)
  {
    var calls' := calls[n := calls[n].(settlement := s)];
    assert calls'.Keys == calls.Keys;
    SumReplace(calls.Keys, Overruns(calls, k), Overruns(calls', k), n);
  }

  /** A counter is within its limit, but for the overruns settled on it. */
  ghost predicate Within(limit: string -> int, w: World, k: string) {
    Stored(w.db, k) <= limit(k) + TotalOverrun(w.calls, k)
  }

  lemma GrantHadRoom(limit: string -> int, w: World, op: Op, c: Counter)
    requires op.Attempt? && Grants(limit, w, op) && c != Evaluation(Cost) && limit(KeyOf(op.p, op.st, c)) >= 0
    ensures Count(Found(w, op), KeyOf(op.p, op.st, c)) + Metered(op.est, c.metric) <= limit(KeyOf(op.p, op.st, c))
  {
    var t := TermsOf(limit, op.p, op.t);
    GrantedIff(Found(w, op), op.p, op.st, op.ip, op.minute, t, op.userRate, op.ipRate, Estimate(op.est));
    assert HasRoom(Found(w, op), op.p, op.st, t, Estimate(op.est), c);
  }

  lemma AttemptStaysWithin(limit: string -> int, w: World, op: Op, p: Payload, st: Stamp, c: Counter)
    requires op.Attempt? && limit(KeyOf(p, st, c)) >= 0 && c != Evaluation(Cost)
    requires Within(limit, w, KeyOf(p, st, c))
    ensures Within(limit, Step(limit, w, op), KeyOf(p, st, c))
  {
    var k := KeyOf(p, st, c);
    CountersAreNotRates(p, st, c);
    var x := if ChargedTo(op.p, op.st, k) then (var x :| KeyOf(op.p, op.st, x) == k; x) else c;
    AttemptAt(limit, w, op, k, x);
    if Grants(limit, w, op) {
      OverrunWithNew(w.calls, op.n, Call(op.p, op.st, op.est, Pending), k);
      if ChargedTo(op.p, op.st, k) {
        SharedKeySharesKind(op.p, op.st, x, p, st, c);
        GrantHadRoom(limit, w, op, x);
      }
    }
  }

  lemma SettlementStaysWithin(limit: string -> int, w: World, op: Op, k: string)
    requires Settles(w, op) && limit(k) >= 0 && Within(limit, w, k)
    ensures Within(limit, Step(limit, w, op), k)
  {
    var call := w.calls[op.n];
    var s := Settled(op.st, op.actual);
    OverrunWithSettled(w.calls, op.n, s, k);
    if Corrected(call.p, op.st, k) {
      var x: Counter :| x.metric != Calls && KeyOf(call.p, op.st, x) == k;
      OverrunAt(call.(settlement := s), x);
      SettlementHere(limit, w, op, x);
    } else {
      SettlementElsewhere(limit, w, op, k);
    }
  }

  lemma {:induction false} RunStaysWithin(limit: string -> int, w: World, ops: seq<Op>, p: Payload, st: Stamp,
                                          c: Counter)
    requires limit(KeyOf(p, st, c)) >= 0 && c != Evaluation(Cost) && Within(limit, w, KeyOf(p, st, c))
    ensures Within(limit, After(limit, w, ops), KeyOf(p, st, c))
    decreases |ops|
  {
    if ops != [] {
      if ops[0].Attempt? {
        AttemptStaysWithin(limit, w, ops[0], p, st, c);
      } else if Settles(w, ops[0]) {
        SettlementStaysWithin(limit, w, ops[0], KeyOf(p, st, c));
      }
      RunStaysWithin(limit, Step(limit, w, ops[0]), ops[1..], p, st, c);
    }
  }

  /** In every run, whatever expires, a limited counter exceeds its limit by no more than the
      overruns, beyond their estimates, of the calls settled on it. */
  lemma LimitHoldsButForOverruns(limit: string -> int, ops: seq<Op>, p: Payload, st: Stamp, c: Counter)
    requires limit(KeyOf(p, st, c)) >= 0 && c != Evaluation(Cost)
    ensures var w := After(limit, FRESH, ops);
            && Stored(w.db, KeyOf(p, st, c)) <= limit(KeyOf(p, st, c)) + TotalOverrun(w.calls, KeyOf(p, st, c))
            && Count(w.db, KeyOf(p, st, c)) <= limit(KeyOf(p, st, c)) + TotalOverrun(w.calls, KeyOf(p, st, c))
  {
    RunStaysWithin(limit, FRESH, ops, p, st, c);
  }

  lemma {:induction false} NoOverrunOfCalls(calls: map<nat, Call>, keys: set<nat>, p: Payload, st: Stamp, c: Counter)
    requires c.metric == Calls
    ensures Sum(keys, Overruns(calls, KeyOf(p, st, c))) == 0
    decreases keys
  {
    if keys != {} {
      var n :| n in keys;
      SumRemove(keys, Overruns(calls, KeyOf(p, st, c)), n);
      if n in calls && calls[n].settlement.Settled? {
        CallsAreNotCorrected(calls[n].p, calls[n].settlement.st, p, st, c);
      }
      NoOverrunOfCalls(calls, keys - {n}, p, st, c);
    }
  }

  /** Late settlements or not, no more calls are granted against a counter than its limit allows, as
      long as no call finds the counter expired. */
  lemma GrantsNeverExceedLimit(limit: string -> int, ops: seq<Op>, p: Payload, st: Stamp, c: Counter)
    requires c.metric == Calls && limit(KeyOf(p, st, c)) >= 0 && AllFoundAlive(limit, FRESH, ops, KeyOf(p, st, c))
    ensures |Granted(After(limit, FRESH, ops).calls, KeyOf(p, st, c))| <= limit(KeyOf(p, st, c))
  {
    var w := After(limit, FRESH, ops);
    RunStaysWithin(limit, FRESH, ops, p, st, c);
    NoOverrunOfCalls(w.calls, w.calls.Keys, p, st, c);
    CallsCountGrants(limit, ops, p, st, c);
  }
}
