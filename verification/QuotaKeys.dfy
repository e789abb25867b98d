/** The 27 counters one language-model call is charged to, and the strings that name them. */
module QuotaKeys {

  datatype Metric = Calls | Tokens | Cost
  datatype Window = Day | Month
  datatype Scope = User | Global | Problem | UserProblem

  /** Which counter: the evaluation's own, or a scope's in a window. */
  datatype Counter = Evaluation(metric: Metric) | Scoped(scope: Scope, window: Window, metric: Metric)

  /** The identities an evaluation token carries, and the seconds it was issued and expires at; an
      old token has the empty attempt. */
  datatype Payload = Payload(attempt: string, submission: string, user: string, problem: string, iat: int, exp: int)

  /** The current day and month, written as in a key. */
  datatype Stamp = Stamp(day: string, month: string)

  function MetricName(m: Metric): string {
    match m case Calls => "calls" case Tokens => "tokens" case Cost => "cost"
  }

  function WindowName(w: Window): string {
    if w == Day then "day" else "month"
  }

  function WindowKey(st: Stamp, w: Window): string {
    if w == Day then st.day else st.month
  }

  function ScopePrefix(p: Payload, s: Scope): string {
    match s
    case User => "llm:user:" + p.user
    case Global => "llm:global"
    case Problem => "llm:problem:" + p.problem
    case UserProblem => "llm:user_problem:" + (p.user + ":" + p.problem)
  }

  function EvaluationPrefix(p: Payload): string {
    if p.attempt != "" then "llm:attempt:" + p.attempt else "llm:sub:" + p.submission
  }

  /** Everything of a key but its metric. */
  function Stem(p: Payload, st: Stamp, c: Counter): string {
    match c
    case Evaluation(_) => EvaluationPrefix(p)
    case Scoped(s, w, _) => ScopePrefix(p, s) + ":" + WindowName(w) + ":" + WindowKey(st, w)
  }

  function KeyOf(p: Payload, st: Stamp, c: Counter): string {
    Stem(p, st, c) + ":" + MetricName(c.metric)
  }

  // ---- Rate keys ---------------------------------------------------------------------------

  predicate IsRate(k: string) {
    "llm:rate:" <= k
  }

  /** The per-minute windows of a user, and of an address or (without one) a submission. */
  function RateKeys(p: Payload, ip: string, minute: string): (keys: (string, string))
    ensures IsRate(keys.0) && IsRate(keys.1)
  {
    ("llm:rate:" + p.user + ":" + minute,
     (if ip != "" && ip != "unknown" then "llm:rate:ip:" + ip else "llm:rate:sub:" + p.submission)
     + ":" + minute)
  }

  // ---- No two counters share a key -----------------------------------------------------------

  /** The end of a key tells the metric. */
  lemma MetricIsLegible(a: string, m: Metric, b: string, m': Metric)
    requires a + ":" + MetricName(m) == b + ":" + MetricName(m')
    ensures m == m' && a == b
  {
    var x := a + ":" + MetricName(m);
    var y := b + ":" + MetricName(m');
    assert x[|x| - 1] == MetricName(m)[|MetricName(m)| - 1];
    assert y[|y| - 1] == MetricName(m')[|MetricName(m')| - 1];
    assert x[|x| - 2] == MetricName(m)[|MetricName(m)| - 2];
    assert y[|y| - 2] == MetricName(m')[|MetricName(m')| - 2];
    assert m == m';
    assert a == x[..|a|] == y[..|b|] == b;
  }

  /** What the fifth and ninth characters of a stem look like. */
  lemma StemStart(p: Payload, st: Stamp, c: Counter)
    ensures var k := Stem(p, st, c);
            && |k| >= 7
            && k[4] == (match c
                        case Evaluation(_) => if p.attempt != "" then 'a' else 's'
                        case Scoped(User, _, _) => 'u'
                        case Scoped(Global, _, _) => 'g'
                        case Scoped(Problem, _, _) => 'p'
                        case Scoped(UserProblem, _, _) => 'u')
            && (c.Scoped? && c.scope == User ==> |k| > 8 && k[8] == ':')
            && (c.Scoped? && c.scope == UserProblem ==> |k| > 8 && k[8] == '_')
  {
    if c.Scoped? {
      var q := ScopePrefix(p, c.scope);
      assert q <= Stem(p, st, c);
      assert q[4] == (match c.scope case User => 'u' case Global => 'g' case Problem => 'p' case UserProblem => 'u');
    }
  }

  /** Whoever shares a key shares the kind of counter: the evaluation's own or a scope's, which
      scope, and the metric. This holds for all ids, whatever characters they contain. */
  lemma SharedKeySharesKind(p: Payload, st: Stamp, c: Counter, p': Payload, st': Stamp, c': Counter)
    requires KeyOf(p, st, c) == KeyOf(p', st', c')
    ensures c.metric == c'.metric && Stem(p, st, c) == Stem(p', st', c')
    ensures c.Evaluation? == c'.Evaluation?
    ensures c.Scoped? ==> c.scope == c'.scope
  {
    MetricIsLegible(Stem(p, st, c), c.metric, Stem(p', st', c'), c'.metric);
    StemStart(p, st, c);
    StemStart(p', st', c');
  }

  /** No counter is a rate window. */
  lemma CountersAreNotRates(p: Payload, st: Stamp, c: Counter)
    ensures !IsRate(KeyOf(p, st, c))
  {
    StemStart(p, st, c);
    var k := KeyOf(p, st, c);
    assert k[4] == Stem(p, st, c)[4];
    assert "llm:rate:"[4] == 'r';
  }

  /** Cancelling a common front. */
  lemma CommonFront(a: string, x: string, y: string)
    requires a + x == a + y
    ensures x == y
  {
    assert x == (a + x)[|a|..] && y == (a + y)[|a|..];
  }

  /** Where the window's name starts decides day or month; what follows is the window itself. */
  lemma WindowIsLegible(a: string, st: Stamp, w: Window, st': Stamp, w': Window)
    requires a + ":" + WindowName(w) + ":" + WindowKey(st, w) == a + ":" + WindowName(w') + ":" + WindowKey(st', w')
    ensures w == w' && WindowKey(st, w) == WindowKey(st', w)
  {
    var x := WindowName(w) + ":" + WindowKey(st, w);
    var y := WindowName(w') + ":" + WindowKey(st', w');
    assert a + ":" + WindowName(w) + ":" + WindowKey(st, w) == (a + ":") + x;
    assert a + ":" + WindowName(w') + ":" + WindowKey(st', w') == (a + ":") + y;
    CommonFront(a + ":", x, y);
    assert x[0] == WindowName(w)[0] && y[0] == WindowName(w')[0];
    assert x == (WindowName(w) + ":") + WindowKey(st, w);
    CommonFront(WindowName(w) + ":", WindowKey(st, w), WindowKey(st', w));
  }

  /** The keys of one token are told apart exactly by counter and window, for all ids: two of
      them agree if and only if the counters and their windows do. */
  lemma KeysAgreeIff(p: Payload, st: Stamp, c: Counter, st': Stamp, c': Counter)
    ensures KeyOf(p, st, c) == KeyOf(p, st', c')
       <==> c == c' && (c.Scoped? ==> WindowKey(st, c.window) == WindowKey(st', c.window))
  {
    if KeyOf(p, st, c) == KeyOf(p, st', c') {
      SharedKeySharesKind(p, st, c, p, st', c');
      if c.Scoped? {
        WindowIsLegible(ScopePrefix(p, c.scope), st, c.window, st', c'.window);
      }
    }
  }

  // ---- Keys of different tokens ------------------------------------------------------------

  /** The fields of a key between its colons, as the gateway's error path reads them. */
  function Fields(k: string): (parts: seq<string>)
    ensures |parts| > 0
  {
    if k == "" then [""]
    else if k[0] == ':' then [""] + Fields(k[1..])
    else var rest := Fields(k[1..]); [[k[0]] + rest[0]] + rest[1..]
  }

  predicate Plain(s: string) {
    ':' !in s
  }

  predicate PlainIds(p: Payload) {
    Plain(p.attempt) && Plain(p.submission) && Plain(p.user) && Plain(p.problem)
  }

  predicate PlainStamp(st: Stamp) {
    Plain(st.day) && Plain(st.month)
  }

  lemma {:induction false} FieldsOfPlain(s: string)
    requires Plain(s)
    ensures Fields(s) == [s]
  {
    if s != "" {
      assert s[0] in s;
      assert Plain(s[1..]) by { assert forall ch :: ch in s[1..] ==> ch in s; }
      FieldsOfPlain(s[1..]);
      assert s == [s[0]] + s[1..];
    }
  }

  /** Splitting undoes gluing, whatever the texts contain. */
  lemma {:induction false} FieldsOfGlue(a: string, b: string)
    ensures Fields(a + ":" + b) == Fields(a) + Fields(b)
  {
    var k := a + ":" + b;
    if a == "" {
      assert k[1..] == b;
    } else {
      assert k[1..] == a[1..] + ":" + b;
      FieldsOfGlue(a[1..], b);
    }
  }

  /** What a key says, field by field. */
  function Meaning(p: Payload, st: Stamp, c: Counter): seq<string> {
    var m := MetricName(c.metric);
    match c
    case Evaluation(_) => if p.attempt != "" then ["llm", "attempt", p.attempt, m] else ["llm", "sub", p.submission, m]
    case Scoped(s, w, _) =>
      var tail := [WindowName(w), WindowKey(st, w), m];
      HeadFields(p, s) + tail
  }

  function Join(parts: seq<string>): string
    requires |parts| > 0
  {
    if |parts| == 1 then parts[0] else parts[0] + ":" + Join(parts[1..])
  }

  lemma {:induction false} FieldsOfJoin(parts: seq<string>)
    requires |parts| > 0 && forall i :: 0 <= i < |parts| ==> Plain(parts[i])
    ensures Fields(Join(parts)) == parts
  {
    if |parts| == 1 {
      FieldsOfPlain(parts[0]);
    } else {
      FieldsOfJoin(parts[1..]);
      FieldsOfPlain(parts[0]);
      FieldsOfGlue(parts[0], Join(parts[1..]));
      assert parts == [parts[0]] + parts[1..];
    }
  }

  lemma JoinTwo(a: string, b: string)
    ensures Join([a, b]) == a + ":" + b
  {
    assert [a, b][1..] == [b];
  }

  lemma JoinThree(a: string, b: string, c: string)
    ensures Join([a, b, c]) == a + ":" + (b + ":" + c)
  {
    assert [a, b, c][1..] == [b, c];
    JoinTwo(b, c);
  }

  /** Gluing two lists of fields. */
  lemma {:induction false} JoinGlue(xs: seq<string>, ys: seq<string>)
    requires |xs| > 0 && |ys| > 0
    ensures Join(xs + ys) == Join(xs) + ":" + Join(ys)
  {
    if |xs| == 1 {
      assert (xs + ys)[1..] == ys;
    } else {
      assert (xs + ys)[1..] == xs[1..] + ys;
      JoinGlue(xs[1..], ys);
    }
  }

  lemma TailJoined(st: Stamp, w: Window, m: Metric)
    ensures Join([WindowName(w), WindowKey(st, w), MetricName(m)])
         == WindowName(w) + ":" + (WindowKey(st, w) + ":" + MetricName(m))
  {
    assert [WindowName(w), WindowKey(st, w), MetricName(m)][1..] == [WindowKey(st, w), MetricName(m)];
    JoinTwo(WindowKey(st, w), MetricName(m));
  }

  lemma EvaluationKeyJoined(p: Payload, st: Stamp, m: Metric)
    ensures KeyOf(p, st, Evaluation(m)) == Join(Meaning(p, st, Evaluation(m)))
  {
    var (kind, id) := if p.attempt != "" then ("attempt", p.attempt) else ("sub", p.submission);
    JoinGlue(["llm", kind], [id, MetricName(m)]);
    assert ["llm", kind] + [id, MetricName(m)] == Meaning(p, st, Evaluation(m));
    JoinTwo("llm", kind);
    JoinTwo(id, MetricName(m));
    assert "llm" + ":" + kind + ":" + id == EvaluationPrefix(p);
  }

  function HeadFields(p: Payload, s: Scope): (head: seq<string>)
    ensures |head| > 0
  {
    match s
    case User => ["llm", "user", p.user]
    case Global => ["llm", "global"]
    case Problem => ["llm", "problem", p.problem]
    case UserProblem => ["llm", "user_problem", p.user, p.problem]
  }

  lemma JoinFour(a: string, b: string, c: string, d: string)
    ensures Join([a, b, c, d]) == a + ":" + (b + ":" + (c + ":" + d))
  {
    assert [a, b, c, d][1..] == [b, c, d];
    JoinThree(b, c, d);
  }

  lemma HeadJoined(p: Payload, s: Scope)
    ensures Join(HeadFields(p, s)) == ScopePrefix(p, s)
  {
    match s
    case User => JoinThree("llm", "user", p.user);
    case Global => JoinTwo("llm", "global");
    case Problem => JoinThree("llm", "problem", p.problem);
    case UserProblem =>
      var ids := p.user + ":" + p.problem;
      JoinFour("llm", "user_problem", p.user, p.problem);
      assert "llm" + ":" + ("user_problem" + ":" + ids) == "llm:user_problem:" + ids;
  }

  /** A key is its fields with colons between them. */
  lemma KeyJoined(p: Payload, st: Stamp, c: Counter)
    ensures KeyOf(p, st, c) == Join(Meaning(p, st, c))
  {
    match c
    case Evaluation(m) => EvaluationKeyJoined(p, st, m);
    case Scoped(s, w, m) =>
      HeadJoined(p, s);
      JoinGlue(HeadFields(p, s), [WindowName(w), WindowKey(st, w), MetricName(m)]);
      TailJoined(st, w, m);
      assert KeyOf(p, st, c)
          == ScopePrefix(p, s) + ":" + (WindowName(w) + ":" + (WindowKey(st, w) + ":" + MetricName(m)));
  }

  lemma MeaningIsPlain(p: Payload, st: Stamp, c: Counter)
    requires PlainIds(p) && PlainStamp(st)
    ensures forall i :: 0 <= i < |Meaning(p, st, c)| ==> Plain(Meaning(p, st, c)[i])
  {
    var parts := Meaning(p, st, c);
    forall i | 0 <= i < |parts| ensures Plain(parts[i]) {
      if c.Evaluation? {
        assert i == 0 || i == 1 || i == 2 || i == 3;
      } else {
        assert i == 0 || i == 1 || i == |parts| - 3 || i == |parts| - 2 || i == |parts| - 1 || i == 2 || i == 3;
      }
    }
  }

  lemma KeyFields(p: Payload, st: Stamp, c: Counter)
    requires PlainIds(p) && PlainStamp(st)
    ensures Fields(KeyOf(p, st, c)) == Meaning(p, st, c)
  {
    KeyJoined(p, st, c);
    MeaningIsPlain(p, st, c);
    FieldsOfJoin(Meaning(p, st, c));
  }

  /** What stands before and after the last colon is legible. */
  lemma LastColon(a: string, x: string, b: string, y: string)
    requires Plain(x) && Plain(y) && a + ":" + x == b + ":" + y
    ensures a == b && x == y
  {
    FieldsOfGlue(a, x);
    FieldsOfGlue(b, y);
    FieldsOfPlain(x);
    FieldsOfPlain(y);
    var f := Fields(a) + [x];
    assert f == Fields(b) + [y] && f[|f| - 1] == x && f[|f| - 1] == y;
    assert a == (a + ":" + x)[..|a|] && b == (b + ":" + y)[..|b|];
  }

  /** For all ids, a scope's key gives away its window and the scope's own part. */
  lemma ScopeIsLegible(p: Payload, st: Stamp, s: Scope, w: Window, p': Payload, st': Stamp, s': Scope, w': Window)
    requires PlainStamp(st) && PlainStamp(st')
    requires ScopePrefix(p, s) + ":" + WindowName(w) + ":" + WindowKey(st, w)
          == ScopePrefix(p', s') + ":" + WindowName(w') + ":" + WindowKey(st', w')
    ensures w == w' && WindowKey(st, w) == WindowKey(st', w') && ScopePrefix(p, s) == ScopePrefix(p', s')
  {
    LastColon(ScopePrefix(p, s) + ":" + WindowName(w), WindowKey(st, w),
              ScopePrefix(p', s') + ":" + WindowName(w'), WindowKey(st', w'));
    assert Plain("day") && Plain("month") && |"day"| == 3 && |"month"| == 5;
    LastColon(ScopePrefix(p, s), WindowName(w), ScopePrefix(p', s'), WindowName(w'));
  }

  /** Everything two tokens must have in common to share a counter. */
  predicate SameBudget(p: Payload, st: Stamp, c: Counter, p': Payload, st': Stamp, c': Counter) {
    && c == c'
    && (c.Scoped? ==> WindowKey(st, c.window) == WindowKey(st', c.window))
    && (c.Scoped? && c.scope == User ==> p.user == p'.user)
    && (c.Scoped? && c.scope == Problem ==> p.problem == p'.problem)
    && (c.Scoped? && c.scope == UserProblem ==> p.user + ":" + p.problem == p'.user + ":" + p'.problem)
    && (c.Evaluation? ==> p.attempt == p'.attempt && (p.attempt == "" ==> p.submission == p'.submission))
  }

  lemma PrefixTellsScope(p: Payload, p': Payload, s: Scope)
    requires ScopePrefix(p, s) == ScopePrefix(p', s)
    ensures s == User ==> p.user == p'.user
    ensures s == Problem ==> p.problem == p'.problem
    ensures s == UserProblem ==> p.user + ":" + p.problem == p'.user + ":" + p'.problem
  {
    match s
    case User => CommonFront("llm:user:", p.user, p'.user);
    case Global =>
    case Problem => CommonFront("llm:problem:", p.problem, p'.problem);
    case UserProblem => CommonFront("llm:user_problem:", p.user + ":" + p.problem, p'.user + ":" + p'.problem);
  }

  lemma PrefixTellsEvaluation(p: Payload, p': Payload)
    requires EvaluationPrefix(p) == EvaluationPrefix(p')
    ensures p.attempt == p'.attempt && (p.attempt == "" ==> p.submission == p'.submission)
  {
    assert EvaluationPrefix(p)[4] == (if p.attempt != "" then 'a' else 's');
    assert EvaluationPrefix(p')[4] == (if p'.attempt != "" then 'a' else 's');
    if p.attempt != "" {
      CommonFront("llm:attempt:", p.attempt, p'.attempt);
    } else {
      CommonFront("llm:sub:", p.submission, p'.submission);
    }
  }

  /** For all ids: two tokens share a counter if and only if it is the same counter of the same
      window and of the same evaluation, user or problem, or of users and problems whose ids read
      the same once joined by a colon. */
  lemma SharedCounterIff(p: Payload, st: Stamp, c: Counter, p': Payload, st': Stamp, c': Counter)
    requires PlainStamp(st) && PlainStamp(st')
    ensures KeyOf(p, st, c) == KeyOf(p', st', c') <==> SameBudget(p, st, c, p', st', c')
  {
    if KeyOf(p, st, c) == KeyOf(p', st', c') {
      SharedKeySharesKind(p, st, c, p', st', c');
      if c.Scoped? {
        ScopeIsLegible(p, st, c.scope, c.window, p', st', c'.scope, c'.window);
        PrefixTellsScope(p, p', c.scope);
      } else {
        PrefixTellsEvaluation(p, p');
      }
    }
  }

  lemma {:induction false} JoinOfFields(s: string)
    ensures Join(Fields(s)) == s
  {
    if s != "" {
      JoinOfFields(s[1..]);
      var rest := Fields(s[1..]);
      if s[0] == ':' {
        assert Fields(s) == [""] + rest && Fields(s)[1..] == rest;
      } else {
        assert Fields(s)[1..] == rest[1..] && s == [s[0]] + s[1..];
      }
    }
  }

  lemma PlainPairIsLegible(a: string, b: string, x: string, y: string)
    requires Plain(a) && Plain(b) && a + ":" + b == x + ":" + y
    ensures x == a && y == b
  {
    FieldsOfGlue(a, b);
    FieldsOfGlue(x, y);
    FieldsOfPlain(a);
    FieldsOfPlain(b);
    var f := Fields(x) + Fields(y);
    assert f == [a, b] && |Fields(x)| == 1 && |Fields(y)| == 1;
    assert Fields(x)[0] == f[0] && Fields(y)[0] == f[1];
    JoinOfFields(x);
    JoinOfFields(y);
  }

  /** Another user and problem that spend this budget, if there is a colon to shift the border to. */
  lemma AnotherOwner(user: string, problem: string) returns (user': string, problem': string)
    requires !Plain(user) || !Plain(problem)
    ensures user' + ":" + problem' == user + ":" + problem && user' != user
  {
    if !Plain(user) {
      var i :| 0 <= i < |user| && user[i] == ':';
      user', problem' := user[..i], user[i + 1..] + ":" + problem;
      assert user == user[..i] + ":" + user[i + 1..];
    } else {
      var i :| 0 <= i < |problem| && problem[i] == ':';
      user', problem' := user + ":" + problem[..i], problem[i + 1..];
      assert problem == problem[..i] + ":" + problem[i + 1..];
    }
  }

  /** Whose user-and-problem budget is its own: nobody else's token spends it, whatever its ids, if
      and only if this token's two ids contain no colon. */
  lemma OwnBudgetIff(p: Payload, st: Stamp, w: Window, m: Metric)
    requires PlainStamp(st)
    ensures (forall q: Payload :: KeyOf(p, st, Scoped(UserProblem, w, m)) == KeyOf(q, st, Scoped(UserProblem, w, m))
               ==> q.user == p.user && q.problem == p.problem)
       <==> Plain(p.user) && Plain(p.problem)
  {
    var c := Scoped(UserProblem, w, m);
    if Plain(p.user) && Plain(p.problem) {
      forall q: Payload | KeyOf(p, st, c) == KeyOf(q, st, c) ensures q.user == p.user && q.problem == p.problem {
        SharedCounterIff(p, st, c, q, st, c);
        PlainPairIsLegible(p.user, p.problem, q.user, q.problem);
      }
    } else {
      var user', problem' := AnotherOwner(p.user, p.problem);
      var q := p.(user := user', problem := problem');
      assert KeyOf(p, st, c) == KeyOf(q, st, c);
    }
  }

  /** Colons matter: these two tokens are of different users and problems, and yet one spends the
      other's user-and-problem budget. */
  lemma ColonsMergeCounters(st: Stamp, w: Window, m: Metric)
    ensures var p := Payload("x", "s", "a", "b:c", 0, 60);
            var q := Payload("y", "t", "a:b", "c", 0, 60);
            KeyOf(p, st, Scoped(UserProblem, w, m)) == KeyOf(q, st, Scoped(UserProblem, w, m))
  {
    assert "a" + ":" + "b:c" == "a:b" + ":" + "c";
  }

  // ---- What a refusal reports --------------------------------------------------------------

  datatype Diagnosis = Diagnosis(scope: string, window: string, metric: string)

  /** The error path reads scope, window and metric back from the refused key. */
  function Diagnose(k: string): Diagnosis {
    Report(Fields(k))
  }

  function Report(parts: seq<string>): Diagnosis
    requires |parts| > 0
  {
    Diagnosis(ReportedScope(if |parts| > 1 then parts[1] else ""), ReportedWindow(parts), parts[|parts| - 1])
  }

  function ReportedScope(part: string): string {
    if part == "attempt" || part == "sub" then "evaluation" else part
  }

  function ReportedWindow(parts: seq<string>): string {
    if "day" in parts then "day" else if "month" in parts then "month" else "evaluation"
  }

  function ScopeName(s: Scope): string {
    match s case User => "user" case Global => "global" case Problem => "problem" case UserProblem => "user_problem"
  }

  function Truth(c: Counter): Diagnosis {
    match c
    case Evaluation(m) => Diagnosis("evaluation", "evaluation", MetricName(m))
    case Scoped(s, w, m) => Diagnosis(ScopeName(s), WindowName(w), MetricName(m))
  }

  /** The ids written in a counter's key. */
  function IdsIn(p: Payload, c: Counter): set<string> {
    match c
    case Evaluation(_) => {if p.attempt != "" then p.attempt else p.submission}
    case Scoped(User, _, _) => {p.user}
    case Scoped(Global, _, _) => {}
    case Scoped(Problem, _, _) => {p.problem}
    case Scoped(UserProblem, _, _) => {p.user, p.problem}
  }

  /** A field of one of those ids; an id with colons has several. */
  predicate HasIdField(p: Payload, c: Counter, x: string) {
    exists id :: id in IdsIn(p, c) && x in Fields(id)
  }

  /** Whether an id, or a field of it, reads like a window's name and so hides the key's window. */
  predicate Misleading(p: Payload, c: Counter) {
    || (WindowNameOf(c) != "day" && HasIdField(p, c, "day"))
    || (WindowNameOf(c) == "evaluation" && HasIdField(p, c, "month"))
  }

  function WindowNameOf(c: Counter): string {
    if c.Scoped? then WindowName(c.window) else "evaluation"
  }

  predicate WindowsAreDated(st: Stamp) {
    PlainStamp(st) && st.day != "day" && st.day != "month" && st.month != "day" && st.month != "month"
  }

  function AllFields(parts: seq<string>): seq<string> {
    if parts == [] then [] else Fields(parts[0]) + AllFields(parts[1..])
  }

  /** Reading back what was joined: each part falls into its own fields. */
  lemma {:induction false} FieldsOfAnyJoin(parts: seq<string>)
    requires |parts| > 0
    ensures Fields(Join(parts)) == AllFields(parts)
  {
    if |parts| > 1 {
      FieldsOfGlue(parts[0], Join(parts[1..]));
      FieldsOfAnyJoin(parts[1..]);
    } else {
      assert parts[1..] == [];
    }
  }

  lemma {:induction false} AmongAllFields(parts: seq<string>, x: string)
    ensures x in AllFields(parts) <==> exists i :: 0 <= i < |parts| && x in Fields(parts[i])
  {
    if parts != [] {
      AmongAllFields(parts[1..], x);
      assert forall i :: 0 < i < |parts| ==> parts[i] == parts[1..][i - 1];
    }
  }

  lemma {:induction false} LastOfAllFields(parts: seq<string>)
    requires |parts| > 0 && Plain(parts[|parts| - 1])
    ensures AllFields(parts) != [] && AllFields(parts)[|AllFields(parts)| - 1] == parts[|parts| - 1]
  {
    if |parts| == 1 {
      FieldsOfPlain(parts[0]);
      assert AllFields(parts[1..]) == [];
    } else {
      LastOfAllFields(parts[1..]);
    }
  }

  lemma SecondOfAllFields(parts: seq<string>)
    requires |parts| > 2 && Plain(parts[0]) && Plain(parts[1])
    ensures |AllFields(parts)| > 1 && AllFields(parts)[1] == parts[1]
  {
    FieldsOfPlain(parts[0]);
    FieldsOfPlain(parts[1]);
    assert AllFields(parts) == [parts[0]] + AllFields(parts[1..]);
    assert AllFields(parts[1..]) == [parts[1]] + AllFields(parts[1..][1..]);
  }

  lemma NamesDiffer()
    ensures "day" != "month" && "day" != "evaluation" && "month" != "evaluation"
    ensures forall x | x in ["llm", "attempt", "sub", "user", "global", "problem", "user_problem", "calls",
                             "tokens", "cost"]
              :: Plain(x) && x != "day" && x != "month"
  {
    assert "day"[0] == 'd' && "month"[0] == 'm';
  }

  /** A part of a key is one of its ids, or plain; the plain ones that read like a window's name
      are the window's name. */
  lemma PartIsIdOrPlain(p: Payload, st: Stamp, c: Counter, i: nat)
    requires WindowsAreDated(st) && i < |Meaning(p, st, c)|
    ensures var x := Meaning(p, st, c)[i];
            || x in IdsIn(p, c)
            || (Plain(x) && (x == "day" || x == "month" ==> x == WindowNameOf(c)))
  {
    NamesDiffer();
    assert MetricName(c.metric) in ["calls", "tokens", "cost"];
    if c.Evaluation? {
      assert i == 0 || i == 1 || i == 2 || i == 3;
    } else {
      var n := |HeadFields(p, c.scope)|;
      assert i < n ==> i == 0 || i == 1 || i == 2 || i == 3;
      assert i >= n ==> i == n || i == n + 1 || i == n + 2;
    }
  }

  lemma IdIsPart(p: Payload, st: Stamp, c: Counter, id: string) returns (i: nat)
    requires id in IdsIn(p, c)
    ensures i < |Meaning(p, st, c)| && Meaning(p, st, c)[i] == id
  {
    i := if c.Scoped? && c.scope == UserProblem && id == p.problem then 3 else 2;
  }

  /** Where a window's name turns up among the fields of a key. */
  lemma WindowNameAmongFields(p: Payload, st: Stamp, c: Counter, x: string)
    requires (x == "day" || x == "month") && WindowsAreDated(st)
    ensures x in AllFields(Meaning(p, st, c)) <==> HasIdField(p, c, x) || x == WindowNameOf(c)
  {
    var parts := Meaning(p, st, c);
    NamesDiffer();
    AmongAllFields(parts, x);
    if i :| 0 <= i < |parts| && x in Fields(parts[i]) {
      PartIsIdOrPlain(p, st, c, i);
      if parts[i] !in IdsIn(p, c) { FieldsOfPlain(parts[i]); }
    }
    if HasIdField(p, c, x) {
      var id :| id in IdsIn(p, c) && x in Fields(id);
      var i := IdIsPart(p, st, c, id);
    }
    if x == WindowNameOf(c) {
      assert Plain("day") && Plain("month");
      FieldsOfPlain(x);
      assert parts[|parts| - 3] == x;
    }
  }

  lemma FixedParts(p: Payload, st: Stamp, c: Counter)
    ensures var parts := Meaning(p, st, c);
            && |parts| > 2 && Plain(parts[0]) && Plain(parts[1])
            && ReportedScope(parts[1]) == Truth(c).scope && parts[|parts| - 1] == Truth(c).metric
            && Plain(Truth(c).metric)
  {
    assert |"attempt"| == 7 && "attempt"[0] == 'a' && |"sub"| == 3 && "problem"[0] == 'p';
    assert |"user"| == 4 && |"global"| == 6 && |"user_problem"| == 12;
  }

  lemma ScopeAndMetricAreReported(p: Payload, st: Stamp, c: Counter)
    ensures var parts := AllFields(Meaning(p, st, c));
            |parts| > 1 && parts[|parts| - 1] == Truth(c).metric && ReportedScope(parts[1]) == Truth(c).scope
  {
    FixedParts(p, st, c);
    SecondOfAllFields(Meaning(p, st, c));
    LastOfAllFields(Meaning(p, st, c));
  }

  lemma WindowIsReportedIff(p: Payload, st: Stamp, c: Counter)
    requires WindowsAreDated(st)
    ensures ReportedWindow(AllFields(Meaning(p, st, c))) == Truth(c).window <==> !Misleading(p, c)
  {
    WindowNameAmongFields(p, st, c, "day");
    WindowNameAmongFields(p, st, c, "month");
    NamesDiffer();
  }

  lemma WindowDecides(parts: seq<string>, d: Diagnosis)
    requires |parts| > 1 && ReportedScope(parts[1]) == d.scope && parts[|parts| - 1] == d.metric
    ensures Report(parts) == d <==> ReportedWindow(parts) == d.window
  {
  }

  /** For all ids, colons included, the report names the counter that refused if and only if no
      field of an id in its key reads "day" (for a counter that is not daily) or "month" (for the
      evaluation's own). */
  lemma DiagnosisIsRightIff(p: Payload, st: Stamp, c: Counter)
    requires WindowsAreDated(st)
    ensures Diagnose(KeyOf(p, st, c)) == Truth(c) <==> !Misleading(p, c)
  {
    KeyJoined(p, st, c);
    FieldsOfAnyJoin(Meaning(p, st, c));
    ScopeAndMetricAreReported(p, st, c);
    WindowIsReportedIff(p, st, c);
    WindowDecides(AllFields(Meaning(p, st, c)), Truth(c));
  }

  /** And it happens: a user called "day" has monthly refusals reported as daily ones. */
  lemma UserCalledDayMisleads(st: Stamp, m: Metric)
    requires WindowsAreDated(st)
    ensures var p := Payload("x", "s", "day", "p", 0, 60);
            Diagnose(KeyOf(p, st, Scoped(User, Month, m))) != Truth(Scoped(User, Month, m))
  {
    var (p, c) := (Payload("x", "s", "day", "p", 0, 60), Scoped(User, Month, m));
    DiagnosisIsRightIff(p, st, c);
    FieldsOfPlain("day");
    assert |"day"| == 3 && |"month"| == 5;
    assert "day" in IdsIn(p, c) && "day" in Fields("day");
  }
}
