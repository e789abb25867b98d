/** Any number of clients polling, leaving, releasing and settling on one throttle, next to the
    ledger of slots they hold: what the windows and the server's books look like over all runs. */
module ThrottleRuns {
  import opened SortedSets
  import opened Numbers
  import opened ProviderThrottle

  /** `slots` are the admissions not released, each with the client's `settledTokens`; `cut` is
      the last instant the windows were pruned to. `largest` is the largest request admitted and
      `raised` the sum of all upward corrections so far. */
  datatype World = World(
    server: Server, slots: seq<Entry<nat>>, admitted: set<nat>, cut: int, largest: nat, raised: nat)

  datatype Op =
    | Poll(id: nat, tokens: nat)
    | Leave(id: nat)
    | GiveBack(id: nat)
    | Correct(id: nat, actual: nat)
    | Pass(now: int)

  function Initial(limits: Limits, now: int): World {
    World(Server(now, [], [], [], map[], 0), [], {}, now - limits.window, 0, 0)
  }

  /** A client stops polling once admitted; it corrects and gives back only a slot it holds,
      with the amount it last recorded. */
  function Step(limits: Limits, w: World, op: Op): World {
    match op
    case Poll(id, tokens) =>
      if id in w.admitted then w else
      var (s', reply) := Acquire(limits, w.server, id, tokens);
      var w' := w.(server := s', cut := w.server.now - limits.window);
      if reply != Admitted then w'
      else w'.(slots := Insert(w.slots, Entry(w.server.now, id, tokens)),
               admitted := w.admitted + {id},
               largest := Max(w.largest, tokens))
    case Leave(id) => w.(server := Unqueue(w.server, id))
    case GiveBack(id) =>
      var r := Rank(w.slots, id);
      if r == |w.slots| then w
      else w.(server := Release(w.server, id, w.slots[r].value), slots := Remove(w.slots, id, w.slots[r].value))
    case Correct(id, actual) =>
      var r := Rank(w.slots, id);
      if r == |w.slots| || w.slots[r].value == actual then w
      else w.(server := Settle(w.server, id, w.slots[r].value, actual),
              slots := Revalue(w.slots, id, w.slots[r].value, actual),
              raised := w.raised + (if actual > w.slots[r].value then actual - w.slots[r].value else 0))
    case Pass(now) => if now < w.server.now then w else w.(server := w.server.(now := now))
  }

  function After(limits: Limits, w: World, ops: seq<Op>): World
    decreases |ops|
  {
    if ops == [] then w else After(limits, Step(limits, w, ops[0]), ops[1..])
  }

  // ---- Load of a window -------------------------------------------------------------------

  datatype Measure = Requests | Tokens

  function Weight(m: Measure, e: Entry<nat>, t: int, window: nat): nat {
    if t - window < e.at <= t then (if m == Requests then 1 else e.value) else 0
  }

  /** Requests, or tokens, admitted in `(t - window, t]`. */
  function Load(m: Measure, xs: seq<Entry<nat>>, t: int, window: nat): nat {
    if xs == [] then 0 else Weight(m, xs[0], t, window) + Load(m, xs[1..], t, window)
  }

  lemma {:induction false} LoadInsert(m: Measure, xs: seq<Entry<nat>>, e: Entry<nat>, t: int, window: nat)
    ensures Load(m, Insert(xs, e), t, window) == Load(m, xs, t, window) + Weight(m, e, t, window)
    decreases |xs|
  {
    if xs != [] && !Earlier(e, xs[0]) {
      LoadInsert(m, xs[1..], e, t, window);
      assert ([xs[0]] + Insert(xs[1..], e))[1..] == Insert(xs[1..], e);
    } else {
      assert ([e] + xs)[1..] == xs;
    }
  }

  lemma {:induction false} LoadRemove(m: Measure, xs: seq<Entry<nat>>, id: nat, value: nat, t: int, window: nat)
    ensures Load(m, Remove(xs, id, value), t, window) <= Load(m, xs, t, window)
    decreases |xs|
  {
    if xs != [] {
      var r := Remove(xs[1..], id, value);
      assert ([xs[0]] + r)[1..] == r;
      LoadRemove(m, xs[1..], id, value, t, window);
    }
  }

  lemma {:induction false} LoadUpdate(m: Measure, xs: seq<Entry<nat>>, i: nat, value: nat, t: int, window: nat)
    requires i < |xs|
    ensures Load(m, xs[i := Entry(xs[i].at, xs[i].id, value)], t, window) + Weight(m, xs[i], t, window)
         == Load(m, xs, t, window) + Weight(m, Entry(xs[i].at, xs[i].id, value), t, window)
    decreases |xs|
  {
    var e := Entry(xs[i].at, xs[i].id, value);
    if i == 0 {
      assert xs[0 := e][1..] == xs[1..];
    } else {
      assert xs[i := e][1..] == xs[1..][i - 1 := e];
      LoadUpdate(m, xs[1..], i - 1, value, t, window);
    }
  }

  /** Once nothing new comes in, a window only empties. */
  lemma {:induction false} LoadLater(m: Measure, xs: seq<Entry<nat>>, now: int, t: int, window: nat)
    requires now <= t && forall x :: x in xs ==> x.at <= now
    ensures Load(m, xs, t, window) <= Load(m, xs, now, window)
    decreases |xs|
  {
    if xs != [] {
      assert xs[0] in xs;
      LoadLater(m, xs[1..], now, t, window);
    }
  }

  /** What the script sums after pruning is the load of the window ending now. */
  lemma {:induction false} LoadNow(xs: seq<Entry<nat>>, now: int, window: nat)
    requires Sorted(xs) && forall x :: x in xs ==> x.at <= now
    ensures Load(Tokens, xs, now, window) == Total(Drop(xs, now - window))
    ensures Load(Requests, xs, now, window) == |Drop(xs, now - window)|
    decreases |xs|
  {
    if xs != [] {
      assert xs[0] in xs;
      LoadNow(xs[1..], now, window);
      if xs[0].at > now - window {
        assert forall i :: 0 < i < |xs| ==> Earlier(xs[0], xs[i]);
        DropNothing(xs[1..], now - window);
      }
    }
  }

  // ---- The books agree ----------------------------------------------------------------------

  /** The server's windows are the clients' ledger cut off at the last pruning. */
  ghost predicate Books(limits: Limits, w: World) {
    && Sorted(w.slots) && DistinctIds(w.slots)
    && (forall x :: x in w.slots ==> x.at <= w.server.now)
    && Ids(w.slots) <= w.admitted
    && w.cut <= w.server.now - limits.window
    && w.server.tpm == Drop(w.slots, w.cut)
    && w.server.rpm == Strip(Drop(w.slots, w.cut))
  }

  lemma ArriveBooks(limits: Limits, w: World, id: nat)
    requires Books(limits, w)
    ensures var c := w.server.now - limits.window;
            var a := Arrive(limits, w.server, id);
            && a.now == w.server.now
            && a.tpm == Drop(w.slots, c) && a.rpm == Strip(Drop(w.slots, c))
  {
    var c := w.server.now - limits.window;
    ArriveWindows(limits, w.server, id);
    WindowsFromLedger(limits, w, c);
  }

  lemma LedgerAfterAdmission(slots: seq<Entry<nat>>, e: Entry<nat>, c: int)
    requires Sorted(slots) && DistinctIds(slots) && e.id !in Ids(slots) && e.at > c
    requires forall x :: x in slots ==> x.at <= e.at
    ensures Sorted(Insert(slots, e)) && DistinctIds(Insert(slots, e))
    ensures Ids(Insert(slots, e)) == Ids(slots) + {e.id}
    ensures forall x :: x in Insert(slots, e) ==> x.at <= e.at
    ensures Drop(Insert(slots, e), c) == Insert(Drop(slots, c), e)
    ensures Strip(Drop(Insert(slots, e), c)) == Insert(Strip(Drop(slots, c)), Entry(e.at, e.id, ()))
  {
    InsertElements(slots, e);
    InsertSorted(slots, e);
    InsertDistinct(slots, e);
    DropInsert(slots, e, c);
    StripInsert(Drop(slots, c), e);
  }

  lemma AdmittedBooks(limits: Limits, w: World, w': World, e: Entry<nat>)
    requires Books(limits, w) && e.at == w.server.now && e.id !in w.admitted
    requires w'.server.now == w.server.now && w'.cut == w.server.now - limits.window
    requires w'.slots == Insert(w.slots, e) && w'.admitted == w.admitted + {e.id}
    requires w'.server.tpm == Insert(Drop(w.slots, w'.cut), e)
    requires w'.server.rpm == Insert(Strip(Drop(w.slots, w'.cut)), Entry(e.at, e.id, ()))
    ensures Books(limits, w')
  {
    LedgerAfterAdmission(w.slots, e, w'.cut);
  }

  lemma RefusedBooks(limits: Limits, w: World, w': World)
    requires Books(limits, w)
    requires w'.server.now == w.server.now && w'.cut == w.server.now - limits.window
    requires w'.slots == w.slots && w'.admitted == w.admitted
    requires w'.server.tpm == Drop(w.slots, w'.cut) && w'.server.rpm == Strip(Drop(w.slots, w'.cut))
    ensures Books(limits, w')
  {
  }

  lemma AdmittedPollBooks(limits: Limits, w: World, id: nat, tokens: nat)
    requires Books(limits, w) && id !in w.admitted && Acquire(limits, w.server, id, tokens).1 == Admitted
    ensures Books(limits, Step(limits, w, Poll(id, tokens)))
  {
    ArriveBooks(limits, w, id);
    AcquireWindows(limits, w.server, id, tokens);
    AdmittedBooks(limits, w, Step(limits, w, Poll(id, tokens)), Entry(w.server.now, id, tokens));
  }

  lemma RefusedPollBooks(limits: Limits, w: World, id: nat, tokens: nat)
    requires Books(limits, w) && id !in w.admitted && Acquire(limits, w.server, id, tokens).1 != Admitted
    ensures Books(limits, Step(limits, w, Poll(id, tokens)))
  {
    ArriveBooks(limits, w, id);
    AcquireWindows(limits, w.server, id, tokens);
    RefusedBooks(limits, w, Step(limits, w, Poll(id, tokens)));
  }

  lemma PollBooks(limits: Limits, w: World, id: nat, tokens: nat)
    requires Books(limits, w)
    ensures Books(limits, Step(limits, w, Poll(id, tokens)))
  {
    if id !in w.admitted {
      if Acquire(limits, w.server, id, tokens).1 == Admitted {
        AdmittedPollBooks(limits, w, id, tokens);
      } else {
        RefusedPollBooks(limits, w, id, tokens);
      }
    }
  }

  /** Giving back a slot on the ledger and on the server's windows comes to the same. */
  lemma RemoveCommutes(xs: seq<Entry<nat>>, r: nat, c: int)
    requires Sorted(xs) && DistinctIds(xs) && r < |xs|
    ensures var (id, v) := (xs[r].id, xs[r].value);
            && Drop(Remove(xs, id, v), c) == Remove(Drop(xs, c), id, v)
            && Strip(Drop(Remove(xs, id, v), c)) == Remove(Strip(Drop(xs, c)), id, ())
  {
    var (id, v) := (xs[r].id, xs[r].value);
    DropRemove(xs, id, v, c);
    DropIsSuffix(xs, c);
    OneValuePerId(xs, r);
    var kept := Drop(xs, c);
    forall x | x in kept ensures x in xs {
      var i :| 0 <= i < |kept| && kept[i] == x;
      assert x == xs[Dropped(xs, c) + i];
    }
    StripRemove(kept, id, v);
  }

  lemma GiveBackBooks(limits: Limits, w: World, id: nat)
    requires Books(limits, w)
    ensures Books(limits, Step(limits, w, GiveBack(id)))
  {
    var r := Rank(w.slots, id);
    if r < |w.slots| {
      RemoveKeepsOrder(w.slots, id, w.slots[r].value);
      RemoveCommutes(w.slots, r, w.cut);
    }
  }

  lemma {:induction false} OneValuePerId(xs: seq<Entry<nat>>, r: nat)
    requires DistinctIds(xs) && r < |xs|
    ensures forall x :: x in xs && x.id == xs[r].id ==> x == xs[r]
    decreases |xs|
  {
    IdsAreElements(xs[1..]);
    assert forall x :: x in xs ==> x == xs[0] || x in xs[1..];
    if r > 0 {
      OneValuePerId(xs[1..], r - 1);
    }
  }

  /** A correction in place leaves everything but the amount, whether the slot is kept or not. */
  lemma RevalueKept(kept: seq<Entry<nat>>, k: nat, id: nat, recorded: nat, value: nat)
    requires Sorted(kept) && DistinctIds(kept) && k == Rank(kept, id)
    requires k < |kept| ==> kept[k].value == recorded
    ensures Revalue(kept, id, recorded, value) == if k < |kept| then kept[k := Entry(kept[k].at, id, value)] else kept
    ensures Strip(Revalue(kept, id, recorded, value)) == Strip(kept)
  {
    RevalueInPlace(kept, id, recorded, value);
    if k < |kept| {
      UpdateKeepsOrder(kept, k, value);
    }
  }

  /** Correcting a slot on the ledger and on the server's window comes to the same, and moves
      no admission instant. */
  lemma RevalueCommutes(xs: seq<Entry<nat>>, r: nat, value: nat, c: int)
    requires Sorted(xs) && DistinctIds(xs) && r < |xs| && r == Rank(xs, xs[r].id)
    ensures var ys := Revalue(xs, xs[r].id, xs[r].value, value);
            && ys == xs[r := Entry(xs[r].at, xs[r].id, value)]
            && Drop(ys, c) == Revalue(Drop(xs, c), xs[r].id, xs[r].value, value)
            && Strip(Drop(ys, c)) == Strip(Drop(xs, c))
  {
    var id := xs[r].id;
    var m := Dropped(xs, c);
    RevalueKept(xs, r, id, xs[r].value, value);
    DropUpdate(xs, r, value, c);
    RankInIds(xs, id);
    RankAfterDrop(xs, id, c);
    DropKeepsOrder(xs, c);
    DropIsSuffix(xs, c);
    assert m <= r ==> Drop(xs, c)[r - m] == xs[r];
    RevalueKept(Drop(xs, c), if r < m then |xs| - m else r - m, id, xs[r].value, value);
  }

  lemma CorrectBooks(limits: Limits, w: World, id: nat, actual: nat)
    requires Books(limits, w)
    ensures Books(limits, Step(limits, w, Correct(id, actual)))
  {
    var r := Rank(w.slots, id);
    if r < |w.slots| && w.slots[r].value != actual {
      RevalueCommutes(w.slots, r, actual, w.cut);
      UpdateKeepsOrder(w.slots, r, actual);
    }
  }

  lemma {:induction false} UpdateKeepsOrder(xs: seq<Entry<nat>>, r: nat, value: nat)
    requires r < |xs|
    ensures var ys := xs[r := Entry(xs[r].at, xs[r].id, value)];
            && Ids(ys) == Ids(xs) && (DistinctIds(xs) ==> DistinctIds(ys)) && (Sorted(xs) ==> Sorted(ys))
            && Strip(ys) == Strip(xs)
    decreases |xs|
  {
    var e := Entry(xs[r].at, xs[r].id, value);
    if r == 0 {
      assert xs[0 := e][1..] == xs[1..];
    } else {
      assert xs[r := e][1..] == xs[1..][r - 1 := e];
      UpdateKeepsOrder(xs[1..], r - 1, value);
    }
  }

  lemma {:induction false} DropUpdate(xs: seq<Entry<nat>>, r: nat, value: nat, c: int)
    requires r < |xs|
    ensures Drop(xs[r := Entry(xs[r].at, xs[r].id, value)], c)
         == var m := Dropped(xs, c);
            if r < m then Drop(xs, c) else Drop(xs, c)[r - m := Entry(xs[r].at, xs[r].id, value)]
    decreases |xs|
  {
    var e := Entry(xs[r].at, xs[r].id, value);
    if r == 0 {
      assert xs[0 := e][1..] == xs[1..];
    } else {
      assert xs[r := e][1..] == xs[1..][r - 1 := e];
      if xs[0].at <= c { DropUpdate(xs[1..], r - 1, value, c); }
    }
  }

  lemma {:induction false} RankAfterDrop(xs: seq<Entry<nat>>, id: nat, c: int)
    requires DistinctIds(xs) && id in Ids(xs)
    ensures var m := Dropped(xs, c);
            var r := Rank(xs, id);
            Rank(Drop(xs, c), id) == if r < m then |xs| - m else r - m
    decreases |xs|
  {
    if xs[0].at <= c {
      if xs[0].id == id {
        DropIsSuffix(xs[1..], c);
        RankInIds(Drop(xs[1..], c), id);
      } else {
        RankAfterDrop(xs[1..], id, c);
      }
    }
  }

  lemma StepBooks(limits: Limits, w: World, op: Op)
    requires Books(limits, w)
    ensures Books(limits, Step(limits, w, op))
  {
    match op
    case Poll(id, tokens) => PollBooks(limits, w, id, tokens);
    case GiveBack(id) => GiveBackBooks(limits, w, id);
    case Correct(id, actual) => CorrectBooks(limits, w, id, actual);
    case Leave(_) =>
    case Pass(_) =>
  }

  /** What a pruning script sums is what the clients hold: the window's token total is the sum
      of the `settledTokens` of unreleased slots admitted in the window, and its request count
      is the number of those slots. */
  lemma WindowIsTheLedger(limits: Limits, w: World, id: nat)
    requires Books(limits, w)
    ensures var a := Arrive(limits, w.server, id);
            && Total(a.tpm) == Load(Tokens, w.slots, w.server.now, limits.window)
            && |a.rpm| == Load(Requests, w.slots, w.server.now, limits.window)
  {
    ArriveBooks(limits, w, id);
    LoadNow(w.slots, w.server.now, limits.window);
  }

  /** Room in both windows, as the limits are documented: fewer requests than the limit, and
      either no tokens at all or enough left for this request. */
  predicate HasRoom(limits: Limits, w: World, tokens: nat) {
    var used := Load(Tokens, w.slots, w.server.now, limits.window);
    && (limits.rpm > 0 ==> Load(Requests, w.slots, w.server.now, limits.window) < limits.rpm)
    && (limits.tpm > 0 ==> used == 0 || used + tokens <= limits.tpm)
  }

  /** The script's waits are zero exactly when there is room. */
  lemma NoWaitIff(limits: Limits, a: Server, tokens: nat)
    requires Sorted(a.rpm) && Sorted(a.tpm)
    requires forall x :: x in a.rpm ==> x.at > a.now - limits.window
    requires forall x :: x in a.tpm ==> x.at > a.now - limits.window
    ensures WindowWait(limits, a, tokens) <= 0
       <==> (limits.rpm > 0 ==> |a.rpm| < limits.rpm)
            && (limits.tpm > 0 ==> Total(a.tpm) == 0 || Total(a.tpm) + tokens <= limits.tpm)
  {
    if limits.rpm > 0 && |a.rpm| >= limits.rpm {
      assert a.rpm[|a.rpm| - limits.rpm] in a.rpm;
    }
    if limits.tpm > 0 && Blocked(a.tpm, tokens, limits.tpm) {
      ReliefIsAnEntry(a.tpm, tokens, limits.tpm);
      var i :| 0 <= i < |a.tpm| && a.tpm[i].at == Relief(a.tpm, tokens, limits.tpm);
      assert a.tpm[i] in a.tpm;
    }
  }

  lemma KeptAreRecent(xs: seq<Entry<nat>>, c: int)
    requires Sorted(xs)
    ensures var kept := Drop(xs, c);
            && Sorted(kept) && Sorted(Strip(kept))
            && (forall x :: x in kept ==> x.at > c) && (forall x :: x in Strip(kept) ==> x.at > c)
  {
    DropKeepsOrder(xs, c);
  }

  lemma KeptWindowsAreRecent(slots: seq<Entry<nat>>, c: int, rpm: seq<Entry<()>>, tpm: seq<Entry<nat>>)
    requires Sorted(slots) && tpm == Drop(slots, c) && rpm == Strip(tpm)
    ensures Sorted(rpm) && Sorted(tpm) && (forall x :: x in rpm ==> x.at > c) && (forall x :: x in tpm ==> x.at > c)
  {
    KeptAreRecent(slots, c);
  }

  lemma ArriveIsRecent(limits: Limits, w: World, id: nat)
    requires Books(limits, w)
    ensures var a := Arrive(limits, w.server, id);
            && Sorted(a.rpm) && Sorted(a.tpm)
            && (forall x :: x in a.rpm ==> x.at > a.now - limits.window)
            && (forall x :: x in a.tpm ==> x.at > a.now - limits.window)
  {
    var a := Arrive(limits, w.server, id);
    ArriveBooks(limits, w, id);
    KeptWindowsAreRecent(w.slots, a.now - limits.window, a.rpm, a.tpm);
  }

  /** A head is admitted exactly when both windows have room for it. */
  lemma HeadAdmittedIff(limits: Limits, w: World, id: nat, tokens: nat)
    requires Books(limits, w) && Rank(Arrive(limits, w.server, id).queue, id) == 0
    ensures Acquire(limits, w.server, id, tokens).1 == Admitted <==> HasRoom(limits, w, tokens)
  {
    ArriveIsQueued(limits, w.server, id);
    HeadReply(limits, w.server, id, tokens);
    ArriveIsRecent(limits, w, id);
    NoWaitIff(limits, Arrive(limits, w.server, id), tokens);
    WindowIsTheLedger(limits, w, id);
  }

  // ---- The windows never overflow -------------------------------------------------------------

  /** At every instant, past or present. */
  ghost predicate Bounded(limits: Limits, w: World) {
    && (limits.rpm > 0 ==> forall t :: Load(Requests, w.slots, t, limits.window) <= limits.rpm)
    && (limits.tpm > 0 ==> forall t ::
          Load(Tokens, w.slots, t, limits.window) <= Max(limits.tpm, w.largest) + w.raised)
  }

  lemma AdmissionStaysBounded(limits: Limits, w: World, e: Entry<nat>, t: int)
    requires Books(limits, w) && Bounded(limits, w)
    requires e.at == w.server.now && HasRoom(limits, w, e.value)
    ensures limits.rpm > 0 ==> Load(Requests, Insert(w.slots, e), t, limits.window) <= limits.rpm
    ensures limits.tpm > 0 ==> Load(Tokens, Insert(w.slots, e), t, limits.window)
                                 <= Max(limits.tpm, Max(w.largest, e.value)) + w.raised
  {
    LoadInsert(Requests, w.slots, e, t, limits.window);
    LoadInsert(Tokens, w.slots, e, t, limits.window);
    if e.at <= t {
      LoadLater(Requests, w.slots, e.at, t, limits.window);
      LoadLater(Tokens, w.slots, e.at, t, limits.window);
    }
  }

  lemma PollStaysBounded(limits: Limits, w: World, id: nat, tokens: nat)
    requires Books(limits, w) && Bounded(limits, w)
    ensures Bounded(limits, Step(limits, w, Poll(id, tokens)))
  {
    if id !in w.admitted && Acquire(limits, w.server, id, tokens).1 == Admitted {
      ArriveIsQueued(limits, w.server, id);
      HeadAdmittedIff(limits, w, id, tokens);
      forall t {
        AdmissionStaysBounded(limits, w, Entry(w.server.now, id, tokens), t);
      }
    }
  }

  lemma CorrectStaysBounded(limits: Limits, w: World, id: nat, actual: nat)
    requires Books(limits, w) && Bounded(limits, w)
    ensures Bounded(limits, Step(limits, w, Correct(id, actual)))
  {
    var r := Rank(w.slots, id);
    if r < |w.slots| && w.slots[r].value != actual {
      RevalueInPlace(w.slots, id, w.slots[r].value, actual);
      forall m, t ensures Load(m, w.slots[r := Entry(w.slots[r].at, id, actual)], t, limits.window)
                            + Weight(m, w.slots[r], t, limits.window)
                       == Load(m, w.slots, t, limits.window)
                            + Weight(m, Entry(w.slots[r].at, id, actual), t, limits.window)
      {
        LoadUpdate(m, w.slots, r, actual, t, limits.window);
      }
    }
  }

  lemma StepStaysBounded(limits: Limits, w: World, op: Op)
    requires Books(limits, w) && Bounded(limits, w)
    ensures Bounded(limits, Step(limits, w, op))
  {
    match op
    case Poll(id, tokens) => PollStaysBounded(limits, w, id, tokens);
    case Correct(id, actual) => CorrectStaysBounded(limits, w, id, actual);
    case GiveBack(id) =>
      var r := Rank(w.slots, id);
      if r < |w.slots| {
        forall m, t ensures Load(m, Remove(w.slots, id, w.slots[r].value), t, limits.window)
                         <= Load(m, w.slots, t, limits.window)
        {
          LoadRemove(m, w.slots, id, w.slots[r].value, t, limits.window);
        }
      }
    case Leave(_) =>
    case Pass(_) =>
  }

  lemma {:induction false} RunsStayBounded(limits: Limits, w: World, ops: seq<Op>)
    requires Books(limits, w) && Bounded(limits, w)
    ensures Books(limits, After(limits, w, ops)) && Bounded(limits, After(limits, w, ops))
    decreases |ops|
  {
    if ops != [] {
      StepBooks(limits, w, ops[0]);
      StepStaysBounded(limits, w, ops[0]);
      RunsStayBounded(limits, Step(limits, w, ops[0]), ops[1..]);
    }
  }

  /** The sliding-window guarantee: after any run, for every instant `t`, the unreleased
      admissions in `(t - window, t]` are at most the request limit, and their tokens at most
      the token limit or the largest single request, plus whatever corrections added. */
  lemma WindowsNeverOverflow(limits: Limits, start: int, ops: seq<Op>, t: int)
    ensures var w := After(limits, Initial(limits, start), ops);
            && (limits.rpm > 0 ==> Load(Requests, w.slots, t, limits.window) <= limits.rpm)
            && (limits.tpm > 0 ==>
                  Load(Tokens, w.slots, t, limits.window) <= Max(limits.tpm, w.largest) + w.raised)
  {
    RunsStayBounded(limits, Initial(limits, start), ops);
  }

  /** In every reachable state the server's windows are exactly the clients' unreleased slots
      since the last pruning, with the amounts the clients have on record. */
  lemma BooksAlwaysAgree(limits: Limits, start: int, ops: seq<Op>)
    ensures var w := After(limits, Initial(limits, start), ops);
            && w.server.tpm == Drop(w.slots, w.cut) && w.server.rpm == Strip(w.server.tpm)
            && w.cut <= w.server.now - limits.window
  {
    RunsStayBounded(limits, Initial(limits, start), ops);
  }

  lemma InsertedIsFound(xs: seq<Entry<nat>>, e: Entry<nat>)
    requires DistinctIds(xs) && e.id !in Ids(xs)
    ensures var ys := Insert(xs, e);
            var r := Rank(ys, e.id);
            r < |ys| && ys[r] == e
  {
    var ys := Insert(xs, e);
    InsertElements(xs, e);
    InsertDistinct(xs, e);
    RankInIds(ys, e.id);
    OneValuePerId(ys, Rank(ys, e.id));
    assert e in ys;
  }

  lemma AfterAdmission(limits: Limits, w: World, id: nat, tokens: nat)
    requires Books(limits, w) && id !in w.admitted
    requires Acquire(limits, w.server, id, tokens).1 == Admitted
    ensures var w1 := Step(limits, w, Poll(id, tokens));
            && Books(limits, w1)
            && w1.slots == Insert(w.slots, Entry(w.server.now, id, tokens))
            && w1.cut == w.server.now - limits.window
  {
    PollBooks(limits, w, id, tokens);
  }

  lemma GiveBackLast(limits: Limits, w: World, w1: World, e: Entry<nat>)
    requires Books(limits, w) && Books(limits, w1) && w.cut <= w1.cut
    requires w1.slots == Insert(w.slots, e) && e.id !in w.admitted
    ensures var w' := Step(limits, w1, GiveBack(e.id));
            && w'.slots == w.slots
            && w'.server.tpm == Drop(w.server.tpm, w1.cut) && w'.server.rpm == Drop(w.server.rpm, w1.cut)
  {
    InsertedIsFound(w.slots, e);
    RemoveInserted(w.slots, e);
    GiveBackBooks(limits, w1, e.id);
    WindowsFromLedger(limits, w, w1.cut);
  }

  lemma {:induction false} RunBooks(limits: Limits, w: World, ops: seq<Op>)
    requires Books(limits, w)
    ensures Books(limits, After(limits, w, ops)) && w.cut <= After(limits, w, ops).cut
    decreases |ops|
  {
    if ops != [] {
      StepBooks(limits, w, ops[0]);
      RunBooks(limits, Step(limits, w, ops[0]), ops[1..]);
    }
  }

  /** Admission undone: giving a slot back restores both windows, but for what expired meanwhile.
      Time may pass in between and others may poll, wait and leave, as long as no other slot is
      taken, corrected or given back. */
  lemma GiveBackUndoesAdmission(limits: Limits, w: World, id: nat, tokens: nat, ops: seq<Op>)
    requires Books(limits, w) && id !in w.admitted
    requires Acquire(limits, w.server, id, tokens).1 == Admitted
    requires var w1 := Step(limits, w, Poll(id, tokens));
             After(limits, w1, ops).slots == w1.slots
    ensures var w2 := After(limits, Step(limits, w, Poll(id, tokens)), ops);
            var w' := Step(limits, w2, GiveBack(id));
            && w.server.now - limits.window <= w2.cut
            && w'.slots == w.slots
            && w'.server.tpm == Drop(w.server.tpm, w2.cut) && w'.server.rpm == Drop(w.server.rpm, w2.cut)
  {
    var w1 := Step(limits, w, Poll(id, tokens));
    AfterAdmission(limits, w, id, tokens);
    RunBooks(limits, w1, ops);
    GiveBackLast(limits, w, After(limits, w1, ops), Entry(w.server.now, id, tokens));
  }

  lemma WindowsFromLedger(limits: Limits, w: World, c: int)
    requires Books(limits, w) && w.cut <= c
    ensures Drop(w.server.tpm, c) == Drop(w.slots, c) && Drop(w.server.rpm, c) == Strip(Drop(w.slots, c))
  {
    DropTwice(w.slots, w.cut, c);
    StripDrop(Drop(w.slots, w.cut), c);
  }
}
