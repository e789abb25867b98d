/** The scripts themselves: loops over the stored tables, proved to perform the atomic steps
    of module Scheduler. */
module ResourceGroup {
  import opened FiniteSums
  import opened LeaseTable
  import opened Numbers
  import opened Scheduler

  ghost predicate UsedTallied(table: Table, used: map<Kind, nat>) {
    forall kind :: Get(used, kind) == |OfKind(table, kind)|
  }

  ghost predicate ChildrenTallied(table: Table, children: map<Token, nat>) {
    forall p :: Get(children, p) == ChildMemory(table, p)
  }

  ghost predicate OwnersTallied(table: Table, parents: Table, children: map<Token, nat>) {
    && Owners(table) == parents.Keys + children.Keys
    && parents == map t | t in table && IsTask(table, t) :: table[t]
  }

  function CountOne(used: map<Kind, nat>, d: Demand): map<Kind, nat> {
    used[d.Kind() := Get(used, d.Kind()) + 1]
  }

  function AddChild(children: map<Token, nat>, d: Demand): map<Token, nat> {
    if d.Task? then children else children[d.parent := Get(children, d.parent) + d.memory]
  }

  lemma UsedAfterInsert(table: Table, used: map<Kind, nat>, t: Token, lease: Lease)
    requires t !in table && UsedTallied(table, used)
    ensures UsedTallied(table[t := lease], CountOne(used, lease.demand))
  {
    forall kind ensures Get(CountOne(used, lease.demand), kind) == |OfKind(table[t := lease], kind)| {
      OfKindAfterInsert(table, t, lease, kind);
    }
  }

  lemma ChildrenAfterInsert(table: Table, children: map<Token, nat>, t: Token, lease: Lease)
    requires t !in table && ChildrenTallied(table, children)
    ensures ChildrenTallied(table[t := lease], AddChild(children, lease.demand))
  {
    forall p ensures Get(AddChild(children, lease.demand), p) == ChildMemory(table[t := lease], p) {
      ChildMemoryAfterInsert(table, t, lease, p);
    }
  }

  lemma OwnersTalliedAfterInsert(table: Table, parents: Table, children: map<Token, nat>, t: Token, lease: Lease)
    requires t !in table && OwnersTallied(table, parents, children)
    ensures OwnersTallied(table[t := lease], if lease.demand.Task? then parents[t := lease] else parents,
                          AddChild(children, lease.demand))
  {
    OwnersAfterInsert(table, t, lease);
  }

  lemma NothingTallied()
    ensures UsedTallied(map[], map[]) && ChildrenTallied(map[], map[]) && OwnersTallied(map[], map[], map[])
  {
    assert forall kind :: OfKind(map[], kind) == {};
  }

  /** The first loop over the entries: counts per kind, task leases, stage memory per parent. */
  method Tally(entries: Table) returns (used: map<Kind, nat>, parents: Table, children: map<Token, nat>)
    ensures UsedTallied(entries, used)
    ensures ChildrenTallied(entries, children) && OwnersTallied(entries, parents, children)
  {
    used, parents, children := map[], map[], map[];
    var todo := entries.Keys;
    ghost var done: Table := map[];
    NothingTallied();
    while todo != {}
      invariant todo <= entries.Keys && done.Keys == entries.Keys - todo
      invariant forall t :: t in done ==> done[t] == entries[t]
      invariant UsedTallied(done, used)
      invariant ChildrenTallied(done, children)
      invariant OwnersTallied(done, parents, children)
      decreases todo
    {
      var t :| t in todo;
      todo := todo - {t};
      var item := entries[t];
      UsedAfterInsert(done, used, t, item);
      ChildrenAfterInsert(done, children, t, item);
      OwnersTalliedAfterInsert(done, parents, children, t, item);
      used := CountOne(used, item.demand);
      if item.demand.Task? {
        parents := parents[t := item];
      } else {
        children := AddChild(children, item.demand);
      }
      done := done[t := item];
    }
    assert done == entries;
  }

  lemma TermsFromTally(entries: Table, parents: Table, children: map<Token, nat>, t: Token)
    requires ChildrenTallied(entries, children) && OwnersTallied(entries, parents, children)
    ensures TaskTerm(entries)(t)
         == if t in parents then parents[t].demand.base + Max(parents[t].demand.headroom, Get(children, t)) else 0
    ensures OrphanTerm(entries)(t) == if t in parents then 0 else Get(children, t)
  {
  }

  lemma TotalsFromTally(entries: Table, parents: Table, children: map<Token, nat>)
    requires ChildrenTallied(entries, children) && OwnersTallied(entries, parents, children)
    ensures TaskReserved(entries) == Sum(parents.Keys, TaskTerm(entries))
    ensures OrphanReserved(entries) == Sum(children.Keys, OrphanTerm(entries))
  {
    SumPadded(parents.Keys, Owners(entries), TaskTerm(entries));
    SumPadded(children.Keys, Owners(entries), OrphanTerm(entries));
  }

  /** The first summing loop: tasks together with their stages. */
  method TaskMemory(ghost entries: Table, parents: Table, children: map<Token, nat>) returns (memory: nat)
    requires ChildrenTallied(entries, children) && OwnersTallied(entries, parents, children)
    ensures memory == TaskReserved(entries)
  {
    memory := 0;
    ghost var cost := TaskTerm(entries);
    var todo := parents.Keys;
    while todo != {}
      invariant todo <= parents.Keys && memory + Sum(todo, cost) == Sum(parents.Keys, cost)
      decreases todo
    {
      var t :| t in todo;
      SumRemove(todo, cost, t);
      TermsFromTally(entries, parents, children, t);
      todo := todo - {t};
      memory := memory + parents[t].demand.base + Max(parents[t].demand.headroom, Get(children, t));
    }
    TotalsFromTally(entries, parents, children);
  }

  /** The second one: stages whose task is gone. */
  method OrphanMemory(ghost entries: Table, parents: Table, children: map<Token, nat>) returns (memory: nat)
    requires ChildrenTallied(entries, children) && OwnersTallied(entries, parents, children)
    ensures memory == OrphanReserved(entries)
  {
    memory := 0;
    ghost var cost := OrphanTerm(entries);
    var todo := children.Keys;
    while todo != {}
      invariant todo <= children.Keys && memory + Sum(todo, cost) == Sum(children.Keys, cost)
      decreases todo
    {
      var t :| t in todo;
      SumRemove(todo, cost, t);
      TermsFromTally(entries, parents, children, t);
      todo := todo - {t};
      if t !in parents {
        memory := memory + children[t];
      }
    }
    TotalsFromTally(entries, parents, children);
  }

  method WithinLimits(cap: Capacities, used: map<Kind, nat>) returns (ok: bool)
    ensures ok <==> forall kind :: Get(used, kind) <= cap.Limit(kind)
  {
    ok := true;
    var todo := used.Keys;
    while todo != {}
      invariant todo <= used.Keys
      invariant ok <==> forall kind :: kind !in todo ==> Get(used, kind) <= cap.Limit(kind)
      decreases todo
    {
      var kind :| kind in todo;
      todo := todo - {kind};
      if used[kind] > cap.Limit(kind) {
        ok := false;
      }
    }
  }

  /** `ZRANGE turns 0 0`. */
  method First(turns: map<Token, nat>) returns (first: Token)
    requires turns != map[]
    ensures IsFirst(turns, first)
  {
    first :| first in turns;
    var todo := turns.Keys - {first};
    while todo != {}
      invariant todo <= turns.Keys && first in turns && first !in todo
      invariant forall q :: q in turns && q !in todo && q != first ==> Before(turns, first, q)
      decreases todo
    {
      var q :| q in todo;
      todo := todo - {q};
      if Before(turns, q, first) {
        first := q;
      }
    }
  }

  lemma FirstIsUnique(turns: map<Token, nat>, p: Token, q: Token)
    requires IsFirst(turns, p) && IsFirst(turns, q)
    ensures p == q
  {
  }

  method Weigh(cap: Capacities, entries: Table) returns (permitted: bool, running: nat)
    ensures permitted <==> Fits(entries, cap)
    ensures running == |OfKind(entries, Run)|
  {
    var used, parents, children := Tally(entries);
    var tasks := TaskMemory(entries, parents, children);
    var orphans := OrphanMemory(entries, parents, children);
    ReservedSplits(entries);
    var memory := tasks + orphans;
    var limited := WithinLimits(cap, used);
    permitted, running := limited && memory <= cap.memory, Get(used, Run);
  }

  ghost function LiveTerm(rss: map<Token, Sample>, now: int): Token -> nat {
    w => if w in rss && rss[w].expires > now then rss[w].mb else 0
  }

  /** One iteration of a pruning loop: `k` goes if it is dead, and nothing else changes. */
  lemma PruneStep<K, V>(raw: map<K, V>, dead: set<K>, todo: set<K>, k: K)
    requires k in todo
    ensures raw - (dead - (todo - {k})) == if k in dead then raw - (dead - todo) - {k} else raw - (dead - todo)
  {
  }

  lemma WaitingAfterInsert(requests: map<Token, Request>, r: Token, request: Request)
    requires r !in requests
    ensures Waiting(requests[r := request]) == Waiting(requests) + {request.parent}
  {
    var requests' := requests[r := request];
    assert r in requests';
    forall p | p in Waiting(requests) ensures p in Waiting(requests') {
      var q :| q in requests && requests[q].parent == p;
      assert q in requests' && requests'[q].parent == p;
    }
  }

  lemma SurvivorsAreLive(rss: map<Token, Sample>, now: int, dead: set<Token>)
    requires forall w :: w in rss ==> (w in dead <==> rss[w].expires <= now)
    ensures rss - dead == LiveSamples(rss, now)
  {
  }

  lemma LiveTermTotals(rss: map<Token, Sample>, now: int)
    ensures Sum(rss.Keys, LiveTerm(rss, now)) == TotalRss(LiveSamples(rss, now))
  {
    var live := LiveSamples(rss, now);
    SumPadded(live.Keys, rss.Keys, LiveTerm(rss, now));
    SumSame(live.Keys, LiveTerm(rss, now), SampleTerm(live));
  }

  class Group {
    const cap: Capacities
    var now: int
    var leases: Table
    var requests: map<Token, Request>
    var turns: map<Token, nat>
    var sequence: nat
    var rss: map<Token, Sample>
    var leasesDie: int
    var requestsDie: int
    var turnsDie: int
    var sequenceDies: int

    ghost function View(): State
      reads this
    {
      State(now, leases, requests, turns, sequence, rss, leasesDie, requestsDie, turnsDie, sequenceDies)
    }

    constructor (cap: Capacities, start: int)
      ensures this.cap == cap && View() == Initial(start)
    {
      this.cap := cap;
      now, leases, requests, turns, sequence, rss := start, map[], map[], map[], 0, map[];
      leasesDie, requestsDie, turnsDie, sequenceDies := start, start, start, start;
    }

    method SampleRss() returns (actual: nat)
      modifies this`rss
      ensures rss == LiveSamples(old(rss), now) && actual == TotalRss(rss)
    {
      var raw := rss;
      var todo := raw.Keys;
      actual := 0;
      ghost var term := LiveTerm(raw, now);
      ghost var dead := set w | w in raw && raw[w].expires <= now;
      while todo != {}
        invariant todo <= raw.Keys && rss == raw - (dead - todo)
        invariant actual + Sum(todo, term) == Sum(raw.Keys, term)
        decreases todo
      {
        var w :| w in todo;
        PruneStep(raw, dead, todo, w);
        SumRemove(todo, term, w);
        todo := todo - {w};
        if raw[w].expires <= now {
          rss := rss - {w};
        } else {
          actual := actual + raw[w].mb;
        }
      }
      SurvivorsAreLive(raw, now, dead);
      LiveTermTotals(raw, now);
    }

    method PruneLeases() returns (entries: Table)
      modifies this`leases
      ensures entries == leases == Live(old(leases), now)
    {
      var raw := leases;
      var todo := raw.Keys;
      entries := map[];
      ghost var dead := set t | t in raw && raw[t].expires <= now;
      while todo != {}
        invariant todo <= raw.Keys && leases == raw - (dead - todo)
        invariant entries == leases - todo
        decreases todo
      {
        var t :| t in todo;
        PruneStep(raw, dead, todo, t);
        todo := todo - {t};
        if raw[t].expires <= now {
          leases := leases - {t};
        } else {
          entries := entries[t := raw[t]];
        }
      }
      assert raw - dead == Live(raw, now);
    }

    method PruneRequests(entries: Table) returns (waiting: set<Token>)
      modifies this`requests
      ensures requests == LiveRequests(old(requests), entries, now) && waiting == Waiting(requests)
    {
      var raw := requests;
      var todo := raw.Keys;
      waiting := {};
      ghost var dead := set r | r in raw && (raw[r].expires <= now || raw[r].parent !in entries);
      while todo != {}
        invariant todo <= raw.Keys && requests == raw - (dead - todo)
        invariant waiting == Waiting(requests - todo)
        decreases todo
      {
        var r :| r in todo;
        PruneStep(raw, dead, todo, r);
        ghost var seen := requests - todo;
        todo := todo - {r};
        if raw[r].expires <= now || raw[r].parent !in entries {
          requests := requests - {r};
          assert requests - todo == seen;
        } else {
          assert requests - todo == seen[r := raw[r]];
          WaitingAfterInsert(seen, r, raw[r]);
          waiting := waiting + {raw[r].parent};
        }
      }
      assert requests - todo == requests;
      assert raw - dead == LiveRequests(raw, entries, now);
    }

    method PruneTurns(waiting: set<Token>)
      modifies this`turns
      ensures turns == KeepTurns(old(turns), waiting)
    {
      var raw := turns;
      var todo := raw.Keys;
      ghost var dead := raw.Keys - waiting;
      while todo != {}
        invariant todo <= raw.Keys && turns == raw - (dead - todo)
        decreases todo
      {
        var p :| p in todo;
        PruneStep(raw, dead, todo, p);
        todo := todo - {p};
        if p !in waiting {
          turns := turns - {p};
        }
      }
      assert raw - dead == KeepTurns(raw, waiting);
    }

    /** The fairness block of `ACQUIRE`, up to reading the head of the turn set. */
    method EnqueueAttempt(id: Token, parent: Token, entries: Table) returns (first: Token)
      requires entries == leases
      modifies this`requests, this`requestsDie, this`turns, this`turnsDie
      ensures View() == Enqueue(old(View()), id, parent) && IsFirst(turns, first)
    {
      requests := requests[id := Request(parent, now + TTL)];
      requestsDie := now + 2 * TTL;
      var waiting := PruneRequests(entries);
      PruneTurns(waiting);
      if parent !in turns {
        turns := turns[parent := 0];
      }
      turnsDie := now + 2 * TTL;
      assert parent in turns;
      first := First(turns);
    }

    /** The part of `ACQUIRE` before the demand is weighed. */
    method PrepareAttempt(id: Token, d: Demand) returns (gate: Gate)
      modifies this
      ensures (View(), gate) == Prepare(cap, old(View()), id, d)
    {
      var actual := SampleRss();
      if actual > cap.memory {
        return Stop(Refused);
      }
      var entries := PruneLeases();
      if d.Stage? && d.parent !in entries {
        return Stop(ParentGone);
      }
      if !IsRun(d) {
        return Proceed;
      }
      var first := EnqueueAttempt(id, d.parent, entries);
      if first != d.parent {
        assert !IsFirst(turns, d.parent) by {
          if IsFirst(turns, d.parent) { FirstIsUnique(turns, first, d.parent); }
        }
        return Stop(Refused);
      }
      return Proceed;
    }

    /** The parent goes to the end of the rotation. */
    method TakeTurn(parent: Token)
      modifies this`sequence, this`sequenceDies, this`turns
      ensures sequence == old(sequence) + 1 && sequenceDies == now + 2 * TTL
      ensures turns == old(turns)[parent := sequence]
    {
      sequence := sequence + 1;
      sequenceDies := now + 2 * TTL;
      turns := turns[parent := sequence];
    }

    method StoreLease(id: Token, d: Demand, entries: Table)
      modifies this`requests, this`leases, this`leasesDie
      ensures View() == Store(old(View()), id, d, entries)
    {
      if IsRun(d) {
        requests := requests - {id};
      }
      leases := entries;
      leasesDie := now + 2 * TTL;
    }

    /** The rest of `ACQUIRE`: weigh the demand, rotate the turn, store the lease. */
    method DecideAttempt(id: Token, d: Demand) returns (outcome: Outcome)
      modifies this
      ensures (View(), outcome) == Decide(cap, old(View()), id, d)
    {
      var entries := leases[id := Lease(d, now + TTL)];
      var permitted, running := Weigh(cap, entries);
      if IsRun(d) && (permitted || running <= cap.wasmRun) {
        TakeTurn(d.parent);
      }
      assert View() == Rotate(cap, old(View()), entries, d);
      if !permitted {
        return Refused;
      }
      StoreLease(id, d, entries);
      return Granted;
    }

    /** The whole `ACQUIRE` script, as `try_demand_at` and `try_resize_task` run it. */
    method AcquireScript(id: Token, d: Demand) returns (outcome: Outcome)
      modifies this
      ensures (View(), outcome) == Acquire(cap, old(View()), id, d)
    {
      var gate := PrepareAttempt(id, d);
      if gate.Stop? {
        return gate.outcome;
      }
      outcome := DecideAttempt(id, d);
    }

    method ShrinkScript(id: Token, mb: nat) returns (found: bool)
      modifies this`leases
      ensures View() == Step(cap, old(View()), Shrink(id, mb))
      ensures found <==> id in old(leases)
    {
      found := id in leases;
      if found {
        var item := leases[id];
        leases := leases[id := item.(demand := Shrunk(item.demand, mb))];
      }
    }

    method RenewScript(id: Token) returns (renewed: bool)
      modifies this`leases, this`leasesDie
      ensures View() == Step(cap, old(View()), RenewLease(id))
      ensures renewed <==> id in Live(old(leases), now)
    {
      if id !in leases {
        return false;
      }
      var item := leases[id];
      if item.expires <= now {
        return false;
      }
      leases := leases[id := item.(expires := now + TTL)];
      leasesDie := now + 2 * TTL;
      return true;
    }

    /** Dropping a lease. */
    method ReleaseLease(id: Token)
      modifies this`leases
      ensures View() == Step(cap, old(View()), Release(id))
    {
      leases := leases - {id};
    }

    /** Dropping a waiting request. */
    method DropRequest(id: Token)
      modifies this`requests
      ensures View() == Step(cap, old(View()), ForgetRequest(id))
    {
      requests := requests - {id};
    }
  }
}
