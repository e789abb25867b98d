/** The reserved memory that a worker's heartbeat reports, recomputed from the lease table. */
module Heartbeat {
  import opened FiniteSums
  import opened LeaseTable
  import opened Numbers
  import opened ResourceGroup

  /** The zero-sized lease a worker holds while it has no task yet. */
  predicate IsProbe(d: Demand) {
    d.Task? && d.base == 0 && d.headroom == 0
  }

  function ActiveOfKind(table: Table, kind: Kind): set<Token> {
    set t | t in table && table[t].demand.Kind() == kind && !IsProbe(table[t].demand)
  }

  ghost predicate Counted(table: Table, counts: map<Kind, nat>) {
    forall kind :: Get(counts, kind) == |ActiveOfKind(table, kind)|
  }

  lemma ActiveAfterInsert(table: Table, t: Token, lease: Lease, kind: Kind)
    requires t !in table
    ensures |ActiveOfKind(table[t := lease], kind)| == |ActiveOfKind(table, kind)|
              + (if lease.demand.Kind() == kind && !IsProbe(lease.demand) then 1 else 0)
  {
    var table' := table[t := lease];
    if lease.demand.Kind() == kind && !IsProbe(lease.demand) {
      assert ActiveOfKind(table', kind) == ActiveOfKind(table, kind) + {t};
    } else {
      assert ActiveOfKind(table', kind) == ActiveOfKind(table, kind);
    }
  }

  lemma CountedAfterInsert(table: Table, counts: map<Kind, nat>, t: Token, lease: Lease)
    requires t !in table && Counted(table, counts)
    ensures Counted(table[t := lease], if IsProbe(lease.demand) then counts else CountOne(counts, lease.demand))
  {
    var counts' := if IsProbe(lease.demand) then counts else CountOne(counts, lease.demand);
    forall kind ensures Get(counts', kind) == |ActiveOfKind(table[t := lease], kind)| {
      ActiveAfterInsert(table, t, lease, kind);
    }
  }

  /** The loop over `HGETALL` that fills the three maps from unexpired entries. */
  method Collect(leases: Table, now: int)
    returns (counts: map<Kind, nat>, parents: Table, children: map<Token, nat>)
    ensures Counted(Live(leases, now), counts)
    ensures ChildrenTallied(Live(leases, now), children) && OwnersTallied(Live(leases, now), parents, children)
  {
    counts, parents, children := map[], map[], map[];
    var todo := leases.Keys;
    ghost var done: Table := map[];
    NothingTallied();
    assert forall kind :: ActiveOfKind(map[], kind) == {};
    while todo != {}
      invariant todo <= leases.Keys
      invariant forall t :: t in done <==> t in leases && t !in todo && leases[t].expires > now
      invariant forall t :: t in done ==> done[t] == leases[t]
      invariant Counted(done, counts)
      invariant ChildrenTallied(done, children)
      invariant OwnersTallied(done, parents, children)
      decreases todo
    {
      var t :| t in todo;
      todo := todo - {t};
      var item := leases[t];
      if item.expires > now {
        CountedAfterInsert(done, counts, t, item);
        ChildrenAfterInsert(done, children, t, item);
        OwnersTalliedAfterInsert(done, parents, children, t, item);
        if !IsProbe(item.demand) {
          counts := CountOne(counts, item.demand);
        }
        if item.demand.Task? {
          parents := parents[t := item];
        } else {
          children := AddChild(children, item.demand);
        }
        done := done[t := item];
      }
    }
    assert done == Live(leases, now);
  }

  /** The reported figure and how it relates to the admission total: it leaves out exactly the
      stages whose task is gone. */
  method ReportReserved(leases: Table, now: int) returns (counts: map<Kind, nat>, reserved: nat)
    ensures var live := Live(leases, now);
            && Counted(live, counts)
            && reserved == TaskReserved(live)
            && reserved + OrphanReserved(live) == Reserved(live)
  {
    var parents, children;
    counts, parents, children := Collect(leases, now);
    reserved := TaskMemory(Live(leases, now), parents, children);
    ReservedSplits(Live(leases, now));
  }

  /** A stage whose task is gone. */
  predicate Orphaned(table: Table, t: Token) {
    t in table && table[t].demand.Stage? && !IsTask(table, table[t].demand.parent)
  }

  lemma OrphanIsCharged(live: Table, t: Token)
    requires Orphaned(live, t)
    ensures live[t].demand.memory <= OrphanReserved(live)
  {
    var p := live[t].demand.parent;
    assert p == Owner(live, t) && p in Owners(live);
    SumRemove(Owners(live), OrphanTerm(live), p);
    SumRemove(live.Keys, ChildTerm(live, p), t);
  }

  lemma FreeOrphansCostNothing(live: Table)
    requires forall t :: Orphaned(live, t) ==> live[t].demand.memory == 0
    ensures OrphanReserved(live) == 0
  {
    forall g | g in Owners(live) ensures OrphanTerm(live)(g) == 0 {
      if !IsTask(live, g) {
        forall t | t in live.Keys ensures ChildTerm(live, g)(t) == 0 {
          assert live[t].demand.Stage? && live[t].demand.parent == g ==> Orphaned(live, t);
        }
        SumPadded({}, live.Keys, ChildTerm(live, g));
      }
    }
    SumPadded({}, Owners(live), OrphanTerm(live));
  }

  /** The report equals the admission total exactly when no orphaned stage holds memory. */
  lemma ReportIsExactIff(live: Table)
    ensures TaskReserved(live) == Reserved(live)
       <==> forall t :: Orphaned(live, t) ==> live[t].demand.memory == 0
  {
    ReservedSplits(live);
    if forall t :: Orphaned(live, t) ==> live[t].demand.memory == 0 {
      FreeOrphansCostNothing(live);
    } else {
      var t :| Orphaned(live, t) && live[t].demand.memory != 0;
      OrphanIsCharged(live, t);
    }
  }
}
