/** The shared table of resource leases and what it reserves.

    A task lease reserves `base + headroom`; a stage lease borrows its parent's headroom, so
    only the part of a task's stages that exceeds its headroom costs anything extra. Stages
    whose parent is gone are charged in full. */
module LeaseTable {
  import opened FiniteSums
  import opened Numbers

  /** Lease ids are opaque and distinct; their order stands for Redis' byte order. */
  type Token = nat

  datatype Kind = OiWasm | OiNative | Ai | Compile | Run

  /** What a caller asks for: `try_task` and `try_resize_task` send a pool, `stage` a phase. */
  datatype Demand =
    | Task(pool: Pool, base: nat, headroom: nat)
    | Stage(phase: Phase, parent: Token, memory: nat)
  {
    function Kind(): Kind {
      match this
      case Task(pool, _, _) => (match pool case WasmPool => OiWasm case NativePool => OiNative case AiPool => Ai)
      case Stage(phase, _, _) => if phase == Compiling then Compile else Run
    }
  }
  datatype Pool = WasmPool | NativePool | AiPool
  datatype Phase = Compiling | Running

  datatype Lease = Lease(demand: Demand, expires: int)
  type Table = map<Token, Lease>

  datatype Capacities = Capacities(
    wasmTasks: nat, nativeTasks: nat, aiTasks: nat, wasmCompile: nat, wasmRun: nat, memory: nat)
  {
    function Limit(kind: Kind): nat {
      match kind
      case OiWasm => wasmTasks
      case OiNative => nativeTasks
      case Ai => aiTasks
      case Compile => wasmCompile
      case Run => wasmRun
    }
  }

  /** The leases that have not expired. */
  function Live(table: Table, now: int): Table {
    map t | t in table && table[t].expires > now :: table[t]
  }

  predicate IsTask(table: Table, t: Token) {
    t in table && table[t].demand.Task?
  }

  /** The task a lease is charged to: itself, or the parent it borrows from. */
  function Owner(table: Table, t: Token): Token
    requires t in table
  {
    match table[t].demand
    case Task(_, _, _) => t
    case Stage(_, parent, _) => parent
  }

  ghost function ChildTerm(table: Table, owner: Token): Token -> nat {
    t => if t in table && table[t].demand.Stage? && table[t].demand.parent == owner
         then table[t].demand.memory else 0
  }

  /** The memory of all stages charged to `owner`. */
  ghost function ChildMemory(table: Table, owner: Token): nat {
    Sum(table.Keys, ChildTerm(table, owner))
  }

  ghost function GroupTerm(table: Table): Token -> nat {
    g => GroupCost(table, g)
  }

  ghost function GroupCost(table: Table, g: Token): nat {
    if IsTask(table, g)
    then table[g].demand.base + Max(table[g].demand.headroom, ChildMemory(table, g))
    else ChildMemory(table, g)
  }

  function Owners(table: Table): set<Token> {
    set t | t in table :: Owner(table, t)
  }

  /** Total memory reserved by a table of leases. */
  ghost function Reserved(table: Table): nat {
    Sum(Owners(table), GroupTerm(table))
  }

  ghost function TaskTerm(table: Table): Token -> nat {
    g => if IsTask(table, g) then GroupCost(table, g) else 0
  }

  ghost function OrphanTerm(table: Table): Token -> nat {
    g => if IsTask(table, g) then 0 else ChildMemory(table, g)
  }

  /** What tasks reserve, their stages included. */
  ghost function TaskReserved(table: Table): nat {
    Sum(Owners(table), TaskTerm(table))
  }

  /** What stages reserve whose task is gone. */
  ghost function OrphanReserved(table: Table): nat {
    Sum(Owners(table), OrphanTerm(table))
  }

  lemma ReservedSplits(table: Table)
    ensures Reserved(table) == TaskReserved(table) + OrphanReserved(table)
  {
    SumPlus(Owners(table), TaskTerm(table), OrphanTerm(table), GroupTerm(table));
  }

  function OfKind(table: Table, kind: Kind): set<Token> {
    set t | t in table && table[t].demand.Kind() == kind
  }

  /** The admission test: the memory budget and every per-kind limit. */
  ghost predicate Fits(table: Table, cap: Capacities) {
    && Reserved(table) <= cap.memory
    && forall kind :: |OfKind(table, kind)| <= cap.Limit(kind)
  }

  /** `a` is `b` with leases removed or bases lowered. */
  predicate Lighter(a: Table, b: Table) {
    forall t :: t in a ==> t in b && LighterDemand(a[t].demand, b[t].demand)
  }

  predicate LighterDemand(a: Demand, b: Demand) {
    match a
    case Task(pool, base, headroom) => b.Task? && pool == b.pool && base <= b.base && headroom == b.headroom
    case Stage(_, _, _) => a == b
  }

  lemma ChildMemoryLighter(a: Table, b: Table, g: Token)
    requires Lighter(a, b)
    ensures ChildMemory(a, g) <= ChildMemory(b, g)
  {
    SumLeq(a.Keys, ChildTerm(a, g), b.Keys, ChildTerm(b, g));
  }

  /** Removing leases never raises the total, not even removing a task whose stages stay:
      what its stages then cost as orphans is at most what the task cost. */
  lemma LighterReserves(a: Table, b: Table)
    requires Lighter(a, b)
    ensures Reserved(a) <= Reserved(b)
  {
    assert Owners(a) <= Owners(b) by {
      forall g | g in Owners(a) ensures g in Owners(b) {
        var t :| t in a && Owner(a, t) == g;
        assert t in b && Owner(b, t) == g;
      }
    }
    forall g | g in Owners(a) ensures GroupTerm(a)(g) <= GroupTerm(b)(g) {
      ChildMemoryLighter(a, b, g);
    }
    SumLeq(Owners(a), GroupTerm(a), Owners(b), GroupTerm(b));
  }

  lemma SubsetCardinality<T>(a: set<T>, b: set<T>)
    requires a <= b
    ensures |a| <= |b|
  {
    assert b == a + (b - a);
  }

  /** Admissibility survives expiry, release and shrinking. */
  lemma LighterFits(a: Table, b: Table, cap: Capacities)
    requires Lighter(a, b) && Fits(b, cap)
    ensures Fits(a, cap)
  {
    LighterReserves(a, b);
    forall kind ensures |OfKind(a, kind)| <= cap.Limit(kind) {
      assert OfKind(a, kind) <= OfKind(b, kind);
      SubsetCardinality(OfKind(a, kind), OfKind(b, kind));
    }
  }

  lemma ChildMemoryAfterInsert(table: Table, t: Token, lease: Lease, h: Token)
    requires t !in table
    ensures var table' := table[t := lease];
            ChildMemory(table', h) == ChildMemory(table, h) + ChildTerm(table', h)(t)
  {
    var table' := table[t := lease];
    assert table'.Keys == table.Keys + {t};
    SumAdd(table.Keys, ChildTerm(table', h), t);
    SumSame(table.Keys, ChildTerm(table, h), ChildTerm(table', h));
  }

  /** Inserting one lease changes the cost of its owner's group and of no other. */
  lemma ReservedAfterInsert(table: Table, t: Token, lease: Lease)
    requires t !in table
    ensures var table' := table[t := lease];
            var g := Owner(table', t);
            && Reserved(table') + GroupCost(table, g) == Reserved(table) + GroupCost(table', g)
            && ChildMemory(table', g)
               == ChildMemory(table, g) + (if lease.demand.Stage? then lease.demand.memory else 0)
  {
    var table' := table[t := lease];
    var g := Owner(table', t);
    ChildMemoryAfterInsert(table, t, lease, g);
    OwnersAfterInsert(table, t, lease);
    forall h | h != g ensures GroupTerm(table)(h) == GroupTerm(table')(h) {
      OtherGroupsUnchanged(table, t, lease, h);
    }
    SumReplace(Owners(table'), GroupTerm(table), GroupTerm(table'), g);
    if g !in Owners(table) {
      UnownedGroupIsFree(table, g);
      SumPadded(Owners(table), Owners(table'), GroupTerm(table));
    } else {
      assert Owners(table') == Owners(table);
    }
  }

  lemma OtherGroupsUnchanged(table: Table, t: Token, lease: Lease, h: Token)
    requires t !in table && h != Owner(table[t := lease], t)
    ensures GroupCost(table, h) == GroupCost(table[t := lease], h)
  {
    ChildMemoryAfterInsert(table, t, lease, h);
  }

  lemma OwnersAfterInsert(table: Table, t: Token, lease: Lease)
    requires t !in table
    ensures var table' := table[t := lease];
            Owners(table') == Owners(table) + {Owner(table', t)}
  {
    var table' := table[t := lease];
    forall g | g in Owners(table) ensures g in Owners(table') {
      var u :| u in table && Owner(table, u) == g;
      assert u in table' && Owner(table', u) == g;
    }
    assert t in table';
    forall g | g in Owners(table') ensures g in Owners(table) + {Owner(table', t)} {
      var u :| u in table' && Owner(table', u) == g;
      assert u != t ==> u in table && Owner(table, u) == g;
    }
  }

  /** A token that owns nothing costs nothing. */
  lemma UnownedGroupIsFree(table: Table, g: Token)
    requires g !in Owners(table)
    ensures GroupCost(table, g) == 0
  {
    assert IsTask(table, g) ==> Owner(table, g) in Owners(table);
    forall t | t in table.Keys ensures ChildTerm(table, g)(t) == 0 {
      assert Owner(table, t) in Owners(table);
    }
    SumPadded({}, table.Keys, ChildTerm(table, g));
  }

  /** A task's headroom is part of the total. */
  lemma TaskCostWithinReserved(table: Table, t: Token)
    requires IsTask(table, t)
    ensures GroupCost(table, t) <= Reserved(table)
  {
    assert Owner(table, t) == t;
    SumRemove(Owners(table), GroupTerm(table), t);
  }
}
