/** Moving a group's tables between devices, and what a round trip restores. */
module V1Swap {
  import opened KVState
  import opened V1State

  /** The blocks that the listed sequences use. */
  ghost function BlocksOf(tables: map<int, Table>, ids: seq<int>): set<Ref> {
    set i, j | 0 <= i < |ids| && ids[i] in tables && 0 <= j < |tables[ids[i]]| :: tables[ids[i]][j]
  }

  ghost predicate OnDevice(tables: map<int, Table>, ids: seq<int>, device: Device) {
    forall i :: 0 <= i < |ids| ==> ids[i] in tables && forall r :: r in tables[ids[i]] ==> r.device == device
  }

  /** The listed sequences up to the first one without a table. */
  ghost function Leading(tables: map<int, Table>, ids: seq<int>): (r: seq<int>)
    ensures |r| <= |ids| && r == ids[..|r|] && (forall i :: 0 <= i < |r| ==> ids[i] in tables)
    ensures |r| < |ids| ==> ids[|r|] !in tables
  {
    if ids == [] || ids[0] !in tables then [] else [ids[0]] + Leading(tables, ids[1..])
  }

  /** Those of the listed sequences that have tables have them on one device. */
  ghost predicate TablesOn(tables: map<int, Table>, ids: seq<int>, device: Device) {
    forall i, r :: 0 <= i < |ids| && ids[i] in tables && r in tables[ids[i]] ==> r.device == device
  }

  /** No two blocks are mapped to the same block. */
  ghost predicate Injective(mu: map<nat, nat>) {
    forall a, b :: a in mu && b in mu && mu[a] == mu[b] ==> a == b
  }

  ghost predicate MappedTable(mu: map<nat, nat>, src: Device, dst: Device, before: Table, now: Table) {
    && |now| == |before|
    && forall i :: 0 <= i < |before| ==>
         before[i].device == src && before[i].number in mu && now[i] == Ref(dst, mu[before[i].number])
  }

  /**
   The listed tables moved from src to dst through an injective mapping of exactly their
   blocks, onto blocks that were free; the other tables are untouched.
   */
  ghost predicate Transferred(s: Blocks, t: Blocks, ids: seq<int>, src: Device, dst: Device, mu: map<nat, nat>) {
    && Invariant(t) && Injective(mu)
    && t.tables.Keys == s.tables.Keys
    && (forall id :: id in s.tables && id !in ids ==> t.tables[id] == s.tables[id])
    && (forall id :: id in s.tables && id in ids ==> MappedTable(mu, src, dst, s.tables[id], t.tables[id]))
    && (forall b :: b in mu <==> Ref(src, b) in BlocksOf(s.tables, ids))
    && (forall b :: b in mu ==> Known(s, Ref(dst, mu[b])) && Refs(s, Ref(dst, mu[b])) == 0)
    && |PoolOn(t, GPU).refs| == |PoolOn(s, GPU).refs| && |PoolOn(t, CPU).refs| == |PoolOn(s, CPU).refs|
    && |PoolOn(s, dst).free| == |PoolOn(t, dst).free| + |mu|
  }

  ghost function Through(mu: map<nat, nat>, nu: map<nat, nat>): map<nat, nat> {
    map b | b in mu && mu[b] in nu :: nu[mu[b]]
  }

  lemma BlockIn(tables: map<int, Table>, ids: seq<int>, id: int, i: nat)
    requires id in ids && id in tables && i < |tables[id]|
    ensures tables[id][i] in BlocksOf(tables, ids)
  {
    var k :| 0 <= k < |ids| && ids[k] == id;
    assert tables[ids[k]][i] in BlocksOf(tables, ids);
  }

  lemma BlockFrom(tables: map<int, Table>, ids: seq<int>, r: Ref) returns (id: int, i: nat)
    requires r in BlocksOf(tables, ids)
    ensures id in ids && id in tables && i < |tables[id]| && tables[id][i] == r
  {
    var k, j :| 0 <= k < |ids| && ids[k] in tables && 0 <= j < |tables[ids[k]]| && tables[ids[k]][j] == r;
    id, i := ids[k], j;
  }

  // ---------------------------------------------------------------- the round trip

  /** Both mappings composed: a one-to-one renaming of the group's GPU blocks. */
  lemma ComposedMapping(s: Blocks, t: Blocks, u: Blocks, ids: seq<int>, mu: map<nat, nat>, nu: map<nat, nat>)
    requires Transferred(s, t, ids, GPU, CPU, mu) && Transferred(t, u, ids, CPU, GPU, nu)
    ensures Injective(Through(mu, nu))
    ensures forall b :: b in mu ==> mu[b] in nu && b in Through(mu, nu)
    ensures forall id :: id in s.tables && id in ids ==> MappedTable(Through(mu, nu), GPU, GPU, s.tables[id], u.tables[id])
  {
    hide Invariant;
    forall b | b in mu ensures mu[b] in nu {
      var id, i := BlockFrom(s.tables, ids, Ref(GPU, b));
      BlockIn(t.tables, ids, id, i);
      assert MappedTable(mu, GPU, CPU, s.tables[id], t.tables[id]);
    }
    forall id | id in s.tables && id in ids ensures MappedTable(Through(mu, nu), GPU, GPU, s.tables[id], u.tables[id]) {
      assert MappedTable(mu, GPU, CPU, s.tables[id], t.tables[id]) && MappedTable(nu, CPU, GPU, t.tables[id], u.tables[id]);
    }
  }

  /** Every sequence that uses a block of the group belongs to the group. */
  ghost predicate OnlySharedWithin(tables: map<int, Table>, ids: seq<int>) {
    forall id, r :: id in tables && r in tables[id] && r in BlocksOf(tables, ids) ==> id in ids
  }

  /** The holders of a renamed block are the group's holders of the block. */
  lemma RenamedHolders(s: Blocks, t: Blocks, u: Blocks, ids: seq<int>, mu: map<nat, nat>, nu: map<nat, nat>, b: nat)
    requires Invariant(s) && Transferred(s, t, ids, GPU, CPU, mu) && Transferred(t, u, ids, CPU, GPU, nu)
    requires b in mu && mu[b] in nu && OnDevice(s.tables, ids, GPU)
    ensures HoldersOf(u.tables, Ref(GPU, nu[mu[b]])) == set id | id in HoldersOf(s.tables, Ref(GPU, b)) && id in ids
  {
    hide Transferred, Invariant;
    forall id { RenamedHolder(s, t, u, ids, mu, nu, b, id); }
  }

  lemma RenamedHolder(s: Blocks, t: Blocks, u: Blocks, ids: seq<int>, mu: map<nat, nat>, nu: map<nat, nat>, b: nat, id: int)
    requires Invariant(s) && Transferred(s, t, ids, GPU, CPU, mu) && Transferred(t, u, ids, CPU, GPU, nu)
    requires b in mu && mu[b] in nu
    ensures id in HoldersOf(u.tables, Ref(GPU, nu[mu[b]])) <==> id in HoldersOf(s.tables, Ref(GPU, b)) && id in ids
  {
    hide Transferred, Invariant, MappedTable, Injective;
    ComposedMapping(s, t, u, ids, mu, nu);
    SameKeys(s, t, u, ids, mu, nu);
    var both := Through(mu, nu);
    assert both[b] == nu[mu[b]];
    if id in s.tables && id in ids {
      RenamedInTable(both, s.tables[id], u.tables[id], b);
    } else if id in s.tables {
      NotHeldOutside(t, u, ids, nu, mu[b], id);
    }
  }

  lemma RenamedInTable(both: map<nat, nat>, before: Table, now: Table, b: nat)
    requires MappedTable(both, GPU, GPU, before, now) && Injective(both) && b in both
    ensures Ref(GPU, both[b]) in now <==> Ref(GPU, b) in before
  {
    if Ref(GPU, b) in before {
      var i :| 0 <= i < |before| && before[i] == Ref(GPU, b);
      assert now[i] == Ref(GPU, both[b]);
    }
    if Ref(GPU, both[b]) in now {
      var i :| 0 <= i < |now| && now[i] == Ref(GPU, both[b]);
      assert both[before[i].number] == both[b] && before[i].number == b;
      assert before[i] == Ref(GPU, b);
    }
  }

  /** A sequence outside the group does not use a block that was free when the group took it. */
  lemma NotHeldOutside(t: Blocks, u: Blocks, ids: seq<int>, nu: map<nat, nat>, x: nat, id: int)
    requires Invariant(t) && Transferred(t, u, ids, CPU, GPU, nu) && x in nu && id in t.tables && id !in ids
    ensures Ref(GPU, nu[x]) !in u.tables[id]
  {
    hide Consistent, MappedTable, Injective;
    UnreferencedIsNowhere(t, multiset{}, Ref(GPU, nu[x]), id);
  }

  /**
   Swapping out and back in renames the group's blocks one to one: the tables have the
   same shape and share the same entries, whatever other sequences do.
   */
  lemma RoundTripTables(s: Blocks, t: Blocks, u: Blocks, ids: seq<int>, mu: map<nat, nat>, nu: map<nat, nat>, id: int, id': int)
    requires Transferred(s, t, ids, GPU, CPU, mu) && Transferred(t, u, ids, CPU, GPU, nu)
    requires id in ids && id' in ids && id in s.tables && id' in s.tables
    ensures |u.tables[id]| == |s.tables[id]| && |u.tables[id']| == |s.tables[id']|
    ensures forall i, j :: 0 <= i < |s.tables[id]| && 0 <= j < |s.tables[id']| ==>
              (u.tables[id][i] == u.tables[id'][j] <==> s.tables[id][i] == s.tables[id'][j])
  {
    hide Transferred;
    ComposedMapping(s, t, u, ids, mu, nu);
    SameKeys(s, t, u, ids, mu, nu);
    var both := Through(mu, nu);
    assert MappedTable(both, GPU, GPU, s.tables[id], u.tables[id]) && MappedTable(both, GPU, GPU, s.tables[id'], u.tables[id']);
  }

  lemma SameKeys(s: Blocks, t: Blocks, u: Blocks, ids: seq<int>, mu: map<nat, nat>, nu: map<nat, nat>)
    requires Transferred(s, t, ids, GPU, CPU, mu) && Transferred(t, u, ids, CPU, GPU, nu)
    ensures u.tables.Keys == s.tables.Keys == t.tables.Keys && Invariant(t) && Invariant(u)
    ensures |u.cpu.refs| == |s.cpu.refs| == |t.cpu.refs| && |u.gpu.refs| == |s.gpu.refs| == |t.gpu.refs|
  {
    hide Invariant;
  }

  /** Every renamed block has the reference count of its original, exactly when only the group used the group's blocks. */
  ghost predicate CountsRestored(s: Blocks, u: Blocks, both: map<nat, nat>) {
    forall b :: b in both ==> Refs(u, Ref(GPU, both[b])) == Refs(s, Ref(GPU, b))
  }

  lemma RoundTripCounts(s: Blocks, t: Blocks, u: Blocks, ids: seq<int>, mu: map<nat, nat>, nu: map<nat, nat>)
    requires Invariant(s) && OnDevice(s.tables, ids, GPU)
    requires Transferred(s, t, ids, GPU, CPU, mu) && Transferred(t, u, ids, CPU, GPU, nu)
    ensures CountsRestored(s, u, Through(mu, nu)) <==> OnlySharedWithin(s.tables, ids)
  {
    ComposedMapping(s, t, u, ids, mu, nu);
    SameKeys(s, t, u, ids, mu, nu);
    hide MappedTable, Injective;
    var both := Through(mu, nu);
    forall b | b in both ensures Refs(u, Ref(GPU, both[b])) == Refs(s, Ref(GPU, b)) <==> SharersIn(s, ids, b) {
      CountOfOne(s, t, u, ids, mu, nu, b);
    }
    MappedAre(s, t, ids, mu);
    hide Transferred, Refs, HoldersOf;
    SharedWithin(s, ids, both);
  }

  lemma MappedAre(s: Blocks, t: Blocks, ids: seq<int>, mu: map<nat, nat>)
    requires Transferred(s, t, ids, GPU, CPU, mu)
    ensures forall b :: b in mu <==> Ref(GPU, b) in BlocksOf(s.tables, ids)
  {
    hide Invariant, MappedTable, Injective;
  }

  ghost predicate SharersIn(s: Blocks, ids: seq<int>, b: nat) {
    forall id :: id in HoldersOf(s.tables, Ref(GPU, b)) ==> id in ids
  }

  lemma SharedWithin(s: Blocks, ids: seq<int>, both: map<nat, nat>)
    requires OnDevice(s.tables, ids, GPU) && forall b :: b in both <==> Ref(GPU, b) in BlocksOf(s.tables, ids)
    ensures OnlySharedWithin(s.tables, ids) <==> forall b :: b in both ==> SharersIn(s, ids, b)
  {
    if forall b :: b in both ==> SharersIn(s, ids, b) {
      forall id, r | id in s.tables && r in s.tables[id] && r in BlocksOf(s.tables, ids) ensures id in ids {
        var k, j := BlockFrom(s.tables, ids, r);
        assert r == Ref(GPU, r.number);
        assert SharersIn(s, ids, r.number) && id in HoldersOf(s.tables, r);
      }
    }
    if OnlySharedWithin(s.tables, ids) {
      forall b | b in both ensures SharersIn(s, ids, b) {}
    }
  }

  lemma CountOfOne(s: Blocks, t: Blocks, u: Blocks, ids: seq<int>, mu: map<nat, nat>, nu: map<nat, nat>, b: nat)
    requires Invariant(s) && OnDevice(s.tables, ids, GPU)
    requires Transferred(s, t, ids, GPU, CPU, mu) && Transferred(t, u, ids, CPU, GPU, nu)
    requires b in mu && mu[b] in nu
    ensures Refs(u, Ref(GPU, nu[mu[b]])) == Refs(s, Ref(GPU, b)) <==> SharersIn(s, ids, b)
  {
    hide Transferred, Invariant, HoldersOf, Refs;
    RenamedHolders(s, t, u, ids, mu, nu, b);
    KnownBlock(s, ids, b, t, mu);
    KnownTarget(t, u, ids, nu, mu[b]);
    FilteredSize(HoldersOf(s.tables, Ref(GPU, b)), ids);
  }

  /** Dropping the outsiders keeps the size exactly when there are none. */
  lemma FilteredSize(all: set<int>, ids: seq<int>)
    ensures |set id | id in all && id in ids| == |all| <==> forall id :: id in all ==> id in ids
  {
    var within := set id | id in all && id in ids;
    if forall id :: id in all ==> id in ids {
      assert all == within;
    } else {
      var id :| id in all && id !in ids;
      assert within <= all - {id};
      SubsetSize(within, all - {id});
    }
  }

  lemma KnownBlock(s: Blocks, ids: seq<int>, b: nat, t: Blocks, mu: map<nat, nat>)
    requires Invariant(s) && Transferred(s, t, ids, GPU, CPU, mu) && b in mu
    ensures Known(s, Ref(GPU, b)) && Refs(s, Ref(GPU, b)) == |HoldersOf(s.tables, Ref(GPU, b))|
  {
    hide MappedTable, Injective;
    var id, i := BlockFrom(s.tables, ids, Ref(GPU, b));
    HeldIsReferenced(s, multiset{}, id, i);
  }

  lemma KnownTarget(t: Blocks, u: Blocks, ids: seq<int>, nu: map<nat, nat>, x: nat)
    requires Transferred(t, u, ids, CPU, GPU, nu) && x in nu
    ensures Known(u, Ref(GPU, nu[x])) && Refs(u, Ref(GPU, nu[x])) == |HoldersOf(u.tables, Ref(GPU, nu[x]))|
  {
    hide MappedTable, Injective, PoolOk;
  }

  /** The CPU side is as before: the same counts, and the same free blocks up to order. */
  lemma RoundTripCpu(s: Blocks, t: Blocks, u: Blocks, ids: seq<int>, mu: map<nat, nat>, nu: map<nat, nat>)
    requires Invariant(s) && OnDevice(s.tables, ids, GPU)
    requires Transferred(s, t, ids, GPU, CPU, mu) && Transferred(t, u, ids, CPU, GPU, nu)
    ensures u.cpu.refs == s.cpu.refs && multiset(u.cpu.free) == multiset(s.cpu.free)
  {
    SameKeys(s, t, u, ids, mu, nu);
    ComposedMapping(s, t, u, ids, mu, nu);
    forall x | 0 <= x < |s.cpu.refs| ensures u.cpu.refs[x] == s.cpu.refs[x] {
      SameCpuHolders(s, t, u, ids, mu, nu, x);
      assert Known(s, Ref(CPU, x)) && Known(u, Ref(CPU, x));
      assert Refs(s, Ref(CPU, x)) == s.cpu.refs[x] && Refs(u, Ref(CPU, x)) == u.cpu.refs[x];
    }
    hide Transferred, AllTablesOk, Balanced, MappedTable, Injective;
    SameMembersSameMultiset(u.cpu.free, s.cpu.free);
  }

  lemma SameCpuHolders(s: Blocks, t: Blocks, u: Blocks, ids: seq<int>, mu: map<nat, nat>, nu: map<nat, nat>, x: nat)
    requires Transferred(s, t, ids, GPU, CPU, mu) && Transferred(t, u, ids, CPU, GPU, nu) && OnDevice(s.tables, ids, GPU)
    ensures HoldersOf(u.tables, Ref(CPU, x)) == HoldersOf(s.tables, Ref(CPU, x))
  {
    ComposedMapping(s, t, u, ids, mu, nu);
    hide Invariant, Injective;
    forall id ensures id in HoldersOf(u.tables, Ref(CPU, x)) <==> id in HoldersOf(s.tables, Ref(CPU, x)) {
      if id in s.tables && id in ids {
        assert MappedTable(Through(mu, nu), GPU, GPU, s.tables[id], u.tables[id]);
        assert Ref(CPU, x) !in u.tables[id] && Ref(CPU, x) !in s.tables[id];
      }
    }
  }
}
