/**
 Programs against the conventional manager and the hash-indexed allocator, from empty
 ones, that end on the failing side of a condition proved about them.
 */
module V1Witnesses {
  import opened Results
  import opened KVState
  import opened V1State
  import opened V1Swap
  import opened V1Stops
  import opened V1Spec
  import opened BlockManagerV1
  import C = CachedAllocator

  /** A sequence of n blocks that waits on its own, with the count of a group of numSeqs. */
  method Manager(gpuBlocks: nat, cpuBlocks: nat, n: nat, numSeqs: nat) returns (m: BlockSpaceManagerV1)
    requires n <= gpuBlocks
    ensures fresh(m) && fresh(m.gpuAllocator) && fresh(m.cpuAllocator) && m.gpuAllocator != m.cpuAllocator
    ensures m.Valid() <==> numSeqs == 1 || n == 0
    ensures m.blockTables.Keys == {0} && |m.blockTables[0]| == n
    ensures forall i :: 0 <= i < n ==> m.blockTables[0][i].device == GPU
    ensures m.gpuAllocator.numBlocks == gpuBlocks && m.cpuAllocator.numBlocks == cpuBlocks
    ensures |m.gpuAllocator.freeBlocks| == gpuBlocks - n && |m.cpuAllocator.freeBlocks| == cpuBlocks
  {
    hide Invariant;
    m := new BlockSpaceManagerV1(gpuBlocks, cpuBlocks, 0);
    ghost var s := m.M();
    var r := m.Allocate([0], numSeqs, n);
    AllocateKeepsInvariant(s, m.M(), [0], numSeqs, n);
    SizesKept(s, m.M(), [0], numSeqs, n);
  }

  lemma SizesKept(s: Blocks, t: Blocks, waiting: seq<int>, numSeqs: nat, n: nat)
    requires Allocated(s, t, waiting, numSeqs, n)
    ensures |t.gpu.refs| == |s.gpu.refs| && t.cpu == s.cpu && |t.gpu.free| == |s.gpu.free| - n
  {
  }

  /** A group with a sibling that is not waiting, as after a recomputation: the block is counted for both. */
  method SiblingCounted() returns (m: BlockSpaceManagerV1)
    ensures fresh(m) && m.blockTables.Keys == {0} && !m.Valid()
  {
    m := Manager(1, 0, 1, 2);
  }

  /** A prompt that does not fit takes the block there is. */
  method ExhaustedAllocation() returns (m: BlockSpaceManagerV1, r: Result<()>)
    ensures fresh(m) && r == Err(ValueError) && m.blockTables == map[] && m.gpuAllocator.freeBlocks == [] && !m.Valid()
  {
    m := new BlockSpaceManagerV1(1, 0, 0);
    r := m.Allocate([0], 1, 2);
  }

  /** A fork onto a sequence that has a block of its own forgets that block. */
  method ForkOntoHolder() returns (m: BlockSpaceManagerV1, r: Result<()>)
    ensures fresh(m) && r.Ok? && !m.Valid()
  {
    hide Invariant;
    m := Manager(2, 0, 1, 1);
    ghost var s := m.M();
    var second := m.Allocate([1], 1, 1);
    AllocateKeepsInvariant(s, m.M(), [1], 1, 1);
    SizesKept(s, m.M(), [1], 1, 1);
    r := m.Fork(0, 1);
  }

  /** Only one of two sharers goes out and comes back: the block's count is not restored. */
  method OneSharerOutAndIn() returns (m: BlockSpaceManagerV1, out: Result<map<nat, nat>>, back: Result<map<nat, nat>>, ghost s: Blocks)
    ensures fresh(m) && m.Valid() && out.Ok? && back.Ok?
    ensures !CountsRestored(s, m.M(), Through(out.value, back.value))
  {
    hide Invariant, Transferred, CountsRestored, Swapped, OnlySharedWithin, Stopped, BlocksOf;
    m := Manager(2, 1, 1, 1);
    var r := m.Fork(0, 1);
    s := m.M();
    OneBlock(s.tables, [0]);
    AllLeading(s.tables);
    ghost var mu, nu;
    out, mu := m.SwapOut([0]);
    ghost var t := m.M();
    WentOut(s, t, out, mu);
    OneIsFree(t);
    back, nu := m.SwapIn([0]);
    CameBack(s, t, m.M(), back, mu, nu);
    SharedOutside(s.tables);
    RoundTripCounts(s, t, m.M(), [0], mu, nu);
  }

  lemma AllLeading(tables: map<int, Table>)
    requires 0 in tables
    ensures Leading(tables, [0]) == [0]
  {
  }

  lemma OneBlock(tables: map<int, Table>, ids: seq<int>)
    requires ids == [0] && 0 in tables && |tables[0]| == 1
    ensures BlocksOf(tables, ids) == {tables[0][0]} && |BlocksOf(tables, ids)| == 1
  {
    BlockIn(tables, ids, 0, 0);
    forall r | r in BlocksOf(tables, ids) ensures r == tables[0][0] { var id, i := BlockFrom(tables, ids, r); }
    hide BlocksOf;
    assert BlocksOf(tables, ids) == {tables[0][0]};
  }

  lemma SharedOutside(tables: map<int, Table>)
    requires 0 in tables && 1 in tables && tables[1] == tables[0] && |tables[0]| == 1
    ensures !OnlySharedWithin(tables, [0])
  {
    OneBlock(tables, [0]);
    hide BlocksOf;
    assert tables[1][0] in tables[1];
  }

  lemma WentOut(s: Blocks, t: Blocks, out: Result<map<nat, nat>>, mu: map<nat, nat>)
    requires Swapped(s, t, [0], GPU, CPU, out, mu) && Leading(s.tables, [0]) == [0] && |BlocksOf(s.tables, [0])| <= |s.cpu.free|
    requires 0 in s.tables && |s.tables[0]| == 1
    ensures out.Ok? && Transferred(s, t, [0], GPU, CPU, mu) && 0 in t.tables && |t.tables[0]| == 1
    ensures TablesOn(t.tables, [0], CPU) && Invariant(t) && |t.gpu.refs| == |s.gpu.refs| && t.tables.Keys == s.tables.Keys
    ensures 1 in s.tables ==> t.tables[1] == s.tables[1]
  {
    hide Invariant, BlocksOf, Injective;
    assert MappedTable(mu, GPU, CPU, s.tables[0], t.tables[0]);
  }

  /** One of two GPU blocks is in no table. */
  lemma OneIsFree(t: Blocks)
    requires Invariant(t) && |t.gpu.refs| == 2 && t.tables.Keys == {0, 1} && |t.tables[1]| == 1 && TablesOn(t.tables, [0], CPU)
    ensures |t.gpu.free| >= 1
  {
    hide AllTablesOk;
    var b: nat := if t.tables[1][0] == Ref(GPU, 0) then 1 else 0;
    assert [0][0] == 0;
    assert HoldersOf(t.tables, Ref(GPU, b)) == {};
    assert Known(t, Ref(GPU, b)) && Refs(t, Ref(GPU, b)) == 0;
    assert b in t.gpu.free;
  }

  lemma CameBack(s: Blocks, t: Blocks, u: Blocks, back: Result<map<nat, nat>>, mu: map<nat, nat>, nu: map<nat, nat>)
    requires Swapped(t, u, [0], CPU, GPU, back, nu) && 0 in t.tables && |t.tables[0]| == 1 && |t.gpu.free| >= 1
    ensures back.Ok? && Transferred(t, u, [0], CPU, GPU, nu)
  {
    hide Invariant, Transferred, Stopped;
    AllLeading(t.tables);
    OneBlock(t.tables, [0]);
  }

  /** A table of two blocks does not fit a device of one: its first block has moved, the table has not. */
  method SwapStopsInside() returns (m: BlockSpaceManagerV1, r: Result<map<nat, nat>>)
    ensures fresh(m) && r == Err(ValueError) && !m.Valid()
  {
    hide Invariant, Transferred, Stopped, BlocksOf, RunsOutBetween;
    m := Manager(2, 1, 2, 1);
    ghost var s := m.M();
    TwoBlocks(s);
    AllLeading(s.tables);
    ghost var mu;
    r, mu := m.SwapOut([0]);
    StoppedKeepsInvariant(s, m.M(), [0], GPU, CPU);
  }

  lemma TwoBlocks(s: Blocks)
    requires Invariant(s) && 0 in s.tables && |s.tables[0]| == 2 && |s.cpu.free| == 1
    ensures |BlocksOf(s.tables, [0])| == 2 && !RunsOutBetween(s, [0], CPU)
  {
    hide PoolOk, Balanced;
    assert TableOk(s, s.tables[0]);
    var a, b := s.tables[0][0], s.tables[0][1];
    BlockIn(s.tables, [0], 0, 0);
    BlockIn(s.tables, [0], 0, 1);
    forall r | r in BlocksOf(s.tables, [0]) ensures r == a || r == b { var id, i := BlockFrom(s.tables, [0], r); }
    assert BlocksOf(s.tables, [0]) == {a, b};
    assert a != b;
    assert BlocksOf(s.tables, [0][..0]) == {};
  }

  /** The hash of an unreferenced block is changed before the exception. */
  method HashOfFreeBlock() returns (m: C.CachedBlockAllocator, r: Result<()>)
    ensures fresh(m) && r == Err(KeyError) && !m.Valid()
  {
    hide C.PoolOk, C.Created, C.Retired;
    m := new C.CachedBlockAllocator(1);
    var a := m.Allocate(Some(7), 0);
    ghost var p := m.P();
    CreatedHolds(C.Pool([], map[], [], map[]), p);
    var freed := m.Free(a.value);
    RetiredHolds(p, m.P(), a.value);
    r := m.UpdateHash(8, a.value);
  }

  lemma CreatedHolds(p: C.Pool, q: C.Pool)
    requires p == C.Pool([], map[], [], map[]) && C.Created(p, q, 7, 0)
    ensures |q.blocks| == 1 && q.blocks[0].refCount == 1 && q.blocks[0].blockHash == 7
    ensures q.cached == map[7 := 0] && q.free == map[]
  {
  }

  lemma RetiredHolds(p: C.Pool, q: C.Pool, b: nat)
    requires b < |p.blocks| && p.blocks[b].blockHash == 7 && p.cached == map[7 := 0] && p.free == map[] && C.Retired(p, q, b)
    ensures b < |q.blocks| && q.blocks[b].refCount == 0 && !C.Held(q, 8)
  {
  }
}
