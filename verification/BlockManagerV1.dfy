/** The conventional block manager: two uncached allocators and one block table per sequence. */
module BlockManagerV1 {
  import opened Results
  import opened KVState
  import opened V1State
  import opened V1Swap
  import opened V1Moves
  import opened V1Stops
  import opened V1Spec

  class UncachedBlockAllocator {
    const numBlocks: nat
    var freeBlocks: seq<nat>
    var refCounts: seq<nat>

    ghost function P(): Pool
      reads this
    {
      Pool(freeBlocks, refCounts)
    }

    constructor (n: nat)
      ensures numBlocks == n && Good(P()) && |refCounts| == n && |freeBlocks| == n
      ensures forall b :: 0 <= b < n ==> refCounts[b] == 0
    {
      numBlocks := n;
      freeBlocks := seq<nat>(n, i => i);
      refCounts := seq<nat>(n, i => 0);
      new;
      forall b | 0 <= b < n ensures b in freeBlocks { assert freeBlocks[b] == b; }
    }

    method Allocate() returns (r: Result<nat>)
      requires Good(P())
      modifies this
      ensures r.Ok? <==> old(freeBlocks) != []
      ensures r.Err? ==> r.error == ValueError && P() == old(P())
      ensures r.Ok? ==> r.value < |old(refCounts)| && old(freeBlocks) == [r.value] + freeBlocks
      ensures r.Ok? ==> refCounts == old(refCounts)[r.value := 1] && P() == Take(old(P()))
    {
      if freeBlocks == [] {
        return Err(ValueError);
      }
      TakeGood(P());
      var b := freeBlocks[0];
      freeBlocks := freeBlocks[1..];
      refCounts := refCounts[b := 1];
      return Ok(b);
    }

    /** One more reference, as sharing sequences take it. */
    method AddReference(b: nat)
      requires b < |refCounts|
      modifies this`refCounts
      ensures P() == Retain(old(P()), b)
    {
      refCounts := refCounts[b := refCounts[b] + 1];
    }

    method SetReferences(b: nat, n: nat)
      requires b < |refCounts|
      modifies this`refCounts
      ensures refCounts == old(refCounts)[b := n]
    {
      refCounts := refCounts[b := n];
    }

    method Free(b: nat) returns (r: Result<()>)
      requires b < |refCounts|
      modifies this
      ensures r.Ok? <==> old(refCounts[b]) > 0
      ensures r.Err? ==> r.error == ValueError && P() == old(P())
      ensures r.Ok? ==> P() == Release(old(P()), b)
      ensures r.Ok? ==> freeBlocks == old(freeBlocks) + (if old(refCounts[b]) == 1 then [b] else [])
                        && refCounts == old(refCounts)[b := old(refCounts[b]) - 1]
    {
      if refCounts[b] == 0 {
        return Err(ValueError);
      }
      refCounts := refCounts[b := refCounts[b] - 1];
      if refCounts[b] == 0 {
        freeBlocks := freeBlocks + [b];
      }
      return Ok(());
    }
  }

  class BlockSpaceManagerV1 {
    const gpuAllocator: UncachedBlockAllocator
    const cpuAllocator: UncachedBlockAllocator
    const watermarkBlocks: nat
    var blockTables: map<int, Table>

    ghost function M(): Blocks
      reads this, gpuAllocator, cpuAllocator
    {
      Blocks(gpuAllocator.P(), cpuAllocator.P(), blockTables)
    }

    ghost predicate Valid()
      reads this, gpuAllocator, cpuAllocator
    {
      && gpuAllocator != cpuAllocator && Invariant(M())
      && |gpuAllocator.refCounts| == gpuAllocator.numBlocks && |cpuAllocator.refCounts| == cpuAllocator.numBlocks
    }

    constructor (gpuBlocks: nat, cpuBlocks: nat, watermark: nat)
      ensures Valid() && blockTables == map[] && watermarkBlocks == watermark
      ensures gpuAllocator.numBlocks == gpuBlocks && cpuAllocator.numBlocks == cpuBlocks
      ensures |gpuAllocator.freeBlocks| == gpuBlocks && |cpuAllocator.freeBlocks| == cpuBlocks
      ensures fresh(gpuAllocator) && fresh(cpuAllocator)
    {
      gpuAllocator := new UncachedBlockAllocator(gpuBlocks);
      cpuAllocator := new UncachedBlockAllocator(cpuBlocks);
      watermarkBlocks := watermark;
      blockTables := map[];
      new;
      EmptyIsConsistent(M());
    }

    function On(device: Device): UncachedBlockAllocator {
      match device
      case GPU => gpuAllocator
      case CPU => cpuAllocator
    }

    // -------------------------------------------------------------- allocation

    /** One table for the prompt, given to every waiting sequence. */
    method Allocate(waiting: seq<int>, numSeqs: nat, promptBlocks: nat) returns (r: Result<()>)
      requires Valid()
      modifies this, gpuAllocator
      ensures waiting == [] ==> r == Err(IndexError) && M() == old(M())
      ensures waiting != [] ==> (r.Ok? <==> old(|gpuAllocator.freeBlocks|) >= promptBlocks)
      ensures r.Ok? ==> Allocated(old(M()), M(), waiting, numSeqs, promptBlocks)
      ensures r.Err? && waiting != [] ==> r.error == ValueError
      ensures r.Err? ==> blockTables == old(blockTables) && cpuAllocator.P() == old(cpuAllocator.P())
      ensures r == Err(ValueError) ==> gpuAllocator.freeBlocks == [] && AllCounted(old(gpuAllocator.P()), gpuAllocator.P(), numSeqs)
      ensures r == Err(ValueError) ==> (Valid() <==> old(gpuAllocator.freeBlocks) == [])
    {
      if waiting == [] {
        return Err(IndexError);
      }
      ghost var s := M();
      hide Consistent;
      var table: Table := [];
      PoolsGood(s);
      for i := 0 to promptBlocks
        invariant i <= |s.gpu.free| && table == FirstBlocks(s.gpu, i) && gpuAllocator.freeBlocks == s.gpu.free[i..]
        invariant blockTables == s.tables && cpuAllocator.P() == s.cpu
        invariant |gpuAllocator.refCounts| == |s.gpu.refs|
        invariant forall b :: 0 <= b < |s.gpu.refs| ==>
                    gpuAllocator.refCounts[b] == if b in s.gpu.free[..i] then numSeqs else s.gpu.refs[b]
      {
        var taken := TakeCounted(numSeqs, s, i);
        if taken.Err? {
          assert s.gpu.free[..i] == s.gpu.free;
          FailedAllocation(s, M(), numSeqs);
          return Err(taken.error);
        }
        table := table + [Ref(GPU, taken.value)];
      }
      for i := 0 to |waiting|
        invariant gpuAllocator.freeBlocks == s.gpu.free[promptBlocks..] && cpuAllocator.P() == s.cpu
        invariant |gpuAllocator.refCounts| == |s.gpu.refs|
        invariant forall b :: 0 <= b < |s.gpu.refs| ==>
                    gpuAllocator.refCounts[b] == if b in s.gpu.free[..promptBlocks] then numSeqs else s.gpu.refs[b]
        invariant blockTables.Keys == s.tables.Keys + (set id | id in waiting[..i])
        invariant forall id :: id in s.tables && id !in waiting[..i] ==> blockTables[id] == s.tables[id]
        invariant forall id :: id in waiting[..i] ==> id in blockTables && blockTables[id] == table
      {
        assert waiting[..i + 1] == waiting[..i] + [waiting[i]];
        blockTables := blockTables[waiting[i] := table];
      }
      assert waiting[..|waiting|] == waiting;
      return Ok(());
    }

    /** The next free block, with the count of the whole group. */
    method TakeCounted(numSeqs: nat, ghost s: Blocks, ghost i: nat) returns (r: Result<nat>)
      requires Good(s.gpu) && i <= |s.gpu.free| && gpuAllocator.freeBlocks == s.gpu.free[i..]
      requires |gpuAllocator.refCounts| == |s.gpu.refs|
      requires forall b :: 0 <= b < |s.gpu.refs| ==>
                 gpuAllocator.refCounts[b] == if b in s.gpu.free[..i] then numSeqs else s.gpu.refs[b]
      modifies gpuAllocator
      ensures r.Ok? <==> i < |s.gpu.free|
      ensures r.Err? ==> r.error == ValueError && gpuAllocator.P() == old(gpuAllocator.P())
      ensures r.Ok? ==> r.value == s.gpu.free[i] && gpuAllocator.freeBlocks == s.gpu.free[i + 1..] && |gpuAllocator.refCounts| == |s.gpu.refs|
      ensures r.Ok? ==> forall b :: 0 <= b < |s.gpu.refs| ==>
                          gpuAllocator.refCounts[b] == if b in s.gpu.free[..i + 1] then numSeqs else s.gpu.refs[b]
    {
      if gpuAllocator.freeBlocks == [] {
        return Err(ValueError);
      }
      var b := gpuAllocator.freeBlocks[0];
      assert b == s.gpu.free[i] && b in s.gpu.free;
      assert s.gpu.free[..i + 1] == s.gpu.free[..i] + [b];
      gpuAllocator.freeBlocks := gpuAllocator.freeBlocks[1..];
      gpuAllocator.refCounts := gpuAllocator.refCounts[b := 1];
      gpuAllocator.SetReferences(b, numSeqs);
      return Ok(b);
    }

    // -------------------------------------------------------------- append

    method CanAppendSlots(numRunning: nat) returns (can: bool)
      ensures can <==> numRunning <= |gpuAllocator.freeBlocks|
    {
      can := numRunning <= |gpuAllocator.freeBlocks|;
    }

    /** A slot for a new token; returns the block copy to perform first, if any. */
    method AppendSlots(id: int, logicalBlocks: nat) returns (r: Result<seq<(nat, nat)>>)
      requires Valid()
      modifies this, gpuAllocator
      ensures Valid()
      ensures r.Ok? <==> CanAppend(old(M()), id, logicalBlocks)
      ensures r.Ok? ==> Appended(old(M()), M(), id, logicalBlocks, r.value)
      ensures r.Err? ==> M() == old(M())
      ensures r.Err? ==> r.error == AppendError(old(M()), id, logicalBlocks)
      ensures r == Err(ValueError) ==> old(gpuAllocator.freeBlocks) == []
    {
      ghost var s := M();
      hide Consistent;
      PoolsGood(s);
      if id !in blockTables {
        return Err(KeyError);
      }
      var table := blockTables[id];
      if |table| < logicalBlocks {
        if |table| != logicalBlocks - 1 {
          return Err(AssertionError);
        }
        var a := gpuAllocator.Allocate();
        if a.Err? {
          return Err(a.error);
        }
        GrowKeepsInvariant(s, id);
        blockTables := blockTables[id := table + [Ref(GPU, a.value)]];
        return Ok([]);
      }
      if table == [] {
        return Err(IndexError);
      }
      var last := table[|table| - 1];
      if last.device != GPU {
        return Err(AssertionError);
      }
      HeldIsReferenced(s, multiset{}, id, |table| - 1);
      if gpuAllocator.refCounts[last.number] == 1 {
        return Ok([]);
      }
      var a := gpuAllocator.Allocate();
      if a.Err? {
        return Err(a.error);
      }
      CopyKeepsInvariant(s, id);
      blockTables := blockTables[id := table[|table| - 1 := Ref(GPU, a.value)]];
      var _ := gpuAllocator.Free(last.number);
      return Ok([(last.number, a.value)]);
    }

    // -------------------------------------------------------------- fork and free

    /** The child shares every block of the parent; no block is allocated. */
    method Fork(parent: int, child: int) returns (r: Result<()>)
      requires Valid()
      modifies this, gpuAllocator, cpuAllocator
      ensures r.Ok? ==> (Valid() <==> child !in old(blockTables) || old(blockTables)[child] == [])
      ensures r.Ok? <==> parent in old(blockTables)
      ensures r.Ok? ==> blockTables == old(blockTables)[child := old(blockTables)[parent]]
                        && gpuAllocator.freeBlocks == old(gpuAllocator.freeBlocks) && cpuAllocator.freeBlocks == old(cpuAllocator.freeBlocks)
      ensures r.Err? ==> r.error == KeyError && M() == old(M())
    {
      if parent !in blockTables {
        return Err(KeyError);
      }
      ghost var s := M();
      hide Consistent;
      var table := blockTables[parent];
      TableFacts(s, parent);
      assert multiset{} + multiset(table[..0]) == multiset{};
      for i := 0 to |table|
        invariant blockTables == s.tables && gpuAllocator.freeBlocks == s.gpu.free && cpuAllocator.freeBlocks == s.cpu.free
        invariant |gpuAllocator.refCounts| == |s.gpu.refs| && |cpuAllocator.refCounts| == |s.cpu.refs|
        invariant Consistent(M(), multiset{} + multiset(table[..i]))
      {
        HeldIsReferenced(M(), multiset{} + multiset(table[..i]), parent, i);
        RetainStep(M(), multiset{} + multiset(table[..i]), table[i]);
        assert table[..i + 1] == table[..i] + [table[i]];
        assert multiset{} + multiset(table[..i]) + multiset{table[i]} == multiset{} + multiset(table[..i + 1]);
        ghost var v := M();
        On(table[i].device).AddReference(table[i].number);
        assert M() == WithPool(v, table[i].device, Retain(PoolOn(v, table[i].device), table[i].number));
      }
      assert table[..|table|] == table;
      assert TableOk(M(), table);
      ForkKeepsInvariant(s, M(), parent, child);
      blockTables := blockTables[child := table];
      return Ok(());
    }

    /** Forgets a sequence; unknown sequences are ignored. */
    method Free(id: int)
      requires Valid()
      modifies this, gpuAllocator, cpuAllocator
      ensures Valid() && blockTables == old(blockTables) - {id}
      ensures |gpuAllocator.freeBlocks| >= old(|gpuAllocator.freeBlocks|) && |cpuAllocator.freeBlocks| >= old(|cpuAllocator.freeBlocks|)
    {
      if id !in blockTables {
        return;
      }
      ghost var s := M();
      hide Consistent;
      var table := blockTables[id];
      TableFacts(s, id);
      LeaveStep(s, multiset{}, id);
      blockTables := blockTables - {id};
      assert table[0..] == table;
      for i := 0 to |table|
        invariant blockTables == s.tables - {id}
        invariant |gpuAllocator.refCounts| == |s.gpu.refs| && |cpuAllocator.refCounts| == |s.cpu.refs|
        invariant |gpuAllocator.freeBlocks| >= |s.gpu.free| && |cpuAllocator.freeBlocks| >= |s.cpu.free|
        invariant Consistent(M(), multiset{} + multiset(table[i..]))
      {
        assert table[i..] == [table[i]] + table[i + 1..];
        assert multiset{} + multiset(table[i..]) == multiset{} + multiset(table[i + 1..]) + multiset{table[i]};
        assert Known(M(), table[i]);
        ReleaseStep(M(), multiset{} + multiset(table[i + 1..]), table[i]);
        ghost var v := M();
        var _ := On(table[i].device).Free(table[i].number);
        assert M() == WithPool(v, table[i].device, Release(PoolOn(v, table[i].device), table[i].number));
      }
      assert table[|table|..] == [];
      assert multiset{} + multiset(table[|table|..]) == multiset{};
    }

    // -------------------------------------------------------------- swapping

    /** The distinct blocks of the listed sequences. */
    method GetPhysicalBlocks(ids: seq<int>) returns (r: Result<set<Ref>>)
      ensures r.Ok? <==> forall i :: 0 <= i < |ids| ==> ids[i] in blockTables
      ensures r.Ok? ==> r.value == BlocksOf(blockTables, ids)
      ensures r.Err? ==> r.error == KeyError
    {
      var blocks: set<Ref> := {};
      NoBlocks(blockTables, ids);
      for i := 0 to |ids|
        invariant forall k :: 0 <= k < i ==> ids[k] in blockTables
        invariant blocks == BlocksOf(blockTables, ids[..i])
      {
        if ids[i] !in blockTables {
          return Err(KeyError);
        }
        BlocksSnoc(blockTables, ids, i);
        blocks := blocks + (set r | r in blockTables[ids[i]]);
      }
      assert ids[..|ids|] == ids;
      return Ok(blocks);
    }

    /** Asks for the group's blocks and one more per swapped sequence, above the watermark. */
    method CanSwapIn(unfinished: seq<int>, numSwapped: nat) returns (r: Result<AllocStatus>)
      ensures r.Ok? <==> forall i :: 0 <= i < |unfinished| ==> unfinished[i] in blockTables
      ensures r.Ok? ==> var required := |BlocksOf(blockTables, unfinished)| + numSwapped;
                        && (r.value == NEVER <==> gpuAllocator.numBlocks < required)
                        && (r.value == OK <==> gpuAllocator.numBlocks >= required
                                               && |gpuAllocator.freeBlocks| - required >= watermarkBlocks)
    {
      var blocks := GetPhysicalBlocks(unfinished);
      if blocks.Err? {
        return Err(blocks.error);
      }
      var required := |blocks.value| + numSwapped;
      if gpuAllocator.numBlocks < required {
        return Ok(NEVER);
      } else if |gpuAllocator.freeBlocks| - required >= watermarkBlocks {
        return Ok(OK);
      } else {
        return Ok(LATER);
      }
    }

    method CanSwapOut(unfinished: seq<int>) returns (r: Result<bool>)
      ensures r.Ok? <==> forall i :: 0 <= i < |unfinished| ==> unfinished[i] in blockTables
      ensures r.Ok? ==> (r.value <==> |BlocksOf(blockTables, unfinished)| <= |cpuAllocator.freeBlocks|)
    {
      var blocks := GetPhysicalBlocks(unfinished);
      if blocks.Err? {
        return Err(blocks.error);
      }
      return Ok(|blocks.value| <= |cpuAllocator.freeBlocks|);
    }

    /** Moves the swapped sequences' tables to the GPU; shared blocks stay shared. */
    method SwapIn(swapped: seq<int>) returns (r: Result<map<nat, nat>>, ghost mu: map<nat, nat>)
      requires Valid() && NoDup(swapped) && TablesOn(blockTables, swapped, CPU)
      modifies this, gpuAllocator, cpuAllocator
      ensures Swapped(old(M()), M(), swapped, CPU, GPU, r, mu)
      ensures r.Ok? ==> Valid() && r.value == mu
    {
      r, mu := MoveTables(swapped, CPU, GPU);
    }

    /** Moves the running sequences' tables to the CPU; shared blocks stay shared. */
    method SwapOut(running: seq<int>) returns (r: Result<map<nat, nat>>, ghost mu: map<nat, nat>)
      requires Valid() && NoDup(running) && TablesOn(blockTables, running, GPU)
      modifies this, gpuAllocator, cpuAllocator
      ensures Swapped(old(M()), M(), running, GPU, CPU, r, mu)
      ensures r.Ok? ==> Valid() && r.value == mu
    {
      r, mu := MoveTables(running, GPU, CPU);
    }

    /** The loop that both directions share: one table after the other, one mapping for all. */
    method MoveTables(ids: seq<int>, src: Device, dst: Device) returns (r: Result<map<nat, nat>>, ghost mu: map<nat, nat>)
      requires Valid() && NoDup(ids) && TablesOn(blockTables, ids, src) && src != dst
      modifies this, gpuAllocator, cpuAllocator
      ensures Swapped(old(M()), M(), ids, src, dst, r, mu)
      ensures r.Ok? ==> Valid() && r.value == mu
    {
      ghost var s := M();
      ghost var known := Leading(s.tables, ids);
      LeadingOnDevice(s.tables, ids, src);
      hide Consistent, Moving, MovedUpTo, HalfMoved, BlocksOf, OnDevice, Transferred, StoppedAt, NoDup, Leading, TablesOn, Swapped;
      mu := map[];
      ghost var i, v, m;
      var mapping: map<nat, nat> := map[];
      NothingMoving(s, known, src, dst);
      for n := 0 to |ids|
        invariant n <= |known| && Consistent(M(), multiset{}) && Moving(s, M(), known, src, dst, mapping)
        invariant MovedUpTo(s, M(), known, n, src, dst, mapping, {})
        invariant blockTables.Keys == s.tables.Keys
      {
        if ids[n] !in blockTables {
          SwapEnds(s, M(), ids, src, dst, mapping, n);
          return Err(KeyError), mapping;
        }
        assert known[n] == ids[n];
        NextSequence(s, M(), known, n, src, dst, mapping);
        var moved;
        moved, i, v, m := MoveTable(ids[n], n, known, src, dst, mapping, s);
        if moved.Err? {
          SwapStops(s, M(), ids, src, dst, n, i, v, m);
          return Err(moved.error), mu;
        }
        mapping := moved.value;
        OneMoreMoved(s, M(), known, n, src, dst, mapping);
      }
      SwapEnds(s, M(), ids, src, dst, mapping, |ids|);
      return Ok(mapping), mapping;
    }

    /** One sequence's table, block by block; it is recorded when it is complete. */
    method MoveTable(id: int, ghost n: nat, ghost ids: seq<int>, src: Device, dst: Device, before: map<nat, nat>, ghost s: Blocks)
      returns (r: Result<map<nat, nat>>, ghost i: nat, ghost v: Blocks, ghost mu: map<nat, nat>)
      requires gpuAllocator != cpuAllocator && src != dst && OnDevice(s.tables, ids, src) && Invariant(s)
      requires n < |ids| && ids[n] == id && id in s.tables && id in blockTables && blockTables[id] == s.tables[id]
      requires blockTables.Keys == s.tables.Keys
      requires Consistent(M(), multiset{}) && Moving(s, M(), ids, src, dst, before) && id !in ids[..n]
      requires MovedUpTo(s, M(), ids, n, src, dst, before, {id}) && HalfMoved(before, src, dst, s.tables[id], blockTables[id], 0)
      modifies this, gpuAllocator, cpuAllocator
      ensures r.Ok? ==> Consistent(M(), multiset{}) && Moving(s, M(), ids, src, dst, r.value) && blockTables.Keys == s.tables.Keys
      ensures r.Ok? ==> MovedUpTo(s, M(), ids, n, src, dst, r.value, {id})
      ensures r.Ok? ==> id in blockTables && HalfMoved(r.value, src, dst, s.tables[id], blockTables[id], |s.tables[id]|)
      ensures r.Err? ==> r.error == ValueError && |BlocksOf(s.tables, ids)| > |PoolOn(s, dst).free|
      ensures r.Err? ==> StoppedAt(s, M(), ids, src, dst, n, i, v, mu)
    {
      hide Consistent, Moving, MovedUpTo, HalfMoved, BlocksOf, OnDevice;
      var table := blockTables[id];
      var newTable: Table := [];
      var mapping := before;
      v, i, mu := M(), 0, before;
      ExtendsSelf(before);
      for j := 0 to |table|
        invariant blockTables == old(blockTables) && |newTable| == j && id in v.tables && newTable + table[j..] == v.tables[id]
        invariant v.gpu == gpuAllocator.P() && v.cpu == cpuAllocator.P()
        invariant v.tables == blockTables[id := newTable + table[j..]]
        invariant Consistent(v, multiset{}) && Moving(s, v, ids, src, dst, mapping) && Extends(before, mapping)
        invariant HalfMoved(mapping, src, dst, s.tables[id], v.tables[id], j)
      {
        SourceDevice(s.tables, ids, src, id, j);
        BlockIn(s.tables, ids, id, j);
        ghost var v0, m0 := v, mapping;
        var step := MoveBlock(table[j].number, src, dst, mapping, id, j, ids, s, v);
        if step.Err? {
          i, mu := j, mapping;
          MovedKept(s, old(M()), v, ids, n, src, dst, before, mapping, id);
          assert v.(tables := v.tables[id := s.tables[id]]) == M();
          return Err(step.error), i, v, mu;
        }
        mapping := step.value.0;
        EntryReplaced(newTable, table, j, Ref(dst, step.value.1));
        newTable := newTable + [Ref(dst, step.value.1)];
        v := Blocks(gpuAllocator.P(), cpuAllocator.P(), v0.tables[id := v0.tables[id][j := Ref(dst, step.value.1)]]);
        ExtendsMore(before, m0, mapping);
      }
      assert newTable + table[|table|..] == newTable;
      ghost var m := M();
      blockTables := blockTables[id := newTable];
      assert M() == v;
      MovedKept(s, old(M()), v, ids, n, src, dst, before, mapping, id);
      return Ok(mapping), i, v, mu;
    }

    /** One entry: a block for it on the other device, new or shared, and one reference less on this one. */
    method MoveBlock(b: nat, src: Device, dst: Device, mapping: map<nat, nat>, ghost id: int, ghost i: nat, ghost ids: seq<int>,
                     ghost s: Blocks, ghost v: Blocks) returns (r: Result<(map<nat, nat>, nat)>)
      requires gpuAllocator != cpuAllocator && src != dst && OnDevice(s.tables, ids, src) && Invariant(s)
      requires id in ids && id in s.tables && i < |s.tables[id]| && s.tables[id][i] == Ref(src, b)
      requires Ref(src, b) in BlocksOf(s.tables, ids)
      requires v.gpu == gpuAllocator.P() && v.cpu == cpuAllocator.P() && id in v.tables
      requires Consistent(v, multiset{}) && Moving(s, v, ids, src, dst, mapping)
      requires HalfMoved(mapping, src, dst, s.tables[id], v.tables[id], i)
      modifies gpuAllocator, cpuAllocator
      ensures r.Ok? ==> i < |v.tables[id]| && Extends(mapping, r.value.0)
      ensures r.Ok? ==> var w := Blocks(gpuAllocator.P(), cpuAllocator.P(), v.tables[id := v.tables[id][i := Ref(dst, r.value.1)]]);
                        && Consistent(w, multiset{}) && Moving(s, w, ids, src, dst, r.value.0)
                        && HalfMoved(r.value.0, src, dst, s.tables[id], w.tables[id], i + 1)
      ensures r.Err? ==> r.error == ValueError && |BlocksOf(s.tables, ids)| > |PoolOn(s, dst).free|
      ensures r.Err? ==> v.gpu == gpuAllocator.P() && v.cpu == cpuAllocator.P() && PoolOn(v, dst).free == [] && b !in mapping
    {
      PoolsGood(v);
      EntryBefore(mapping, src, dst, s.tables[id], v.tables[id], i);
      TableFacts(s, id);
      hide Consistent, Moving, HalfMoved, BlocksOf, OnDevice;
      ghost var v1: Blocks;
      ghost var mu := mapping;
      ExtendsSelf(mapping);
      var d;
      if b in mapping {
        d := mapping[b];
        RetainedForOne(s, v, ids, src, dst, mapping, b);
        SharedNotThere(s, v, ids, src, dst, mapping, id, i);
        v1 := WithPool(v, dst, Retain(PoolOn(v, dst), d));
        On(dst).AddReference(d);
        r := Ok((mapping, d));
      } else {
        var a := On(dst).Allocate();
        if a.Err? {
          RanOut(s, v, ids, src, dst, mapping, b);
          return Err(a.error);
        }
        d := a.value;
        ExtendsOne(mapping, b, d);
        TakenForOne(s, v, ids, src, dst, mapping, b);
        UnreferencedIsNowhere(v, multiset{}, Ref(dst, d), id);
        v1 := WithPool(v, dst, Take(PoolOn(v, dst)));
        r := Ok((mapping[b := d], d));
      }
      assert v1 == Blocks(gpuAllocator.P(), cpuAllocator.P(), v.tables);
      KnownStays(v, v1, dst, d);
      Settle(v1, id, i, Ref(dst, d));
      MovedOne(s, v, v1, ids, src, dst, mu, r.value.0, id, i, d);
      var _ := On(src).Free(b);
      assert Blocks(gpuAllocator.P(), cpuAllocator.P(), v.tables[id := v.tables[id][i := Ref(dst, d)]])
          == Freed(Replaced(v1, id, i, Ref(dst, d)), Ref(src, b));
    }
  }

  // ---------------------------------------------------------------- lemmas for the loops above

  lemma EmptyIsConsistent(m: Blocks)
    requires Good(m.gpu) && Good(m.cpu) && m.tables == map[]
    requires forall r :: Known(m, r) ==> Refs(m, r) == 0
    ensures Invariant(m)
  {
    hide PoolOk;
    forall r ensures HoldersOf(m.tables, r) == {} {}
  }

  lemma PoolsGood(m: Blocks)
    requires Consistent(m, multiset{})
    ensures Good(m.gpu) && Good(m.cpu)
  {
  }

  lemma TableFacts(m: Blocks, id: int)
    requires Invariant(m) && id in m.tables
    ensures TableOk(m, m.tables[id])
  {
  }

  lemma NoBlocks(tables: map<int, Table>, ids: seq<int>)
    ensures BlocksOf(tables, ids[..0]) == {}
  {
  }

  lemma BlocksSnoc(tables: map<int, Table>, ids: seq<int>, i: nat)
    requires i < |ids| && ids[i] in tables
    ensures BlocksOf(tables, ids[..i + 1]) == BlocksOf(tables, ids[..i]) + set r | r in tables[ids[i]]
  {
    var all := ids[..i + 1];
    assert all == ids[..i] + [ids[i]];
    forall r ensures r in BlocksOf(tables, all) <==> r in BlocksOf(tables, ids[..i]) + set q | q in tables[ids[i]] {
      if r in BlocksOf(tables, ids[..i]) {
        var id, j := BlockFrom(tables, ids[..i], r);
        assert id in all;
        BlockIn(tables, all, id, j);
      }
      if r in tables[ids[i]] {
        var j :| 0 <= j < |tables[ids[i]]| && tables[ids[i]][j] == r;
        assert ids[i] in all;
        BlockIn(tables, all, ids[i], j);
      }
      if r in BlocksOf(tables, all) {
        var id, j := BlockFrom(tables, all, r);
        if id in ids[..i] { BlockIn(tables, ids[..i], id, j); }
      }
    }
  }

  lemma SwapEnds(s: Blocks, t: Blocks, ids: seq<int>, src: Device, dst: Device, mu: map<nat, nat>, n: nat)
    requires Consistent(t, multiset{}) && n <= |ids| && n <= |Leading(s.tables, ids)| && (n < |ids| ==> ids[n] !in s.tables)
    requires Moving(s, t, Leading(s.tables, ids), src, dst, mu) && MovedUpTo(s, t, Leading(s.tables, ids), n, src, dst, mu, {})
    requires OnDevice(s.tables, Leading(s.tables, ids), src)
    ensures Swapped(s, t, ids, src, dst, if n < |ids| then Err(KeyError) else Ok(mu), mu)
    ensures |t.gpu.refs| == |s.gpu.refs| && |t.cpu.refs| == |s.cpu.refs| && Invariant(t)
  {
    hide Consistent, Moving, MovedUpTo, BlocksOf, OnDevice, Transferred, Leading;
    assert n == |Leading(s.tables, ids)|;
    AllTransferred(s, t, Leading(s.tables, ids), src, dst, mu);
  }

  lemma SwapStops(s: Blocks, t: Blocks, ids: seq<int>, src: Device, dst: Device, n: nat, i: nat, v: Blocks, mu: map<nat, nat>)
    requires StoppedAt(s, t, Leading(s.tables, ids), src, dst, n, i, v, mu)
    requires |BlocksOf(s.tables, Leading(s.tables, ids))| > |PoolOn(s, dst).free|
    ensures forall m :: Swapped(s, t, ids, src, dst, Err(ValueError), m)
  {
    hide BlocksOf, Transferred, Leading, StoppedAt;
  }

  lemma LeadingOnDevice(tables: map<int, Table>, ids: seq<int>, src: Device)
    requires TablesOn(tables, ids, src) && NoDup(ids)
    ensures OnDevice(tables, Leading(tables, ids), src) && NoDup(Leading(tables, ids))
  {
  }

  lemma ExtendsSelf(mu: map<nat, nat>)
    ensures Extends(mu, mu)
  {
  }

  lemma ExtendsOne(mu: map<nat, nat>, b: nat, d: nat)
    requires b !in mu
    ensures Extends(mu, mu[b := d])
  {
  }

  lemma ExtendsMore(a: map<nat, nat>, b: map<nat, nat>, c: map<nat, nat>)
    requires Extends(a, b) && Extends(b, c)
    ensures Extends(a, c)
  {
  }

  lemma EntryReplaced(newTable: Table, table: Table, i: nat, d: Ref)
    requires |newTable| == i < |table|
    ensures (newTable + table[i..])[i := d] == newTable + [d] + table[i + 1..]
  {
  }

  lemma EntryBefore(mu: map<nat, nat>, src: Device, dst: Device, before: Table, now: Table, i: nat)
    requires HalfMoved(mu, src, dst, before, now, i) && i < |before|
    ensures |now| == |before| && now[i] == before[i]
  {
  }

  /** A block that is mapped already is not in this table yet. */
  lemma SharedNotThere(s: Blocks, v: Blocks, ids: seq<int>, src: Device, dst: Device, mu: map<nat, nat>, id: int, i: nat)
    requires Moving(s, v, ids, src, dst, mu) && src != dst && OnDevice(s.tables, ids, src) && id in ids && id in s.tables
    requires id in v.tables && i < |s.tables[id]| && TableOk(s, s.tables[id]) && s.tables[id][i].number in mu
    requires HalfMoved(mu, src, dst, s.tables[id], v.tables[id], i)
    ensures Ref(dst, mu[s.tables[id][i].number]) !in v.tables[id]
  {
    forall j | 0 <= j < |s.tables[id]| ensures s.tables[id][j].device == src { SourceDevice(s.tables, ids, src, id, j); }
    NotThereYet(mu, src, dst, s.tables[id], v.tables[id], i);
  }

  lemma KnownStays(v: Blocks, v1: Blocks, dst: Device, d: nat)
    requires Known(v, Ref(dst, d)) && |v1.gpu.refs| == |v.gpu.refs| && |v1.cpu.refs| == |v.cpu.refs|
    ensures Known(v1, Ref(dst, d))
  {
  }
}
