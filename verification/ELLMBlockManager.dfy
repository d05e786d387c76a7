/** The layer-group-aware block manager: admission, allocation, appends, eviction ratio and CPU swapping. */
module ELLMBlockManager {
  import opened Arithmetic
  import opened Results
  import opened KVState
  import opened KVSpec
  import opened KVAppend
  import opened KVSharing
  import opened KVRecompute
  import opened KVPlans
  import opened TokenLayerCache
  import opened ELLMSwap
  import opened ELLMAdmission
  import opened ELLMSwapSteps

  /** What allocate asks of the store: whole sequences. */
  ghost function Requests(seqs: Group): seq<Request> {
    seq(|seqs|, i requires 0 <= i < |seqs| => Request(seqs[i].id, seqs[i].len, 0))
  }

  /** How many blocks of n the cached-layer setting evicts. */
  function EvictedBlocks(c: Config, n: nat, cachedLayers: nat): nat
    requires cachedLayers <= c.numLayers
  {
    var retained := CeilDiv(n * cachedLayers, c.numLayers);
    var atLeastOne := if retained < 1 then 1 else retained;
    if n < atLeastOne then 0 else n - atLeastOne
  }

  function ClampLayers(c: Config, cachedLayers: int): nat {
    if cachedLayers < 0 then 0 else if cachedLayers < c.numLayers then cachedLayers else c.numLayers
  }

  class ELLMBlockSpaceManager {
    const kv: TokenLayerKVMap
    const numCpuBlocks: nat
    const watermarkBlocks: nat
    var freeCpuBlocks: seq<seq<nat>>
    var swappedSequences: map<int, Swapped>

    ghost function M(): Manager
      reads this, kv
    {
      Manager(kv.S(), freeCpuBlocks, swappedSequences)
    }

    ghost predicate Valid()
      reads this, kv
    {
      ManagerInv(kv.cfg, numCpuBlocks, M())
    }

    constructor (c: Config, cpuBlocks: nat, watermark: nat)
      ensures Valid() && kv.cfg == c && numCpuBlocks == cpuBlocks && watermarkBlocks == watermark
      ensures NoCpuLeak(c, cpuBlocks, M()) && swappedSequences == map[] && kv.sequenceLengths == map[]
      ensures fresh(kv)
    {
      kv := new TokenLayerKVMap(c);
      numCpuBlocks, watermarkBlocks := cpuBlocks, watermark;
      freeCpuBlocks := seq(Groups(c), g => seq<nat>(cpuBlocks, i => i));
      swappedSequences := map[];
      new;
      hide Inv;
      forall g, b | 0 <= g < Groups(c) && 0 <= b < cpuBlocks ensures b in freeCpuBlocks[g] {
        assert freeCpuBlocks[g][b] == b;
      }
    }

    // -------------------------------------------------------------- allocation

    /** The sum of the sequences' block counts. */
    method RequiredBlocks(seqs: Group) returns (required: nat)
      ensures required == NeedSum(kv.cfg, Requests(seqs))
    {
      required := 0;
      for i := 0 to |seqs|
        invariant required == NeedSum(kv.cfg, Requests(seqs[..i]))
      {
        RequestsSnoc(seqs, i);
        WholeNeed(kv.cfg, seqs[i]);
        hide NumBlocks;
        NeedSnoc(kv.cfg, Requests(seqs[..i]), Request(seqs[i].id, seqs[i].len, 0));
        required := required + NumBlocks(kv.cfg, seqs[i].len);
      }
      assert seqs[..|seqs|] == seqs;
    }

    /** The smallest free count over the layer groups. */
    method MinFreeBlocks() returns (n: nat)
      requires Valid()
      ensures |kv.freeBlocks| == Groups(kv.cfg)
      ensures forall g :: 0 <= g < Groups(kv.cfg) ==> n <= |kv.freeBlocks[g]|
      ensures exists g :: 0 <= g < Groups(kv.cfg) && n == |kv.freeBlocks[g]|
    {
      hide Inv, Groups;
      InvPools(kv.cfg, kv.S());
      SomeGroup(kv.cfg);
      n := |kv.freeBlocks[0]|;
      for g := 1 to Groups(kv.cfg)
        invariant forall h :: 0 <= h < g ==> n <= |kv.freeBlocks[h]|
        invariant exists h :: 0 <= h < g && n == |kv.freeBlocks[h]|
      {
        if |kv.freeBlocks[g]| < n {
          n := |kv.freeBlocks[g]|;
        }
      }
    }

    method CanAllocate(group: Group) returns (status: AllocStatus)
      requires Valid()
      ensures var need := NeedSum(kv.cfg, Requests(GetSeqs(group, WAITING))) + watermarkBlocks;
              && |kv.freeBlocks| == Groups(kv.cfg)
              && (status == NEVER <==> need > kv.cfg.numBlocks)
              && (status == OK <==> need <= kv.cfg.numBlocks && forall g :: 0 <= g < Groups(kv.cfg) ==> need <= |kv.freeBlocks[g]|)
    {
      hide Inv, Groups, NeedSum, Requests;
      var required := RequiredBlocks(GetSeqs(group, WAITING));
      var minFree := MinFreeBlocks();
      if required + watermarkBlocks > kv.cfg.numBlocks {
        return NEVER;
      }
      if required + watermarkBlocks <= minFree {
        return OK;
      }
      return LATER;
    }

    /** Allocates every waiting sequence of a group, or none of them. */
    method Allocate(group: Group) returns (r: Result<()>, ghost run: seq<State>)
      requires Valid() && DistinctIds(group)
      modifies this, kv
      ensures Valid() && freeCpuBlocks == old(freeCpuBlocks) && swappedSequences == old(swappedSequences)
      ensures r.Ok? <==> AllocatableAll(kv.cfg, old(kv.S()), Requests(GetSeqs(group, WAITING)))
      ensures r.Ok? ==> |run| > 0 && AllocRun(kv.cfg, run, Requests(GetSeqs(group, WAITING)))
                        && run[0] == old(kv.S()) && run[|run| - 1] == kv.S()
      ensures r.Err? ==> Unchanged(old(kv.S()), kv.S())
    {
      hide Inv, AllocatableAll, AllocRun, Unchanged, CpuDisjoint, Requests;
      GetSeqsDistinct(group, WAITING);
      ghost var m := M();
      r, run := AllocateAll(GetSeqs(group, WAITING));
      CpuDisjointFrame(kv.cfg, numCpuBlocks, m, kv.S());
    }

    method AllocateAll(waiting: Group) returns (r: Result<()>, ghost run: seq<State>)
      requires kv.Valid() && DistinctIds(waiting)
      modifies kv
      ensures kv.Valid()
      ensures r.Ok? <==> AllocatableAll(kv.cfg, old(kv.S()), Requests(waiting))
      ensures r.Ok? ==> |run| > 0 && AllocRun(kv.cfg, run, Requests(waiting))
                        && run[0] == old(kv.S()) && run[|run| - 1] == kv.S()
      ensures r.Err? ==> Unchanged(old(kv.S()), kv.S())
    {
      hide Inv, AllocatableAll, AllocRun, Unchanged, Added, FreeAfter, Requests, AllocArgsOk, Ids, KVSpec.CanAllocate, Allocated,
           NeedSum;
      ghost var s := kv.S();
      ghost var rs := Requests(waiting);
      RequestsAre(waiting);
      StartRun(kv.cfg, s);
      NoIds();
      run := [s];
      for i := 0 to |waiting|
        invariant kv.Valid() && |run| == i + 1 && run[0] == s && run[i] == kv.S()
        invariant AllocRun(kv.cfg, run, rs[..i])
        invariant Added(s, kv.S(), Ids(waiting[..i])) && FreeAfter(kv.cfg, s, kv.S(), NeedSum(kv.cfg, rs[..i]))
        invariant AllocatableAll(kv.cfg, s, rs[..i])
      {
        assert rs[..i + 1] == rs[..i] + [rs[i]];
        IdsSnoc(waiting, i);
        AllocationStep(kv.cfg, s, kv.S(), Ids(waiting[..i]), rs, i);
        ghost var t := kv.S();
        var a := kv.AllocateSequence(waiting[i].id, waiting[i].len);
        if a.Err? {
          UnchangedAdded(s, t, kv.S(), Ids(waiting[..i]));
          FreeAll(waiting[..i], s);
          if AllocatableAll(kv.cfg, s, rs) { AllocatablePrefix(kv.cfg, s, rs, i + 1); }
          return Err(a.error), run;
        }
        WholeZero(kv.cfg);
        AllocationTaken(kv.cfg, s, t, kv.S(), Ids(waiting[..i]), rs[..i], rs[i]);
        RunSnoc(kv.cfg, run, rs[..i], rs[i], kv.S());
        run := run + [kv.S()];
      }
      assert rs[..|waiting|] == rs;
      return Ok(()), run;
    }

    /** The rollback of allocate and swap_in. */
    method FreeAll(seqs: Group, ghost s: State)
      requires Inv(kv.cfg, s) && kv.Valid() && Added(s, kv.S(), Ids(seqs)) && DistinctIds(seqs)
      modifies kv
      ensures kv.Valid() && Unchanged(s, kv.S())
    {
      hide Inv, Added, Unchanged, Freed, Ids;
      assert seqs[0..] == seqs;
      for i := 0 to |seqs|
        invariant kv.Valid() && Added(s, kv.S(), Ids(seqs[i..]))
      {
        ghost var t := kv.S();
        kv.FreeSequence(seqs[i].id);
        IdsTail(seqs, i);
        RemovedStep(kv.cfg, s, t, kv.S(), Ids(seqs[i..]), seqs[i].id);
      }
      assert seqs[|seqs|..] == [];
      NoIds();
      AllRemoved(kv.cfg, s, kv.S());
    }

    // -------------------------------------------------------------- append

    /** One count per layer group of the blocks that appending to the running sequences takes. */
    method CanAppendSlots(group: Group, numLookaheadSlots: nat) returns (r: Result<bool>)
      requires Valid()
      ensures numLookaheadSlots > 0 ==> r == Ok(false)
      ensures numLookaheadSlots == 0 ==>
                (r.Ok? <==> forall q :: q in GetSeqs(group, RUNNING) ==> Countable(kv.cfg, kv.S(), q))
      ensures r.Err? ==> r.error == KeyError
      ensures |kv.freeBlocks| == Groups(kv.cfg)
      ensures numLookaheadSlots == 0 && r.Ok? ==>
                (r.value <==> forall g :: 0 <= g < Groups(kv.cfg) ==>
                   |kv.freeBlocks[g]| >= CountSum(kv.cfg, kv.S(), GetSeqs(group, RUNNING), g))
    {
      hide Inv, Groups, Counted, Countable, CountSum;
      InvPools(kv.cfg, kv.S());
      if numLookaheadSlots > 0 {
        return Ok(false);
      }
      var running := GetSeqs(group, RUNNING);
      var needs := seq<nat>(Groups(kv.cfg), _ => 0);
      NothingCounted(kv.cfg, kv.S());
      assert running[..0] == [];
      for i := 0 to |running|
        invariant |needs| == Groups(kv.cfg)
        invariant forall j :: 0 <= j < i ==> Countable(kv.cfg, kv.S(), running[j])
        invariant forall g :: 0 <= g < Groups(kv.cfg) ==> needs[g] == CountSum(kv.cfg, kv.S(), running[..i], g)
      {
        var n := CountNeeds(running[i], needs);
        if n.Err? {
          return Err(KeyError);
        }
        forall g | 0 <= g < Groups(kv.cfg)
          ensures n.value[g] == CountSum(kv.cfg, kv.S(), running[..i + 1], g)
        {
          CountSnoc(kv.cfg, kv.S(), running, i, g);
        }
        needs := n.value;
      }
      assert running[..|running|] == running;
      return Ok(forall g :: 0 <= g < Groups(kv.cfg) ==> |kv.freeBlocks[g]| >= needs[g]);
    }

    method CountNeeds(q: Seq, needs: seq<nat>) returns (r: Result<seq<nat>>)
      requires kv.Valid() && |needs| == Groups(kv.cfg)
      ensures r.Ok? <==> Countable(kv.cfg, kv.S(), q)
      ensures r.Err? ==> r.error == KeyError
      ensures r.Ok? ==> |r.value| == Groups(kv.cfg)
                        && forall g :: 0 <= g < Groups(kv.cfg) ==>
                             r.value[g] == needs[g] + if Counted(kv.cfg, kv.S(), q, g) then 1 else 0
    {
      hide Inv, Groups, Aligned, WholeBlocks;
      LiveIds(kv.cfg, kv.S());
      InvPools(kv.cfg, kv.S());
      if q.id !in kv.sequenceLengths {
        return Err(KeyError);
      }
      if q.len <= kv.sequenceLengths[q.id] {
        return Ok(needs);
      }
      if q.len % kv.cfg.blockSize == 1 {
        return Ok(seq(Groups(kv.cfg), g requires 0 <= g < Groups(kv.cfg) => needs[g] + 1));
      }
      var counts := needs;
      for g := 0 to Groups(kv.cfg)
        invariant |counts| == Groups(kv.cfg)
        invariant forall h :: g <= h < Groups(kv.cfg) ==> counts[h] == needs[h]
        invariant forall h :: 0 <= h < g ==> counts[h] == needs[h] + if Counted(kv.cfg, kv.S(), q, h) then 1 else 0
        invariant g > 0 ==> TailRetained(kv.cfg, kv.S(), q.id)
      {
        var cow := SequenceNeedsCow(q.id, g);
        if cow.Err? {
          return Err(KeyError);
        }
        if cow.value {
          counts := counts[g := counts[g] + 1];
        }
      }
      SomeGroup(kv.cfg);
      return Ok(counts);
    }

    /** Whether appending inside the tail block needs a copy in one group. */
    method SequenceNeedsCow(id: int, g: nat) returns (r: Result<bool>)
      requires kv.Valid() && id in kv.sequenceLengths && g < Groups(kv.cfg)
      requires PoolSizes(kv.cfg, kv.S()) && InRange(kv.cfg, kv.entries)
      ensures r.Ok? <==> TailRetained(kv.cfg, kv.S(), id)
      ensures r.Ok? ==> (r.value <==> !Aligned(kv.cfg, kv.sequenceLengths[id]) && NeedsBlock(kv.cfg, kv.S(), id, g))
    {
      hide Inv, Groups, PoolSizes;
      LiveIds(kv.cfg, kv.S());
      var numTokens := kv.sequenceLengths[id];
      if numTokens % kv.cfg.blockSize == 0 {
        return Ok(false);
      }
      NewestIsTail(kv.cfg, numTokens);
      hide WholeBlocks;
      TailStored(kv.cfg, kv.S(), id, g);
      var key := Key(id, (numTokens - 1) / kv.cfg.blockSize, g);
      if key !in kv.entries {
        return Err(KeyError);
      }
      InRangeAt(kv.cfg, kv.entries, key);
      SizesAt(kv.cfg, kv.S(), g);
      return Ok(kv.refCounts[g][kv.entries[key].phys] > 1);
    }

    /** Appends tokens until the store has caught up with the sequence. */
    method AppendSlots(q: Seq) returns (r: Result<seq<Copy>>, ghost run: seq<State>)
      requires Valid()
      modifies this, kv
      ensures Valid() && freeCpuBlocks == old(freeCpuBlocks) && swappedSequences == old(swappedSequences)
      ensures |run| > 0 && run[0] == old(kv.S()) && GrowthRun(kv.cfg, run, q.id)
      ensures q.id !in old(kv.sequenceLengths) ==> r == Err(KeyError) && kv.S() == old(kv.S()) == run[|run| - 1]
      ensures r.Ok? ==> run[|run| - 1] == kv.S() && r.value == RunCopies(kv.cfg, run, q.id)
      ensures r.Ok? ==> q.id in kv.sequenceLengths && q.len <= kv.sequenceLengths[q.id]
                        && |run| - 1 == if q.len <= old(kv.sequenceLengths[q.id]) then 0 else q.len - old(kv.sequenceLengths[q.id])
      ensures r.Err? ==> Unchanged(run[|run| - 1], kv.S()) && !KVAppend.CanAppend(kv.cfg, run[|run| - 1], q.id)
      ensures r.Err? && q.id in old(kv.sequenceLengths) ==> |run| - 1 < q.len - old(kv.sequenceLengths[q.id])
      ensures r.Err? ==> r.error == if TailRetained(kv.cfg, run[|run| - 1], q.id) then RuntimeError else KeyError
    {
      hide TailRetained, Inv, CpuDisjoint, Appended, KVAppend.CanAppend, Unchanged, GrowthRun, RunCopies;
      ghost var m := M();
      var copies: seq<Copy> := [];
      run := [kv.S()];
      NoGrowth(kv.cfg, kv.S(), q.id);
      if q.id !in kv.sequenceLengths {
        NotLive(kv.cfg, kv.S(), q.id);
        UnchangedSelf(kv.S());
        return Err(KeyError), run;
      }
      while kv.sequenceLengths[q.id] < q.len
        invariant kv.Valid() && q.id in kv.sequenceLengths
        invariant freeCpuBlocks == old(freeCpuBlocks) && swappedSequences == old(swappedSequences)
        invariant |run| > 0 && run[0] == old(kv.S()) && run[|run| - 1] == kv.S() && GrowthRun(kv.cfg, run, q.id)
        invariant copies == RunCopies(kv.cfg, run, q.id)
        invariant kv.sequenceLengths[q.id] == old(kv.sequenceLengths[q.id]) + |run| - 1
        invariant |run| > 1 ==> kv.sequenceLengths[q.id] <= q.len
        decreases q.len - kv.sequenceLengths[q.id]
      {
        ghost var t := kv.S();
        var a := kv.AppendToken(q.id);
        if a.Err? {
          CpuDisjointFrame(kv.cfg, numCpuBlocks, m, kv.S());
          return Err(a.error), run;
        }
        GrowthLens(kv.cfg, t, kv.S(), q.id, a.value);
        GrowthSnoc(kv.cfg, run, kv.S(), q.id, a.value);
        run := run + [kv.S()];
        copies := copies + a.value;
      }
      CpuDisjointFrame(kv.cfg, numCpuBlocks, m, kv.S());
      return Ok(copies), run;
    }

    // -------------------------------------------------------------- eviction by cached-layer ratio

    /** Evicts the oldest blocks so that the given share of layers' worth stays cached. */
    method EvictToCachedLayerRatio(q: Seq, cachedLayers: int) returns (r: Result<nat>)
      requires Valid()
      modifies this, kv
      ensures Valid() && freeCpuBlocks == old(freeCpuBlocks) && swappedSequences == old(swappedSequences)
      ensures var blocks := EvictedBlocks(kv.cfg, NumBlocks(kv.cfg, q.len), ClampLayers(kv.cfg, cachedLayers));
              && (r.Ok? <==> old(CanEvict(kv.cfg, kv.S(), q.id, blocks * kv.cfg.blockSize)))
              && (r.Ok? ==> var p := ClampedBlocks(kv.cfg, old(kv.sequenceLengths)[q.id], blocks * kv.cfg.blockSize);
                            Evicted(kv.cfg, old(kv.S()), kv.S(), q.id, p) && r.value == p * kv.cfg.blockSize)
      ensures r.Err? ==> kv.S() == old(kv.S())
      ensures r.Err? ==> r.error == if old(kv.temporaryEntries) != map[] then RuntimeError
                                    else if q.id !in old(kv.sequenceLengths) then KeyError else ValueError
    {
      hide Inv, CpuDisjoint, CanEvict, Evicted, ClampedBlocks, NumBlocks, EvictedBlocks;
      ghost var m := M();
      var cached := ClampLayers(kv.cfg, cachedLayers);
      var numBlocks := NumBlocks(kv.cfg, q.len);
      var evicted := EvictedBlocks(kv.cfg, numBlocks, cached);
      r := kv.EvictPrefix(q.id, evicted * kv.cfg.blockSize);
      CpuDisjointFrame(kv.cfg, numCpuBlocks, m, kv.S());
    }

    method Free(q: Seq)
      requires Valid()
      modifies this, kv
      ensures Valid() && DropStep(old(M()), M(), q.id)
    {
      hide Inv, CpuDisjoint, Freed;
      ghost var m := M();
      kv.FreeSequence(q.id);
      CpuDisjointFrame(kv.cfg, numCpuBlocks, m, kv.S());
    }

    method Fork(parent: Seq, child: Seq) returns (r: Result<()>)
      requires Valid()
      modifies this, kv
      ensures Valid() && freeCpuBlocks == old(freeCpuBlocks) && swappedSequences == old(swappedSequences)
      ensures r.Ok? <==> old(CanFork(kv.S(), parent.id, child.id))
      ensures r.Ok? ==> Forked(old(kv.S()), kv.S(), parent.id, child.id)
      ensures r.Err? ==> kv.S() == old(kv.S())
    {
      hide Inv, CpuDisjoint, Forked, CanFork;
      ghost var m := M();
      r := kv.ForkSequence(parent.id, child.id);
      CpuDisjointFrame(kv.cfg, numCpuBlocks, m, kv.S());
    }

    // -------------------------------------------------------------- swapping

    /** A sequence's retained GPU blocks, one table per layer group. */
    method GetLayerGroupBlockTables(id: int) returns (tables: seq<seq<nat>>)
      requires kv.Valid()
      ensures tables == RetainedTables(kv.cfg, kv.S(), id)
    {
      hide Inv, RetainedTable, Groups;
      tables := [];
      for g := 0 to Groups(kv.cfg)
        invariant |tables| == g
        invariant forall h :: 0 <= h < g ==> tables[h] == RetainedTable(kv.cfg, kv.S(), id, h)
      {
        var table := kv.GetRetainedBlockTable(id, g);
        tables := tables + [table];
      }
    }

    method CanSwapIn(group: Group, numLookaheadSlots: nat) returns (status: AllocStatus)
      requires Valid()
      ensures |kv.freeBlocks| == Groups(kv.cfg)
      ensures status == NEVER <==> numLookaheadSlots > 0 || !AllSwapped(swappedSequences, GetSeqs(group, SWAPPED))
      ensures status == OK <==>
                && numLookaheadSlots == 0 && AllSwapped(swappedSequences, GetSeqs(group, SWAPPED))
                && forall g :: 0 <= g < Groups(kv.cfg) ==>
                     |kv.freeBlocks[g]| >= NeedSum(kv.cfg, SwapRequests(swappedSequences, GetSeqs(group, SWAPPED)))
    {
      hide Inv, Groups, CpuDisjoint, NeedSum, SwapRequest, SwapRequests, Need;
      CpuShape(kv.cfg, numCpuBlocks, M());
      InvPools(kv.cfg, kv.S());
      if numLookaheadSlots > 0 {
        return NEVER;
      }
      var seqs := GetSeqs(group, SWAPPED);
      ghost var rs := SwapRequests(swappedSequences, seqs);
      var required := seq<nat>(Groups(kv.cfg), _ => 0);
      NothingAsked(kv.cfg, swappedSequences, seqs);
      for i := 0 to |seqs|
        invariant |required| == Groups(kv.cfg) && |rs| == |seqs|
        invariant forall j :: 0 <= j < i ==> seqs[j].id in swappedSequences
        invariant forall g :: 0 <= g < Groups(kv.cfg) ==> required[g] == NeedSum(kv.cfg, rs[..i])
      {
        if seqs[i].id !in swappedSequences {
          return NEVER;
        }
        var tables := swappedSequences[seqs[i].id].tables;
        SwapRequestsSnoc(swappedSequences, seqs, i);
        NeedSumSnoc(kv.cfg, rs[..i], rs[i]);
        forall g | 0 <= g < Groups(kv.cfg) ensures |tables[g]| == Need(kv.cfg, rs[i]) {
          SavedNeed(kv.cfg, numCpuBlocks, M(), seqs[i].id, g);
        }
        required := seq(Groups(kv.cfg), g requires 0 <= g < Groups(kv.cfg) => required[g] + |tables[g]|);
      }
      assert rs[..|seqs|] == rs;
      if forall g :: 0 <= g < Groups(kv.cfg) ==> |kv.freeBlocks[g]| >= required[g] {
        return OK;
      }
      return LATER;
    }

    method CanSwapOut(group: Group) returns (room: bool)
      requires Valid()
      ensures room <==> RoomOnCpu(kv.cfg, M(), SeqIds(GetSeqs(group, RUNNING)))
    {
      hide Inv, Groups, RetainedTable, RetainedSum, SeqIds;
      CpuShape(kv.cfg, numCpuBlocks, M());
      hide CpuDisjoint;
      var seqs := GetSeqs(group, RUNNING);
      ghost var ids := SeqIds(seqs);
      SeqIdsAll(seqs);
      var required := seq<nat>(Groups(kv.cfg), _ => 0);
      NothingRetained(kv.cfg, kv.S());
      for i := 0 to |seqs|
        invariant |required| == Groups(kv.cfg)
        invariant forall g :: 0 <= g < Groups(kv.cfg) ==> required[g] == RetainedSum(kv.cfg, kv.S(), ids[..i], g)
      {
        var tables := GetLayerGroupBlockTables(seqs[i].id);
        SeqIdsSnoc(seqs, i);
        assert |tables| == Groups(kv.cfg);
        forall g | 0 <= g < Groups(kv.cfg)
          ensures required[g] + |tables[g]| == RetainedSum(kv.cfg, kv.S(), ids[..i + 1], g)
        {
          RetainedSumSnoc(kv.cfg, kv.S(), ids, i, g);
        }
        required := seq(Groups(kv.cfg), g requires 0 <= g < Groups(kv.cfg) => required[g] + |tables[g]|);
      }
      return forall g :: 0 <= g < Groups(kv.cfg) ==> |freeCpuBlocks[g]| >= required[g];
    }

    /** Pops one CPU block for each GPU block of one layer group's table. */
    method TakeCpuTable(g: nat, gpuTable: seq<nat>, taken: seq<(nat, nat)>, ghost before: seq<seq<nat>>)
      returns (cpuTable: seq<nat>, moves: seq<Copy>, taken': seq<(nat, nat)>)
      requires g < |freeCpuBlocks| && |freeCpuBlocks[g]| >= |gpuTable| && CpuTaken(before, freeCpuBlocks, taken)
      modifies this`freeCpuBlocks
      ensures cpuTable == old(freeCpuBlocks[g])[..|gpuTable|]
      ensures freeCpuBlocks == old(freeCpuBlocks)[g := old(freeCpuBlocks[g])[|gpuTable|..]]
      ensures moves == Zip(g, gpuTable, cpuTable) && CpuTaken(before, freeCpuBlocks, taken')
    {
      hide CpuTaken, Zip;
      cpuTable, moves, taken' := [], [], taken;
      ghost var pool := freeCpuBlocks[g];
      NoMoves(g);
      for i := 0 to |gpuTable|
        invariant cpuTable == pool[..i] && freeCpuBlocks == old(freeCpuBlocks)[g := pool[i..]]
        invariant moves == Zip(g, gpuTable[..i], cpuTable) && CpuTaken(before, freeCpuBlocks, taken')
      {
        PopTaken(before, freeCpuBlocks, taken', g);
        var b := freeCpuBlocks[g][0];
        freeCpuBlocks := freeCpuBlocks[g := freeCpuBlocks[g][1..]];
        taken' := taken' + [(g, b)];
        ZipSnoc(g, gpuTable[..i], cpuTable, gpuTable[i], b);
        assert gpuTable[..i + 1] == gpuTable[..i] + [gpuTable[i]];
        cpuTable := cpuTable + [b];
        moves := moves + [Copy(g, gpuTable[i], b)];
      }
      assert gpuTable[..|gpuTable|] == gpuTable;
    }

    /** Pops CPU blocks for all of one sequence's tables. */
    method TakeCpuTables(gpu: seq<seq<nat>>, taken: seq<(nat, nat)>, ghost before: seq<seq<nat>>)
      returns (cpu: seq<seq<nat>>, moves: seq<Copy>, taken': seq<(nat, nat)>)
      requires |gpu| == |freeCpuBlocks| && forall g :: 0 <= g < |gpu| ==> |freeCpuBlocks[g]| >= |gpu[g]|
      requires CpuTaken(before, freeCpuBlocks, taken)
      modifies this`freeCpuBlocks
      ensures SameShape(gpu, cpu) && moves == Moves(gpu, cpu, |gpu|) && CpuTaken(before, freeCpuBlocks, taken')
      ensures |freeCpuBlocks| == |gpu|
      ensures forall g :: 0 <= g < |gpu| ==>
                && cpu[g] == old(freeCpuBlocks[g])[..|gpu[g]|]
                && freeCpuBlocks[g] == old(freeCpuBlocks[g])[|gpu[g]|..]
    {
      hide CpuTaken, Zip, Moves;
      cpu, moves, taken' := [], [], taken;
      ghost var pools := freeCpuBlocks;
      NoTableMoves();
      for g := 0 to |gpu|
        invariant |cpu| == g && |freeCpuBlocks| == |gpu| && SameShape(gpu[..g], cpu)
        invariant moves == Moves(gpu[..g], cpu, g) && CpuTaken(before, freeCpuBlocks, taken')
        invariant forall h :: 0 <= h < g ==>
                    cpu[h] == pools[h][..|gpu[h]|] && freeCpuBlocks[h] == pools[h][|gpu[h]|..]
        invariant forall h :: g <= h < |gpu| ==> freeCpuBlocks[h] == pools[h]
      {
        var table, more;
        table, more, taken' := TakeCpuTable(g, gpu[g], taken', before);
        assert gpu[..g + 1] == gpu[..g] + [gpu[g]];
        MovesSnoc(gpu[..g], cpu, gpu[g], table);
        cpu := cpu + [table];
        moves := moves + more;
      }
      assert gpu[..|gpu|] == gpu;
    }

    /** The rollback of swap_out: every block taken goes back, at the other end of its deque. */
    method GiveBack(taken: seq<(nat, nat)>)
      requires forall i :: 0 <= i < |taken| ==> taken[i].0 < |freeCpuBlocks|
      modifies this`freeCpuBlocks
      ensures |freeCpuBlocks| == old(|freeCpuBlocks|)
      ensures forall g :: 0 <= g < |freeCpuBlocks| ==> freeCpuBlocks[g] == old(freeCpuBlocks[g]) + TakenIn(taken, g)
    {
      for i := 0 to |taken|
        invariant |freeCpuBlocks| == old(|freeCpuBlocks|)
        invariant forall g :: 0 <= g < |freeCpuBlocks| ==>
                    freeCpuBlocks[g] == old(freeCpuBlocks[g]) + TakenIn(taken[..i], g)
      {
        var (g, b) := taken[i];
        assert taken[..i + 1] == taken[..i] + [(g, b)];
        forall h | 0 <= h < |freeCpuBlocks|
          ensures TakenIn(taken[..i + 1], h) == TakenIn(taken[..i], h) + if g == h then [b] else []
        {
          TakenSnoc(taken[..i], g, b, h);
        }
        hide TakenIn;
        freeCpuBlocks := freeCpuBlocks[g := freeCpuBlocks[g] + [b]];
      }
      assert taken[..|taken|] == taken;
    }

    /** Moves a group's running sequences to the CPU, or leaves everything as it was. */
    method SwapOut(group: Group) returns (r: Result<seq<Copy>>, ghost saves: seq<Manager>, ghost drops: seq<Manager>)
      requires Valid() && DistinctIds(group)
      modifies this, kv
      ensures Valid()
      ensures var ids := SeqIds(GetSeqs(group, RUNNING));
              && (r.Ok? <==> old(RoomOnCpu(kv.cfg, M(), ids) && forall i :: 0 <= i < |ids| ==> ids[i] in kv.sequenceLengths))
              && (r.Ok? ==> && SaveRun(kv.cfg, saves, ids) && saves[0] == old(M())
                            && DropRun(drops, ids) && drops[0] == saves[|ids|] && drops[|ids|] == M()
                            && r.value == AllSaveMoves(kv.cfg, saves, ids))
              && (r.Err? ==> r.error == if old(RoomOnCpu(kv.cfg, M(), ids)) then KeyError else RuntimeError)
      ensures r.Err? ==> kv.S() == old(kv.S()) && swappedSequences == old(swappedSequences)
                         && SameCpu(old(freeCpuBlocks), freeCpuBlocks)
    {
      hide Inv, CpuDisjoint, RoomOnCpu, SaveRun, DropRun, AllSaveMoves, SeqIds, StatesMatch;
      GetSeqsDistinct(group, RUNNING);
      var seqs := GetSeqs(group, RUNNING);
      SeqIdsAll(seqs);
      var room := CanSwapOut(group);
      if !room {
        return Err(RuntimeError), [], [];
      }
      var states;
      r, states, saves := SaveAll(seqs);
      if r.Ok? {
        drops := DropAll(seqs, states, saves);
      } else {
        drops := [];
      }
    }

    /** Takes CPU blocks and records a state for every sequence, or raises and gives them back. */
    method SaveAll(seqs: Group) returns (r: Result<seq<Copy>>, states: map<int, Swapped>, ghost saves: seq<Manager>)
      requires Valid() && DistinctIds(seqs) && RoomOnCpu(kv.cfg, M(), SeqIds(seqs))
      modifies this`freeCpuBlocks
      ensures r.Ok? <==> forall i :: 0 <= i < |seqs| ==> seqs[i].id in kv.sequenceLengths
      ensures r.Ok? ==> && SaveRun(kv.cfg, saves, SeqIds(seqs)) && |saves| == |seqs| + 1 && saves[0] == old(M())
                        && StatesMatch(saves, SeqIds(seqs), states)
                        && saves[|seqs|] == Manager(kv.S(), freeCpuBlocks, saves[|seqs|].saved)
                        && CpuDisjoint(kv.cfg, numCpuBlocks, saves[|seqs|])
                        && r.value == AllSaveMoves(kv.cfg, saves, SeqIds(seqs))
      ensures r.Err? ==> r.error == KeyError && SameCpu(old(freeCpuBlocks), freeCpuBlocks) && Valid()
    {
      hide Inv, CpuDisjoint, SaveStep, SaveRun, AllSaveMoves, SeqIds, StatesMatch, CpuTaken, SameCpu, RetainedTable,
           RetainedTables, RetainedSum, Moves, TableMoves, Groups;
      ghost var m := M();
      ghost var ids := SeqIds(seqs);
      SeqIdsAll(seqs);
      var moves: seq<Copy>, taken: seq<(nat, nat)> := [], [];
      states, saves := map[], [m];
      NoSuccessors(kv.cfg, m);
      NothingTakenYet(freeCpuBlocks);
      NothingRetained(kv.cfg, kv.S());
      LiveIds(kv.cfg, kv.S());
      for i := 0 to |seqs|
        invariant forall j :: 0 <= j < i ==> seqs[j].id in kv.sequenceLengths
        invariant |saves| == i + 1 && saves[0] == m && SaveRun(kv.cfg, saves, ids[..i])
        invariant StatesMatch(saves, ids[..i], states) && moves == AllSaveMoves(kv.cfg, saves, ids[..i])
        invariant saves[i] == Manager(kv.S(), freeCpuBlocks, saves[i].saved)
        invariant ManagerInv(kv.cfg, numCpuBlocks, saves[i])
        invariant CpuTaken(m.cpu, freeCpuBlocks, taken) && |freeCpuBlocks| == Groups(kv.cfg) == |m.cpu|
        invariant forall g :: 0 <= g < Groups(kv.cfg) ==>
                    |freeCpuBlocks[g]| + RetainedSum(kv.cfg, kv.S(), ids[..i], g) == |m.cpu[g]|
      {
        SeqIdsSnoc(seqs, i);
        var id := seqs[i].id;
        var gpu := GetLayerGroupBlockTables(id);
        TablesOfRoom(kv.cfg, m, ids, i, freeCpuBlocks, gpu);
        ghost var cpu0 := freeCpuBlocks;
        var cpu, more;
        cpu, more, taken := TakeCpuTables(gpu, taken, m.cpu);
        if id !in kv.sequenceLengths {
          assert |freeCpuBlocks| == |m.cpu| && forall j :: 0 <= j < |taken| ==> taken[j].0 < |freeCpuBlocks| by {
            TakenGroups(m.cpu, freeCpuBlocks, taken);
          }
          ghost var now := freeCpuBlocks;
          GiveBack(taken);
          GivenBack(m.cpu, now, taken, freeCpuBlocks);
          SameCpuInv(kv.cfg, numCpuBlocks, m, freeCpuBlocks);
          return Err(KeyError), states, saves;
        }
        var state := Swapped(kv.sequenceLengths[id], kv.evictedPrefixBlocks[id] * kv.cfg.blockSize, cpu);
        ghost var n := Manager(kv.S(), freeCpuBlocks, saves[i].saved[id := state]);
        SavedIsStep(kv.cfg, saves[i], id, gpu, cpu, freeCpuBlocks);
        SaveKeepsInv(kv.cfg, numCpuBlocks, saves[i], n, id);
        SaveRunSnoc(kv.cfg, saves, ids[..i], n, id);
        StatesSnoc(saves, ids[..i], states, n, id, state);
        forall g | 0 <= g < Groups(kv.cfg)
          ensures |freeCpuBlocks[g]| + RetainedSum(kv.cfg, kv.S(), ids[..i + 1], g) == |m.cpu[g]|
        {
          SaveTakes(kv.cfg, saves[i], n, id, g);
          RetainedSumSnoc(kv.cfg, kv.S(), ids, i, g);
        }
        saves := saves + [n];
        states := states[id := state];
        moves := moves + more;
      }
      return Ok(moves), states, saves;
    }

    /** Records the saved states and frees the GPU blocks. */
    method DropAll(seqs: Group, states: map<int, Swapped>, ghost saves: seq<Manager>) returns (ghost drops: seq<Manager>)
      requires kv.Valid() && StatesMatch(saves, SeqIds(seqs), states) && |saves| == |seqs| + 1
      requires saves[0].saved == swappedSequences
      requires saves[|seqs|] == Manager(kv.S(), freeCpuBlocks, saves[|seqs|].saved)
      requires CpuDisjoint(kv.cfg, numCpuBlocks, saves[|seqs|])
      modifies this`swappedSequences, kv
      ensures Valid()
      ensures DropRun(drops, SeqIds(seqs)) && |drops| == |seqs| + 1
      ensures drops[0] == saves[|seqs|] && drops[|seqs|] == M()
    {
      hide Inv, CpuDisjoint, DropStep, DropRun, SeqIds, Freed;
      ghost var ids := SeqIds(seqs);
      SeqIdsAll(seqs);
      ghost var m := saves[|seqs|];
      drops := [m];
      NoSuccessors(kv.cfg, m);
      for i := 0 to |seqs|
        invariant kv.Valid() && |drops| == i + 1 && drops[0] == m && DropRun(drops, ids[..i])
        invariant drops[i] == m.(kv := kv.S()) && swappedSequences == saves[i].saved
      {
        SeqIdsSnoc(seqs, i);
        ghost var t := kv.S();
        swappedSequences := swappedSequences[seqs[i].id := states[seqs[i].id]];
        kv.FreeSequence(seqs[i].id);
        DroppedStep(m, t, kv.S(), seqs[i].id);
        DropRunSnoc(drops, ids[..i], m.(kv := kv.S()), seqs[i].id);
        drops := drops + [m.(kv := kv.S())];
      }
      CpuDisjointFrame(kv.cfg, numCpuBlocks, m, kv.S());
    }

    /** Moves a group's swapped sequences back to the GPU, or leaves everything as it was. */
    method SwapIn(group: Group) returns (r: Result<seq<Copy>>, ghost restores: seq<Manager>, ghost discards: seq<Manager>)
      requires Valid() && DistinctIds(group)
      modifies this, kv
      ensures Valid()
      ensures var seqs := GetSeqs(group, SWAPPED);
              && (r.Ok? <==> old(AllSwapped(swappedSequences, seqs)
                                 && AllocatableAll(kv.cfg, kv.S(), SwapRequests(swappedSequences, seqs))))
              && (r.Ok? ==> && RestoreRun(kv.cfg, restores, SeqIds(seqs)) && restores[0] == old(M())
                            && DiscardRun(kv.cfg, discards, SeqIds(seqs)) && discards[0] == restores[|seqs|]
                            && discards[|seqs|] == M()
                            && r.value == AllRestoreMoves(kv.cfg, restores, SeqIds(seqs)))
      ensures r.Err? ==> Unchanged(old(kv.S()), kv.S()) && swappedSequences == old(swappedSequences)
                         && freeCpuBlocks == old(freeCpuBlocks)
    {
      hide Inv, CpuDisjoint, RestoreRun, DiscardRun, AllRestoreMoves, SeqIds, AllSwapped, AllocatableAll, Unchanged;
      GetSeqsDistinct(group, SWAPPED);
      var seqs := GetSeqs(group, SWAPPED);
      SeqIdsAll(seqs);
      ghost var m := M();
      r, restores := RestoreAll(seqs);
      CpuDisjointFrame(kv.cfg, numCpuBlocks, m, kv.S());
      if r.Ok? {
        discards := DiscardAll(seqs);
      } else {
        discards := [];
      }
    }

    /** Allocates GPU blocks for every saved sequence, or raises and frees them. */
    method RestoreAll(seqs: Group) returns (r: Result<seq<Copy>>, ghost restores: seq<Manager>)
      requires Valid() && DistinctIds(seqs)
      modifies kv
      ensures kv.Valid()
      ensures r.Ok? <==> AllSwapped(swappedSequences, seqs)
                         && AllocatableAll(kv.cfg, old(kv.S()), SwapRequests(swappedSequences, seqs))
      ensures r.Ok? ==> && RestoreRun(kv.cfg, restores, SeqIds(seqs)) && |restores| == |seqs| + 1
                        && restores[0] == old(M()) && restores[|seqs|] == M()
                        && r.value == AllRestoreMoves(kv.cfg, restores, SeqIds(seqs))
      ensures r.Err? ==> Unchanged(old(kv.S()), kv.S())
    {
      hide Inv, CpuDisjoint, AllocatableAll, RestoreRun, RestoreStep, AllRestoreMoves, RestoreMoves, Unchanged, Added,
           FreeAfter, SwapRequest, SwapRequests, SeqIds, AllocArgsOk, Ids, KVSpec.CanAllocate, Allocated, NeedSum,
           RetainedTables, TableMoves;
      ghost var m, s := M(), kv.S();
      ghost var ids := SeqIds(seqs);
      ghost var rs := SwapRequests(swappedSequences, seqs);
      SeqIdsAll(seqs);
      StartRun(kv.cfg, s);
      NoIds();
      NoSuccessors(kv.cfg, m);
      NothingAsked(kv.cfg, swappedSequences, seqs);
      var moves: seq<Copy> := [];
      restores := [m];
      for i := 0 to |seqs|
        invariant kv.Valid() && |restores| == i + 1 && restores[0] == m && restores[i] == M() && |rs| == |seqs|
        invariant forall j :: 0 <= j < i ==> seqs[j].id in swappedSequences
        invariant RestoreRun(kv.cfg, restores, ids[..i]) && moves == AllRestoreMoves(kv.cfg, restores, ids[..i])
        invariant Added(s, kv.S(), Ids(seqs[..i])) && FreeAfter(kv.cfg, s, kv.S(), NeedSum(kv.cfg, rs[..i]))
        invariant AllocatableAll(kv.cfg, s, rs[..i])
        invariant CpuDisjoint(kv.cfg, numCpuBlocks, M())
      {
        if seqs[i].id !in swappedSequences {
          UnsavedRefused(kv.cfg, s, swappedSequences, seqs, i);
          FreePrefix(seqs, i, s);
          return Err(KeyError), restores;
        }
        var saved := swappedSequences[seqs[i].id];
        RequestIs(swappedSequences, seqs, i);
        SeqIdsSnoc(seqs, i);
        IdsSnoc(seqs, i);
        AllocationStep(kv.cfg, s, kv.S(), Ids(seqs[..i]), rs, i);
        ghost var before := M();
        InvPools(kv.cfg, before.kv);
        var a := kv.AllocateSequenceWithEvictedPrefix(seqs[i].id, saved.length, saved.evictedTokens);
        if a.Err? {
          UnchangedAdded(s, before.kv, kv.S(), Ids(seqs[..i]));
          FreePrefix(seqs, i, s);
          if AllocatableAll(kv.cfg, s, rs) { AllocatablePrefix(kv.cfg, s, rs, i + 1); }
          return Err(a.error), restores;
        }
        CpuDisjointFrame(kv.cfg, numCpuBlocks, before, kv.S());
        RestoredOne(kv.cfg, numCpuBlocks, before, M(), seqs[i].id, rs[i]);
        AllocationTaken(kv.cfg, s, before.kv, kv.S(), Ids(seqs[..i]), rs[..i], rs[i]);
        RestoreRunSnoc(kv.cfg, restores, ids[..i], M(), seqs[i].id);
        restores := restores + [M()];
        var gpu := GetLayerGroupBlockTables(seqs[i].id);
        RestoredShape(kv.cfg, numCpuBlocks, before, M(), seqs[i].id);
        MovesOfRestore(kv.cfg, before, M(), seqs[i].id);
        var more := ZipTables(saved.tables, gpu);
        moves := moves + more;
      }
      assert rs[..|seqs|] == rs;
      return Ok(moves), restores;
    }

    method FreePrefix(seqs: Group, n: nat, ghost s: State)
      requires n <= |seqs| && DistinctIds(seqs)
      requires Inv(kv.cfg, s) && kv.Valid() && Added(s, kv.S(), Ids(seqs[..n]))
      modifies kv
      ensures kv.Valid() && Unchanged(s, kv.S())
    {
      hide Inv, Added, Ids, Unchanged;
      FreeAll(seqs[..n], s);
    }

    /** Pairs two lists of tables block by block. */
    method ZipTables(src: seq<seq<nat>>, dst: seq<seq<nat>>) returns (moves: seq<Copy>)
      requires SameShape(src, dst)
      ensures moves == Moves(src, dst, |src|)
    {
      moves := [];
      for g := 0 to |src|
        invariant moves == Moves(src, dst, g)
      {
        var row: seq<Copy> := [];
        for i := 0 to |src[g]|
          invariant row == Zip(g, src[g][..i], dst[g][..i])
        {
          row := row + [Copy(g, src[g][i], dst[g][i])];
        }
        assert src[g][..|src[g]|] == src[g] && dst[g][..|src[g]|] == dst[g];
        moves := moves + row;
      }
    }

    /** Forgets the swapped states and returns their CPU blocks. */
    method DiscardAll(seqs: Group) returns (ghost discards: seq<Manager>)
      requires Valid() && DistinctIds(seqs) && AllSwapped(swappedSequences, seqs)
      modifies this`freeCpuBlocks, this`swappedSequences
      ensures Valid()
      ensures DiscardRun(kv.cfg, discards, SeqIds(seqs)) && |discards| == |seqs| + 1
      ensures discards[0] == old(M()) && discards[|seqs|] == M()
    {
      hide Inv, CpuDisjoint, DiscardRun, DiscardStep, SeqIds;
      ghost var ids := SeqIds(seqs);
      SeqIdsAll(seqs);
      discards := [M()];
      NoSuccessors(kv.cfg, M());
      for i := 0 to |seqs|
        invariant Valid() && |discards| == i + 1 && discards[0] == old(M()) && discards[i] == M()
        invariant DiscardRun(kv.cfg, discards, ids[..i])
        invariant forall j :: i <= j < |seqs| ==> seqs[j].id in swappedSequences
      {
        SeqIdsSnoc(seqs, i);
        ghost var before := M();
        DiscardOne(seqs[i].id);
        DiscardKeepsInv(kv.cfg, numCpuBlocks, before, M(), seqs[i].id);
        DiscardRunSnoc(kv.cfg, discards, ids[..i], M(), seqs[i].id);
        discards := discards + [M()];
      }
    }

    method DiscardOne(id: int)
      requires Valid() && id in swappedSequences
      modifies this`freeCpuBlocks, this`swappedSequences
      ensures DiscardStep(kv.cfg, old(M()), M(), id) && swappedSequences == old(swappedSequences) - {id}
    {
      CpuShape(kv.cfg, numCpuBlocks, M());
      hide Inv, CpuDisjoint, Groups;
      ghost var m := M();
      var tables := swappedSequences[id].tables;
      swappedSequences := swappedSequences - {id};
      for g := 0 to |tables|
        invariant swappedSequences == m.saved - {id} && |freeCpuBlocks| == Groups(kv.cfg)
        invariant forall h :: 0 <= h < g ==> freeCpuBlocks[h] == m.cpu[h] + tables[h]
        invariant forall h :: g <= h < Groups(kv.cfg) ==> freeCpuBlocks[h] == m.cpu[h]
      {
        freeCpuBlocks := freeCpuBlocks[g := freeCpuBlocks[g] + tables[g]];
      }
    }
  }

  // ---------------------------------------------------------------- lemmas for the loops above

  lemma SomeGroup(c: Config)
    ensures Groups(c) > 0
  {
    CeilDivBounds(c.numLayers, c.groupSize);
  }

  lemma WholeZero(c: Config)
    ensures WholeBlocks(c, 0) == 0 && Aligned(c, 0)
  {
  }

  lemma WholeNeed(c: Config, q: Seq)
    ensures Need(c, Request(q.id, q.len, 0)) == NumBlocks(c, q.len)
  {
    WholeZero(c);
  }

  lemma RequestsSnoc(seqs: Group, i: nat)
    requires i < |seqs|
    ensures Requests(seqs[..i + 1]) == Requests(seqs[..i]) + [Request(seqs[i].id, seqs[i].len, 0)]
  {
  }

  lemma RequestsAre(seqs: Group)
    ensures |Requests(seqs)| == |seqs|
    ensures forall i :: 0 <= i < |seqs| ==> Requests(seqs)[i] == Request(seqs[i].id, seqs[i].len, 0)
  {
  }

  lemma NeedSnoc(c: Config, rs: seq<Request>, r: Request)
    ensures NeedSum(c, rs + [r]) == NeedSum(c, rs) + Need(c, r)
  {
    assert (rs + [r])[..|rs|] == rs;
  }

  lemma IdsSnoc(seqs: Group, i: nat)
    requires i < |seqs| && DistinctIds(seqs)
    ensures Ids(seqs[..i + 1]) == Ids(seqs[..i]) + {seqs[i].id} && seqs[i].id !in Ids(seqs[..i])
  {
    assert seqs[..i + 1] == seqs[..i] + [seqs[i]];
    forall id ensures id in Ids(seqs[..i + 1]) <==> id in Ids(seqs[..i]) + {seqs[i].id} {
      if id == seqs[i].id { assert seqs[..i + 1][i].id == id; }
      if id in Ids(seqs[..i]) {
        var j :| 0 <= j < i && seqs[..i][j].id == id;
        assert seqs[..i + 1][j].id == id;
      }
    }
  }

  lemma NoIds()
    ensures Ids([]) == {}
  {
  }

  /** The CPU side does not read the GPU side. */
  lemma CpuDisjointFrame(c: Config, p: CpuConfig, m: Manager, t: State)
    requires CpuDisjoint(c, p, m)
    ensures CpuDisjoint(c, p, m.(kv := t))
  {
    hide SwappedOk;
  }

  lemma IdsTail(seqs: Group, i: nat)
    requires i < |seqs| && DistinctIds(seqs)
    ensures seqs[i].id in Ids(seqs[i..]) && Ids(seqs[i..]) - {seqs[i].id} == Ids(seqs[i + 1..])
  {
    var a, b := seqs[i..], seqs[i + 1..];
    assert a[0] == seqs[i];
    forall id ensures id in Ids(a) - {seqs[i].id} <==> id in Ids(b) {
      if id in Ids(b) {
        var j :| 0 <= j < |b| && b[j].id == id;
        assert a[j + 1].id == id;
      }
      if id in Ids(a) - {seqs[i].id} {
        var j :| 0 <= j < |a| && a[j].id == id;
        assert j > 0 && b[j - 1].id == id;
      }
    }
  }

  lemma StartRun(c: Config, s: State)
    requires Inv(c, s)
    ensures AllocRun(c, [s], []) && Added(s, s, {}) && FreeAfter(c, s, s, NeedSum(c, [])) && AllocatableAll(c, s, [])
  {
    InvPools(c, s);
    hide Inv;
  }

  lemma RunSnoc(c: Config, run: seq<State>, rs: seq<Request>, r: Request, t: State)
    requires AllocRun(c, run, rs) && Inv(c, t)
    requires Allocated(c, run[|rs|], t, r.id, r.len, WholeBlocks(c, r.evicted))
    ensures AllocRun(c, run + [t], rs + [r])
  {
    hide Inv, Allocated;
  }

  /** The i-th request is served exactly when the first i + 1 fit. */
  lemma AllocationStep(c: Config, s: State, t: State, ids: set<int>, rs: seq<Request>, i: nat)
    requires i < |rs| && FreeAfter(c, s, t, NeedSum(c, rs[..i])) && Added(s, t, ids) && rs[i].id !in ids
    requires AllocatableAll(c, s, rs[..i])
    ensures CanAllocate(c, t, rs[i].id, rs[i].len, rs[i].evicted) <==> AllocatableAll(c, s, rs[..i + 1])
  {
    hide AllocArgsOk, FreeAfter, Added, CanAllocate, Need;
    assert rs[..i + 1] == rs[..i] + [rs[i]];
    NextAllocation(c, s, t, ids, rs[..i], rs[i]);
  }

  lemma AllocatablePrefix(c: Config, s: State, rs: seq<Request>, n: nat)
    requires AllocatableAll(c, s, rs) && n <= |rs|
    ensures AllocatableAll(c, s, rs[..n])
  {
    hide AllocArgsOk, Need;
    NeedPrefix(c, rs, n);
  }

  lemma AllocationTaken(c: Config, s: State, t: State, u: State, ids: set<int>, rs: seq<Request>, r: Request)
    requires Inv(c, s) && Added(s, t, ids) && FreeAfter(c, s, t, NeedSum(c, rs))
    requires Allocated(c, t, u, r.id, r.len, WholeBlocks(c, r.evicted)) && CanAllocate(c, t, r.id, r.len, r.evicted)
    ensures Added(s, u, ids + {r.id}) && FreeAfter(c, s, u, NeedSum(c, rs + [r]))
  {
    hide Inv, Allocated, Added, FreeAfter, NumBlocks, WholeBlocks, Aligned;
    AddedStep(c, s, t, u, ids, r.id, r.len, WholeBlocks(c, r.evicted));
    FreeStep(c, s, t, u, rs, r);
  }

  lemma UnchangedAdded(s: State, t: State, u: State, ids: set<int>)
    requires Added(s, t, ids) && Unchanged(t, u)
    ensures Added(s, u, ids)
  {
  }

  // ---------------------------------------------------------------- counting appends

  /** can_append_slots reads this sequence without raising. */
  ghost predicate Countable(c: Config, s: State, q: Seq) {
    && q.id in s.lens
    && (q.len <= s.lens[q.id] || q.len % c.blockSize == 1 || TailRetained(c, s, q.id))
  }

  /** can_append_slots counts a block of group g for this sequence. */
  ghost predicate Counted(c: Config, s: State, q: Seq, g: nat)
    requires g < Groups(c)
  {
    && q.id in s.lens && q.len > s.lens[q.id]
    && (q.len % c.blockSize == 1
        || (PoolSizes(c, s) && InRange(c, s.entries) && !Aligned(c, s.lens[q.id]) && NeedsBlock(c, s, q.id, g)))
  }

  ghost function CountSum(c: Config, s: State, seqs: Group, g: nat): nat
    requires g < Groups(c)
  {
    if seqs == [] then 0 else
    CountSum(c, s, seqs[..|seqs| - 1], g) + if Counted(c, s, seqs[|seqs| - 1], g) then 1 else 0
  }

  lemma NothingCounted(c: Config, s: State)
    ensures forall g :: 0 <= g < Groups(c) ==> CountSum(c, s, [], g) == 0
  {
  }

  lemma CountSnoc(c: Config, s: State, seqs: Group, i: nat, g: nat)
    requires i < |seqs| && g < Groups(c)
    ensures CountSum(c, s, seqs[..i + 1], g) == CountSum(c, s, seqs[..i], g) + if Counted(c, s, seqs[i], g) then 1 else 0
  {
    assert seqs[..i + 1][..i] == seqs[..i];
    hide Counted;
  }

  lemma SizesAt(c: Config, s: State, g: nat)
    requires PoolSizes(c, s) && g < Groups(c)
    ensures |s.free| == |s.refs| == Groups(c) && |s.refs[g]| == c.numBlocks
  {
  }

  /** Inside a partly filled block the newest token's block is the tail. */
  lemma NewestIsTail(c: Config, n: nat)
    requires n % c.blockSize != 0
    ensures n > 0 && (n - 1) / c.blockSize == WholeBlocks(c, n)
  {
    var b := c.blockSize;
    assert n == (n / b) * b + n % b;
    DivUnique(n - 1, b, n / b, n % b - 1);
  }

  /** A run in which one sequence grows, one token a step. */
  ghost predicate GrowthRun(c: Config, run: seq<State>, id: int) {
    && (forall i :: 0 <= i < |run| ==> Inv(c, run[i]))
    && forall i :: 0 <= i < |run| - 1 ==> AppendedSomehow(c, run[i], run[i + 1], id)
  }

  /** The copies of a growth run, in order. */
  ghost function RunCopies(c: Config, run: seq<State>, id: int): seq<Copy> {
    if |run| <= 1 then [] else
    var n := |run| - 1;
    RunCopies(c, run[..n], id)
    + if id in run[n - 1].lens
      then CopyList(run[n - 1].entries, run[n].entries, id, Tail(c, run[n - 1], id), Groups(c)) else []
  }

  lemma NoGrowth(c: Config, s: State, id: int)
    requires Inv(c, s)
    ensures GrowthRun(c, [s], id) && RunCopies(c, [s], id) == []
  {
    hide Inv;
  }

  lemma GrowthLens(c: Config, s: State, t: State, id: int, copies: seq<Copy>)
    requires Appended(c, s, t, id, copies)
    ensures id in s.lens && id in t.lens && t.lens[id] == s.lens[id] + 1
  {
    hide CopyList, TailPlaced;
  }

  lemma GrowthSnoc(c: Config, run: seq<State>, t: State, id: int, copies: seq<Copy>)
    requires |run| > 0 && GrowthRun(c, run, id) && Inv(c, t) && Appended(c, run[|run| - 1], t, id, copies)
    ensures GrowthRun(c, run + [t], id) && RunCopies(c, run + [t], id) == RunCopies(c, run, id) + copies
  {
    hide Inv, CopyList, TailPlaced, TailGrown;
    var all, n := run + [t], |run|;
    assert all[..n] == run;
    assert AppendedSomehow(c, run[n - 1], t, id);
    forall i | 0 <= i < |all| - 1 ensures AppendedSomehow(c, all[i], all[i + 1], id) {
      assert i < n - 1 ==> AppendedSomehow(c, run[i], run[i + 1], id);
    }
  }

  // ---------------------------------------------------------------- swapping

  lemma NothingAsked(c: Config, saved: map<int, Swapped>, seqs: Group)
    ensures |SwapRequests(saved, seqs)| == |seqs| && SwapRequests(saved, seqs)[..0] == []
    ensures NeedSum(c, []) == 0
  {
  }

  lemma NothingRetained(c: Config, s: State)
    ensures forall g: nat :: RetainedSum(c, s, [], g) == 0
  {
  }

  lemma CpuShape(c: Config, p: CpuConfig, m: Manager)
    requires CpuDisjoint(c, p, m)
    ensures |m.cpu| == Groups(c)
    ensures forall id :: id in m.saved ==> |m.saved[id].tables| == Groups(c)
  {
    hide Groups;
  }

  lemma NoMoves(g: nat)
    ensures Zip(g, [], []) == []
  {
  }

  lemma NoTableMoves()
    ensures SameShape([], []) && Moves([], [], 0) == []
  {
  }

  lemma TakenGroups(before: seq<seq<nat>>, now: seq<seq<nat>>, taken: seq<(nat, nat)>)
    requires CpuTaken(before, now, taken)
    ensures |before| == |now| && forall j :: 0 <= j < |taken| ==> taken[j].0 < |before|
  {
  }

  /** Room for all the sequences leaves room for the next one's tables. */
  lemma TablesOfRoom(c: Config, m: Manager, ids: seq<int>, i: nat, cpu: seq<seq<nat>>, gpu: seq<seq<nat>>)
    requires RoomOnCpu(c, m, ids) && i < |ids| && |cpu| == Groups(c) && gpu == RetainedTables(c, m.kv, ids[i])
    requires forall g :: 0 <= g < Groups(c) ==> |cpu[g]| + RetainedSum(c, m.kv, ids[..i], g) == |m.cpu[g]|
    ensures |gpu| == Groups(c) && forall g :: 0 <= g < |gpu| ==> |cpu[g]| >= |gpu[g]|
  {
    hide RetainedTable, RetainedSum, Groups;
    forall g | 0 <= g < |gpu| ensures |cpu[g]| >= |gpu[g]| {
      RetainedSumSnoc(c, m.kv, ids, i, g);
      RetainedSumPrefix(c, m.kv, ids, i + 1, g);
    }
  }

  lemma DroppedStep(m: Manager, s: State, t: State, id: int)
    requires Freed(s, t, id)
    ensures DropStep(m.(kv := s), m.(kv := t), id)
  {
    hide Freed;
  }

  lemma RequestIs(saved: map<int, Swapped>, seqs: Group, i: nat)
    requires i < |seqs| && seqs[i].id in saved
    ensures |SwapRequests(saved, seqs)| == |seqs|
    ensures SwapRequests(saved, seqs)[i] == Request(seqs[i].id, saved[seqs[i].id].length, saved[seqs[i].id].evictedTokens)
    ensures SwapRequests(saved, seqs)[..i + 1] == SwapRequests(saved, seqs)[..i] + [SwapRequests(saved, seqs)[i]]
  {
  }

  lemma RestoredOne(c: Config, p: CpuConfig, m: Manager, n: Manager, id: int, r: Request)
    requires id in m.saved && r == Request(id, m.saved[id].length, m.saved[id].evictedTokens)
    requires n.cpu == m.cpu && n.saved == m.saved && |m.kv.free| == Groups(c) && CanAllocate(c, m.kv, id, r.len, r.evicted)
    requires Allocated(c, m.kv, n.kv, id, r.len, WholeBlocks(c, r.evicted))
    ensures RestoreStep(c, m, n, id)
  {
    hide Allocated, Groups, NumBlocks, WholeBlocks, Aligned;
  }

  lemma MovesOfRestore(c: Config, m: Manager, n: Manager, id: int)
    requires id in m.saved && |m.saved[id].tables| == Groups(c) && SameShape(m.saved[id].tables, RetainedTables(c, n.kv, id))
    ensures RestoreMoves(c, m, n, id) == Moves(m.saved[id].tables, RetainedTables(c, n.kv, id), Groups(c))
  {
    hide Moves, RetainedTables, Groups;
  }
}
