/**
 Programs against the block manager in which a positive answer is followed by a failure:
 the conditions of the admission lemmas are needed, and the states that violate them are
 reached from an empty manager.
 */
module ELLMWitnesses {
  import opened Arithmetic
  import opened Results
  import opened KVState
  import opened KVSpec
  import opened KVAppend
  import opened KVSharing
  import opened KVRecompute
  import opened KVPlans
  import opened TokenLayerCache
  import opened ELLMSwap
  import opened ELLMAdmission
  import opened ELLMSwapSteps
  import opened ELLMBlockManager
  import opened ELLMSoundness
  import opened ELLMSwapAdmission
  import opened PolicyPlans
  import opened ELLMRuns
  import P = EllmPolicy

  // ---------------------------------------------------------------- one sequence at a time

  lemma OneMember(q: Seq)
    ensures GetSeqs([q], q.status) == [q] && SeqIds([q]) == [q.id] && DistinctIds([q])
    ensures Requests([q]) == [Request(q.id, q.len, 0)]
  {
    assert [q][..0] == [];
    assert GetSeqs([], q.status) == [];
  }

  lemma OneNeed(c: Config, r: Request)
    ensures NeedSum(c, [r]) == Need(c, r)
  {
    assert [r][..0] == [];
  }

  /** A length of whole blocks. */
  lemma WholeLength(c: Config, n: nat)
    ensures Aligned(c, n * c.blockSize) && NumBlocks(c, n * c.blockSize) == n && WholeBlocks(c, 0) == 0 && Aligned(c, 0)
    ensures n > 0 ==> n * c.blockSize > 0
  {
    AlignedProduct(c, n);
    BlocksOnAppend(c, n * c.blockSize);
    WholeZero(c);
    if n > 0 { MulMono(1, n, c.blockSize); }
  }

  /** A store without sequences has all its blocks free. */
  lemma EmptyIsFree(c: Config, s: State)
    requires Inv(c, s) && s.lens == map[]
    ensures |s.free| == Groups(c) && forall g :: 0 <= g < Groups(c) ==> |s.free[g]| == c.numBlocks
  {
    forall k | k in s.entries || k in s.temps ensures false { NoKeys(c, s, k.seqId); }
    InvPools(c, s);
    hide Inv;
    forall g | 0 <= g < Groups(c) ensures |s.free[g]| == c.numBlocks {
      FreeAndUsed(c, s, g);
      assert UsedBlocks(s, g) == {};
    }
  }

  lemma IsFree(c: Config, p: CpuConfig, m: Manager, g: nat, b: nat)
    requires NoCpuLeak(c, p, m) && m.saved == map[] && g < Groups(c) && b < p
    ensures |m.cpu| == Groups(c) && b in m.cpu[g]
  {
    hide Groups;
  }

  /** Without swapped sequences all CPU blocks are free. */
  lemma NothingSavedIsFree(c: Config, p: CpuConfig, m: Manager)
    requires CpuDisjoint(c, p, m) && NoCpuLeak(c, p, m) && m.saved == map[]
    ensures |m.cpu| == Groups(c) && forall g :: 0 <= g < Groups(c) ==> |m.cpu[g]| == p
  {
    forall g | 0 <= g < Groups(c) ensures |m.cpu[g]| == p {
      forall b: nat | b < p ensures b in m.cpu[g] { IsFree(c, p, m, g, b); }
      Complement(m.cpu[g], {}, p);
    }
  }

  lemma OneAllocated(c: Config, run: seq<State>, id: int, len: nat)
    requires AllocRun(c, run, [Request(id, len, 0)])
    ensures |run| == 2 && Inv(c, run[0]) && Inv(c, run[1]) && Allocated(c, run[0], run[1], id, len, 0)
  {
    hide Inv, Allocated;
    WholeZero(c);
    var rs := [Request(id, len, 0)];
    assert Allocated(c, run[0], run[0 + 1], rs[0].id, rs[0].len, WholeBlocks(c, rs[0].evicted));
  }

  lemma AllocatedFree(c: Config, s: State, t: State, id: int, len: nat, p: nat)
    requires Allocated(c, s, t, id, len, p)
    ensures t.lens == s.lens[id := len] && t.evicted == s.evicted[id := p] && |s.free| == |t.free| == Groups(c)
    ensures forall g :: 0 <= g < Groups(c) ==> |s.free[g]| == |t.free[g]| + (NumBlocks(c, len) - p)
  {
    hide GrownBy, NumBlocks;
  }

  /** Saving and dropping the only sequence, with nothing evicted. */
  lemma SavedAndDropped(c: Config, p: CpuConfig, m0: Manager, m1: Manager, m2: Manager, id: int, len: nat)
    requires ManagerInv(c, p, m0) && SaveStep(c, m0, m1, id) && DropStep(m1, m2, id)
    requires m0.kv.lens == map[id := len] && id in m0.kv.evicted && m0.kv.evicted[id] == 0
    ensures m2.kv.lens == map[] && id in m2.saved && m2.saved[id].length == len && m2.saved[id].evictedTokens == 0
    ensures m2.saved.Keys == m0.saved.Keys + {id} && m2.saved == m1.saved && m2.cpu == m1.cpu
  {
    hide Inv, RetainedTable;
  }

  /** A new sequence of n full blocks in a store without sequences. */
  method NewSequence(m: ELLMBlockSpaceManager, id: int, n: nat)
    requires m.Valid() && m.kv.sequenceLengths == map[] && 1 <= n <= m.kv.cfg.numBlocks
    modifies m, m.kv
    ensures m.Valid() && m.freeCpuBlocks == old(m.freeCpuBlocks) && m.swappedSequences == old(m.swappedSequences)
    ensures m.kv.sequenceLengths == map[id := n * m.kv.cfg.blockSize] && id in m.kv.evictedPrefixBlocks && m.kv.evictedPrefixBlocks[id] == 0
    ensures |m.kv.freeBlocks| == Groups(m.kv.cfg)
    ensures forall g :: 0 <= g < Groups(m.kv.cfg) ==> |m.kv.freeBlocks[g]| + n == m.kv.cfg.numBlocks
  {
    hide Inv, Groups, NumBlocks, WholeBlocks, Aligned, NeedSum, Allocated, AllocRun, CpuDisjoint, Requests, GetSeqs, DistinctIds;
    var c, q := m.kv.cfg, Seq(id, n * m.kv.cfg.blockSize, WAITING);
    ghost var s := m.kv.S();
    OneMember(q);
    WholeLength(c, n);
    EmptyIsFree(c, s);
    OneNeed(c, Request(id, q.len, 0));
    var r, run := m.Allocate([q]);
    OneAllocated(c, run, id, q.len);
    AllocatedFree(c, s, m.kv.S(), id, q.len, 0);
  }

  /** Swaps out the only live sequence. */
  method SwapOutOnly(m: ELLMBlockSpaceManager, id: int, n: nat) returns (ghost saved: Manager)
    requires m.Valid() && m.kv.sequenceLengths == map[id := n * m.kv.cfg.blockSize] && n >= 1
    requires id in m.kv.evictedPrefixBlocks && m.kv.evictedPrefixBlocks[id] == 0
    requires |m.freeCpuBlocks| == Groups(m.kv.cfg) && forall g :: 0 <= g < Groups(m.kv.cfg) ==> |m.freeCpuBlocks[g]| >= n
    modifies m, m.kv
    ensures m.Valid() && m.kv.sequenceLengths == map[]
    ensures SaveStep(m.kv.cfg, old(m.M()), saved, id) && saved.saved == m.swappedSequences && saved.cpu == m.freeCpuBlocks
    ensures m.swappedSequences.Keys == old(m.swappedSequences.Keys) + {id}
    ensures m.swappedSequences[id].length == n * m.kv.cfg.blockSize && m.swappedSequences[id].evictedTokens == 0
  {
    hide Inv, Groups, NumBlocks, WholeBlocks, Aligned, CpuDisjoint, GetSeqs, DistinctIds, SeqIds, SaveStep, DropStep, RetainedTable,
         AllSaveMoves, SameCpu;
    var c, q := m.kv.cfg, Seq(id, n * m.kv.cfg.blockSize, RUNNING);
    ghost var m0 := m.M();
    OneMember(q);
    WholeLength(c, n);
    forall g | 0 <= g < Groups(c) ensures RetainedSum(c, m0.kv, [id], g) == n { OneRetained(c, m0.kv, id, n, g); }
    var r, saves, drops := m.SwapOut([q]);
    OneSaved(c, saves, drops, id);
    saved := saves[1];
    SavedAndDropped(c, m.numCpuBlocks, m0, saved, m.M(), id, q.len);
  }

  lemma OneRetained(c: Config, s: State, id: int, n: nat, g: nat)
    requires Inv(c, s) && s.lens == map[id := n * c.blockSize] && id in s.evicted && s.evicted[id] == 0
    ensures RetainedSum(c, s, [id], g) == n
  {
    hide Inv, RetainedTable, NumBlocks;
    RetainedLength(c, s, id, g);
    WholeLength(c, n);
    assert [id][..0] == [];
  }

  lemma OneSaved(c: Config, saves: seq<Manager>, drops: seq<Manager>, id: int)
    requires SaveRun(c, saves, [id]) && DropRun(drops, [id])
    ensures |saves| == |drops| == 2 && SaveStep(c, saves[0], saves[1], id) && DropStep(drops[0], drops[1], id)
  {
    hide SaveStep, DropStep;
    assert SaveStep(c, saves[0], saves[0 + 1], [id][0]) && DropStep(drops[0], drops[0 + 1], [id][0]);
  }

  /** A manager that has swapped out its only sequence, of n full blocks. */
  method SwappedOut(c: Config, n: nat) returns (m: ELLMBlockSpaceManager)
    requires 1 <= n <= c.numBlocks
    ensures fresh(m) && fresh(m.kv) && m.Valid() && m.kv.cfg == c && m.numCpuBlocks == 2 * n
    ensures NoCpuLeak(c, 2 * n, m.M()) && m.kv.sequenceLengths == map[] && m.swappedSequences.Keys == {0}
    ensures m.swappedSequences[0].length == n * c.blockSize && m.swappedSequences[0].evictedTokens == 0
    ensures |m.freeCpuBlocks| == Groups(c) && forall g :: 0 <= g < Groups(c) ==> |m.freeCpuBlocks[g]| == n
  {
    hide Inv, Groups, CpuDisjoint, NoCpuLeak, SaveStep;
    m := new ELLMBlockSpaceManager(c, 2 * n, 0);
    ghost var m0 := m.M();
    NothingSavedIsFree(c, 2 * n, m0);
    NewSequence(m, 0, n);
    ghost var m1 := m.M();
    CpuSideOf(c, 2 * n, m0, m1);
    var saved := SwapOutOnly(m, 0, n);
    SavedPool(c, 2 * n, m1, saved, m.M(), 0, n);
  }

  lemma CpuSideOf(c: Config, p: CpuConfig, m: Manager, n: Manager)
    requires NoCpuLeak(c, p, m) && n.cpu == m.cpu && n.saved == m.saved
    ensures NoCpuLeak(c, p, n)
  {
    hide Owned;
  }

  lemma SavedPool(c: Config, p: CpuConfig, m0: Manager, saved: Manager, m: Manager, id: int, n: nat)
    requires ManagerInv(c, p, m0) && NoCpuLeak(c, p, m0) && SaveStep(c, m0, saved, id) && id !in m0.saved
    requires m.saved == saved.saved && m.cpu == saved.cpu && m0.kv.lens == map[id := n * c.blockSize]
    requires id in m0.kv.evicted && m0.kv.evicted[id] == 0
    ensures NoCpuLeak(c, p, m) && |m0.cpu| == |m.cpu| == Groups(c)
    ensures forall g :: 0 <= g < Groups(c) ==> |m.cpu[g]| + n == |m0.cpu[g]|
  {
    SaveKeepsBlocks(c, p, m0, saved, id);
    CpuSideOf(c, p, saved, m);
    WholeLength(c, n);
    forall g | 0 <= g < Groups(c) ensures |RetainedTable(c, m0.kv, id, g)| == n {
      hide NumBlocks, RetainedTable, SaveStep, NoCpuLeak, CpuDisjoint, Inv;
      RetainedLength(c, m0.kv, id, g);
    }
    hide Inv, NoCpuLeak, CpuDisjoint, RetainedTable, NumBlocks, Aligned, WholeBlocks;
  }

  // ---------------------------------------------------------------- the append after a swap in

  /**
   The whole pool is one sequence's, and its last block is full: can_swap_in says OK,
   swap_in succeeds, and the next append raises.
   */
  method AdmittedAppendRaises(c: Config) returns (status: AllocStatus, swapped: Result<seq<Copy>>, appended: Result<seq<Copy>>)
    ensures status == OK && swapped.Ok? && appended == Err(RuntimeError)
  {
    hide Inv, Groups, NumBlocks, WholeBlocks, Aligned, NeedSum, Need, CpuDisjoint, NoCpuLeak, GetSeqs, DistinctIds, SeqIds,
         RestoreRun, DiscardRun, AllRestoreMoves, SwapRequests, AllocArgsOk, Allocated, TailRetained, GrowthRun, RunCopies, Unchanged;
    var n := c.numBlocks;
    var m := SwappedOut(c, n);
    var q := Seq(0, n * c.blockSize, SWAPPED);
    OneMember(q);
    ghost var m0 := m.M();
    OneRequest(c, m.numCpuBlocks, m0, q, n);
    status := m.CanSwapIn([q], 0);
    ghost var restores, discards;
    swapped, restores, discards := m.SwapIn([q]);
    OneRestored(c, restores, discards, q, n);
    ghost var s := m.kv.S();
    ghost var run;
    appended, run := m.AppendSlots(Seq(0, q.len + 1, RUNNING));
    NoRoom(c, s, run, 0, n);
  }

  lemma OneRequest(c: Config, p: CpuConfig, m: Manager, q: Seq, n: nat)
    requires ManagerInv(c, p, m) && m.kv.lens == map[] && q.id in m.saved && 1 <= n <= c.numBlocks
    requires m.saved[q.id].length == n * c.blockSize && m.saved[q.id].evictedTokens == 0
    ensures AllSwapped(m.saved, [q]) && NeedSum(c, SwapRequests(m.saved, [q])) == n && AllocatableAll(c, m.kv, SwapRequests(m.saved, [q]))
    ensures |m.kv.free| == Groups(c) && forall g :: 0 <= g < Groups(c) ==> |m.kv.free[g]| == c.numBlocks
  {
    EmptyIsFree(c, m.kv);
    WholeLength(c, n);
    hide Inv, NumBlocks, WholeBlocks, Aligned, CpuDisjoint, NeedSum;
    var r := Request(q.id, n * c.blockSize, 0);
    assert SwapRequests(m.saved, [q]) == [r];
    OneNeed(c, r);
    SavedIsAskable(c, p, m, q.id);
  }

  lemma OneRestored(c: Config, restores: seq<Manager>, discards: seq<Manager>, q: Seq, n: nat)
    requires RestoreRun(c, restores, SeqIds([q])) && DiscardRun(c, discards, SeqIds([q])) && discards[0] == restores[1]
    requires q.id in restores[0].saved && restores[0].saved[q.id].length == n * c.blockSize && restores[0].saved[q.id].evictedTokens == 0
    requires restores[0].kv.lens == map[] && |restores[0].kv.free| == Groups(c)
    requires forall g :: 0 <= g < Groups(c) ==> |restores[0].kv.free[g]| == c.numBlocks
    ensures |restores| == |discards| == 2
    ensures var t := discards[1].kv;
            && t.lens == map[q.id := n * c.blockSize] && q.id in t.evicted && t.evicted[q.id] == 0 && |t.free| == Groups(c)
            && forall g :: 0 <= g < Groups(c) ==> |t.free[g]| + n == c.numBlocks
  {
    assert SeqIds([q]) == [q.id];
    hide RestoreStep, DiscardStep, Groups, NumBlocks, WholeBlocks, Allocated;
    assert RestoreStep(c, restores[0], restores[0 + 1], SeqIds([q])[0]) && DiscardStep(c, discards[0], discards[0 + 1], SeqIds([q])[0]);
    RestoredAndDiscarded(c, restores[0], restores[1], discards[1], q.id, n);
  }

  lemma RestoredAndDiscarded(c: Config, m0: Manager, m1: Manager, m2: Manager, id: int, n: nat)
    requires RestoreStep(c, m0, m1, id) && DiscardStep(c, m1, m2, id) && m0.kv.lens == map[]
    requires m0.saved[id].length == n * c.blockSize && m0.saved[id].evictedTokens == 0
    ensures var s, t := m0.kv, m2.kv;
            && t.lens == map[id := n * c.blockSize] && id in t.evicted && t.evicted[id] == 0 && |s.free| == |t.free| == Groups(c)
            && forall g :: 0 <= g < Groups(c) ==> |t.free[g]| + n == |s.free[g]|
  {
    hide Allocated, NumBlocks;
    WholeLength(c, n);
    AllocatedFree(c, m0.kv, m1.kv, id, n * c.blockSize, 0);
  }

  /** With every block taken and the last one full, no append succeeds. */
  lemma NoRoom(c: Config, s: State, run: seq<State>, id: int, n: nat)
    requires |run| > 0 && run[0] == s && GrowthRun(c, run, id) && s.lens == map[id := n * c.blockSize] && id in s.evicted
    requires |s.free| == Groups(c) && forall g :: 0 <= g < Groups(c) ==> |s.free[g]| + n == c.numBlocks
    requires n == c.numBlocks
    ensures |run| == 1 && TailRetained(c, s, id)
  {
    WholeLength(c, n);
    hide WholeBlocks, NumBlocks, Aligned, GrowthRun, Groups;
    if |run| > 1 { FirstGrowth(c, run, id); }
  }

  lemma FirstGrowth(c: Config, run: seq<State>, id: int)
    requires |run| > 1 && GrowthRun(c, run, id) && id in run[0].lens && Aligned(c, run[0].lens[id])
    ensures Groups(c) > 0 && |run[0].free| == Groups(c) && run[0].free[0] != []
  {
    SomeGroup(c);
    hide Inv, CopyList, TailGrown, Groups, Aligned;
    assert AppendedSomehow(c, run[0], run[0 + 1], id);
    var copies :| Appended(c, run[0], run[1], id, copies);
    assert TailPlaced(c, run[0], run[1], id, 0);
  }

  // ---------------------------------------------------------------- a sequence that is live and swapped

  /** A live sequence with a swapped copy of the same id: can_swap_in says OK and swap_in raises. */
  method AdmittedSwapInRaises(c: Config) returns (status: AllocStatus, swapped: Result<seq<Copy>>)
    requires c.numBlocks >= 2
    ensures status == OK && swapped.Err?
  {
    hide Inv, Groups, NumBlocks, WholeBlocks, Aligned, NeedSum, Need, CpuDisjoint, NoCpuLeak, GetSeqs, DistinctIds, SeqIds,
         RestoreRun, DiscardRun, AllRestoreMoves, SwapRequests, Unchanged;
    var m := SwappedOut(c, 1);
    NewSequence(m, 0, 1);
    var q := Seq(0, 1 * c.blockSize, SWAPPED);
    OneMember(q);
    LiveRequest(c, m.numCpuBlocks, m.M(), q);
    status := m.CanSwapIn([q], 0);
    ghost var restores, discards;
    swapped, restores, discards := m.SwapIn([q]);
  }

  lemma LiveRequest(c: Config, p: CpuConfig, m: Manager, q: Seq)
    requires ManagerInv(c, p, m) && q.id in m.kv.lens && q.id in m.saved
    requires m.saved[q.id].length == 1 * c.blockSize && m.saved[q.id].evictedTokens == 0
    ensures AllSwapped(m.saved, [q]) && NeedSum(c, SwapRequests(m.saved, [q])) == 1
    ensures !AllocatableAll(c, m.kv, SwapRequests(m.saved, [q]))
  {
    WholeLength(c, 1);
    hide Inv, NumBlocks, WholeBlocks, Aligned, CpuDisjoint, NeedSum;
    var r := Request(q.id, 1 * c.blockSize, 0);
    assert SwapRequests(m.saved, [q]) == [r];
    OneNeed(c, r);
    SavedIsAskable(c, p, m, q.id);
    assert [r][0] == r;
  }

  /** Swapping it out a second time loses the CPU blocks of the older copy. */
  method OverwrittenCopyLeaks(c: Config) returns (m: ELLMBlockSpaceManager, ghost before: Manager)
    ensures fresh(m) && fresh(m.kv) && m.Valid() && m.kv.cfg == c
    ensures NoCpuLeak(c, m.numCpuBlocks, before) && !NoCpuLeak(c, m.numCpuBlocks, m.M())
  {
    hide Inv, Groups, CpuDisjoint, NoCpuLeak, SaveStep;
    m := SwappedOut(c, 1);
    ghost var m0 := m.M();
    NewSequence(m, 0, 1);
    before := m.M();
    CpuSideOf(c, m.numCpuBlocks, m0, before);
    var saved := SwapOutOnly(m, 0, 1);
    OldCopyHasBlocks(c, m.numCpuBlocks, before, 0);
    OverwriteLeaks(c, m.numCpuBlocks, before, saved, 0);
    if NoCpuLeak(c, m.numCpuBlocks, m.M()) { CpuSideOf(c, m.numCpuBlocks, m.M(), saved); }
  }

  lemma OldCopyHasBlocks(c: Config, p: CpuConfig, m: Manager, id: int)
    requires ManagerInv(c, p, m) && id in m.saved && m.saved[id].length == 1 * c.blockSize && m.saved[id].evictedTokens == 0
    ensures !EmptyTables(m.saved[id])
  {
    WholeLength(c, 1);
    SomeGroup(c);
    hide Inv, NumBlocks, WholeBlocks, Aligned, Groups;
    assert SwappedOk(c, p, m.saved[id]);
    assert |m.saved[id].tables[0]| == 1;
  }

  // ---------------------------------------------------------------- an abort while swapped out

  /** The only sequence is aborted while it is swapped out: its CPU blocks belong to nobody who is served. */
  method AbortedSwapStrands(c: Config) returns (m: ELLMBlockSpaceManager, ghost before: Manager)
    ensures fresh(m) && fresh(m.kv) && m.Valid() && m.kv.cfg == c
    ensures Reclaimable(c, m.numCpuBlocks, before, {0}) && !Reclaimable(c, m.numCpuBlocks, m.M(), {})
  {
    hide Inv, Groups, CpuDisjoint, NoCpuLeak, Reclaimable, DropStep;
    m := SwappedOut(c, 1);
    before := m.M();
    ServedOnly(c, m.numCpuBlocks, before);
    m.Free(Seq(0, c.blockSize, SWAPPED));
    OldCopyHasBlocks(c, m.numCpuBlocks, before, 0);
    FreeStrands(c, m.numCpuBlocks, before, m.M(), 0, {0});
    assert {0} - {0} == {};
  }

  lemma ServedOnly(c: Config, p: CpuConfig, m: Manager)
    requires NoCpuLeak(c, p, m) && m.saved.Keys == {0}
    ensures Reclaimable(c, p, m, {0})
  {
    forall g, b | 0 <= g < Groups(c) && 0 <= b < p ensures b in m.cpu[g] || OwnedBy(m.saved, g, b, {0}) {
      assert b in m.cpu[g] || Owned(m.saved, g, b);
    }
  }

  // ---------------------------------------------------------------- a setting that rises

  /** Of two blocks one layer's setting evicts one and the full setting none. */
  lemma TwoSettings(c: Config)
    requires c.numLayers >= 2
    ensures EvictedBlocks(c, 2, 1) == 1 && EvictedBlocks(c, 2, c.numLayers) == 0
  {
    DivUnique(c.numLayers + 1, c.numLayers, 1, 1 % c.numLayers);
    DivUnique(3 * c.numLayers - 1, c.numLayers, 2, c.numLayers - 1);
  }

  /** A sequence of two blocks is evicted to one layer's setting; when all layers may be cached again, evicting raises. */
  method RisenSettingRaises(c: Config) returns (first: Result<nat>, second: Result<nat>)
    requires c.numLayers >= 2 && c.numBlocks >= 2
    ensures first == Ok(c.blockSize) && second == Err(ValueError)
  {
    hide Inv, Groups, CpuDisjoint, NoCpuLeak, NumBlocks, WholeBlocks, Aligned, EvictedBlocks, Evicted, CanEvict, ClampedBlocks;
    var m := new ELLMBlockSpaceManager(c, 0, 0);
    NewSequence(m, 0, 2);
    var q := Seq(0, 2 * c.blockSize, RUNNING);
    WholeLength(c, 2);
    TwoSettings(c);
    ghost var s := m.kv.S();
    LiveIds(c, s);
    NoTemps(c, s);
    RatioAccepted(c, s, 0, 1);
    first := m.EvictToCachedLayerRatio(q, 1);
    ghost var t := m.kv.S();
    EvictedLens(c, s, t);
    RatioAccepted(c, t, 0, c.numLayers);
    second := m.EvictToCachedLayerRatio(q, c.numLayers);
  }

  // ---------------------------------------------------------------- the policy's own choice

  /** One request of two blocks and three of one, twenty layers in groups of four, and two blocks in each pool. */
  function Requests4(): P.PolicyInput {
    P.PolicyInput([2, 1, 1, 1], 4, 20, 2, 1, 4)
  }

  lemma PaddedTokens4(b: int)
    requires 1 <= b <= 4
    ensures P.PaddedTokens(Requests4(), b) == b + 1
  {
    var p := Requests4();
    assert P.PaddedTokens(p, 0) == 0;
    assert P.PaddedTokens(p, 1) == 2;
    assert P.PaddedTokens(p, 2) == 3;
    assert P.PaddedTokens(p, 3) == 4;
    assert P.PaddedTokens(p, 4) == 5;
  }

  lemma Work4(b: int, c: int)
    requires 1 <= b <= 4
    ensures P.Work(Requests4(), b, c) == 60 - 2 * c + 20 * b
  {
    var p := Requests4();
    assert P.Work(p, 0, c) == 0;
    assert P.Work(p, 1, c) == 80 - 2 * c;
    assert P.Work(p, 2, c) == 100 - 2 * c;
    assert P.Work(p, 3, c) == 120 - 2 * c;
    assert P.Work(p, 4, c) == 140 - 2 * c;
  }

  lemma Feasible4(b: int, c: int)
    requires P.ValidInput(Requests4()) && P.Feasible(Requests4(), b, c)
    ensures 1 <= b <= 4 && 4 <= c <= 20 && c % 4 == 0 && (b + 1) * (c + P.Min(4, 20 - c)) <= 40
  {
    PaddedTokens4(b);
    P.DemandIs(Requests4(), b + 1, c);
  }

  /** All four requests with four cached layers are feasible and outrank every other feasible point. */
  lemma Best4(b: int, c: int)
    requires P.ValidInput(Requests4()) && P.Feasible(Requests4(), b, c) && (b != 4 || c != 4)
    ensures P.Feasible(Requests4(), 4, 4) && P.Above(P.RankOf(Requests4(), 4, 4), P.RankOf(Requests4(), b, c))
  {
    PaddedTokens4(4);
    assert P.Feasible(Requests4(), 4, 4);
    Feasible4(b, c);
    Work4(b, c);
    Work4(4, 4);
    hide P.Work, P.Feasible, P.PaddedTokens;
    assert b == 4 ==> c + P.Min(4, 20 - c) <= 8;
    assert b == 3 ==> c + P.Min(4, 20 - c) <= 10;
    assert b == 2 ==> c + P.Min(4, 20 - c) <= 13;
    assert 33 * b < 60 - 2 * c + 20 * b;
    Slower(b as real, (60 - 2 * c + 20 * b) as real);
  }

  lemma Slower(b: real, work: real)
    requires work > 33.0 * b && b > 0.0
    ensures b / work < 4.0 / 132.0
  {
    var q := b / work;
    assert b == q * work;
    AtLeastTimes(q, 1.0 / 33.0, work);
  }

  lemma AtLeastTimes(a: real, b: real, w: real)
    requires w > 0.0
    ensures a >= b ==> a * w >= b * w
  {
  }

  lemma LastBlock(c: Config, t: State, h: Key)
    requires Inv(c, t) && h in t.entries && t.lens.Keys == {0} && 0 in t.evicted && t.evicted[0] == 1 && NumBlocks(c, t.lens[0]) == 2
    ensures h == Key(0, 1, h.group)
  {
    hide Ledger, TempsOk, NumBlocks;
    assert Retained(c, t, h);
  }

  /** One sequence of two blocks, the first of them evicted, leaves all but one block free. */
  lemma OneBlockLeft(c: Config, t: State, g: nat)
    requires Inv(c, t) && t.lens.Keys == {0} && 0 in t.evicted && t.evicted[0] == 1 && NumBlocks(c, t.lens[0]) == 2
    requires t.temps == map[] && g < Groups(c)
    ensures |t.free| == Groups(c) && |t.free[g]| + 1 == c.numBlocks
  {
    hide NumBlocks, Groups, Ledger, TablesOk, TempsOk;
    FreeAndUsed(c, t, g);
    EvictKeyStored(c, t, 0, 1, g);
    hide Inv;
    forall h | h in t.entries && h.group == g ensures h == Key(0, 1, g) { LastBlock(c, t, h); }
    assert UsedBlocks(t, g) == {t.entries[Key(0, 1, g)].phys};
  }

  /** Nothing is evicted, so nothing is recomputed. */
  lemma NoTemps(c: Config, s: State)
    requires Inv(c, s) && forall id :: id in s.evicted ==> s.evicted[id] == 0
    ensures s.temps == map[]
  {
    hide Ledger, TablesOk;
    assert forall k :: k !in s.temps;
  }

  lemma Shares()
    ensures NumBlocks(RawConfig(20, 1, 2, 4), 2) == 2 && NumBlocks(RawConfig(20, 1, 2, 4), 1) == 1
    ensures EvictedBlocks(RawConfig(20, 1, 2, 4), 2, 4) == 1 && WholeBlocks(RawConfig(20, 1, 2, 4), 1) == 1
  {
  }

  lemma SomeFeasible4()
    ensures P.ValidInput(Requests4()) && P.Feasible(Requests4(), 4, 4)
  {
    PaddedTokens4(4);
  }

  lemma Chosen4(d: P.Decision)
    requires P.ValidInput(Requests4()) && P.Feasible(Requests4(), d.batchSize, d.cachedLayers)
    requires forall b, c :: P.Feasible(Requests4(), b, c)
               ==> !P.Above(P.RankOf(Requests4(), b, c), P.RankOf(Requests4(), d.batchSize, d.cachedLayers))
    ensures d.batchSize == 4 && d.cachedLayers == 4
  {
    hide P.Feasible, P.Above, P.RankOf;
    if d.batchSize != 4 || d.cachedLayers != 4 { Best4(d.batchSize, d.cachedLayers); }
  }

  /** A new sequence that fits every pool can be admitted and allocated. */
  lemma Fits(c: Config, s: State, q: Seq, n: nat)
    requires q.id !in s.lens && q.len > 0 && NumBlocks(c, q.len) == n
    requires |s.free| == Groups(c) && forall g :: 0 <= g < Groups(c) ==> |s.free[g]| >= n
    ensures NeedSum(c, Requests([q])) == n && AllocatableAll(c, s, Requests([q]))
  {
    OneMember(q);
    hide NumBlocks, WholeBlocks, Aligned, NeedSum, Groups;
    WholeNeed(c, q);
    WholeZero(c);
    OneNeed(c, Request(q.id, q.len, 0));
  }

  lemma Taken(c: Config, s: State, t: State, run: seq<State>, q: Seq, n: nat)
    requires AllocRun(c, run, Requests([q])) && |run| > 0 && run[0] == s && run[|run| - 1] == t && NumBlocks(c, q.len) == n
    ensures t.lens == s.lens[q.id := q.len] && t.evicted == s.evicted[q.id := 0] && |s.free| == |t.free| == Groups(c)
    ensures forall g :: 0 <= g < Groups(c) ==> |s.free[g]| == |t.free[g]| + n
  {
    hide NumBlocks, Groups, AllocRun;
    OneMember(q);
    OneAllocated(c, run, q.id, q.len);
    AllocatedFree(c, s, t, q.id, q.len, 0);
  }

  /** No room for the one evicted block. */
  lemma NoPlan(c: Config, s: State, g: nat)
    requires |s.free| == Groups(c) && g < Groups(c) && s.free[g] == []
    requires 0 in s.evicted && s.evicted[0] == 1 && 1 in s.evicted && s.evicted[1] == 0
    ensures !PlanFeasible(c, s, [0, 1], g)
  {
    assert [0, 1][..1] == [0] && [0][..0] == [];
    assert SumEvicted(s, []) == 0;
    assert SumEvicted(s, [0]) == 1;
    assert SumEvicted(s, [0, 1]) == 1;
  }

  /** The first two requests come in, with the first evicted to four cached layers in between. */
  method TwoComeIn(m: ELLMBlockSpaceManager, cached: int) returns (first: AllocStatus, evicted: Result<nat>, second: AllocStatus)
    requires m.Valid() && m.kv.cfg == RawConfig(20, 1, 2, 4) && m.kv.sequenceLengths == map[] && m.watermarkBlocks == 0 && cached == 4
    modifies m, m.kv
    ensures m.Valid() && first == OK && evicted == Ok(1) && second == OK
    ensures m.kv.sequenceLengths == map[0 := 2, 1 := 1] && m.kv.evictedPrefixBlocks == map[0 := 1, 1 := 0]
    ensures |m.kv.freeBlocks| == Groups(m.kv.cfg) && forall g :: 0 <= g < Groups(m.kv.cfg) ==> m.kv.freeBlocks[g] == []
  {
    hide Inv, Groups, NumBlocks, WholeBlocks, Aligned, NeedSum, Allocated, AllocRun, CpuDisjoint, Requests, GetSeqs, DistinctIds,
         EvictedBlocks, Evicted, AllocatableAll;
    var c := m.kv.cfg;
    Shares();
    ghost var s0 := m.kv.S();
    EmptyIsFree(c, s0);
    LiveIds(c, s0);
    var q0, q1 := Seq(0, 2, WAITING), Seq(1, 1, WAITING);
    OneMember(q0);
    OneMember(q1);
    Fits(c, s0, q0, 2);
    first := m.CanAllocate([q0]);
    var r;
    ghost var run;
    r, run := m.Allocate([q0]);
    ghost var s1 := m.kv.S();
    Taken(c, s0, s1, run, q0, 2);
    NoTemps(c, s1);
    evicted := m.EvictToCachedLayerRatio(q0, cached);
    ghost var s2 := m.kv.S();
    EvictedLens(c, s1, s2);
    InvPools(c, s2);
    forall g | 0 <= g < Groups(c) ensures |s2.free[g]| == 1 { OneBlockLeft(c, s2, g); }
    Fits(c, s2, q1, 1);
    second := m.CanAllocate([q1]);
    r, run := m.Allocate([q1]);
    Taken(c, s2, m.kv.S(), run, q1, 1);
  }

  /**
   The policy selects all four requests with four cached layers. The manager admits the
   first two, and evicting to that setting succeeds; then no plan can be built for them.
   */
  method SelectedBatchHasNoPlan() returns (d: Result<P.Decision>, first: AllocStatus, evicted: Result<nat>, second: AllocStatus,
                                           plans: Result<seq<Plan>>)
    ensures d.Ok? && d.value.batchSize == 4 && d.value.cachedLayers == 4
    ensures first == OK && evicted == Ok(1) && second == OK && plans.Err?
  {
    hide Inv, Groups, CpuDisjoint, NoCpuLeak, PlanFeasible, P.Feasible, P.RankOf, P.Above, P.NoBetter, P.Accounted, Unchanged, LeasedTemps, PlanOf,
         PartitionsLayers;
    SomeFeasible4();
    d := P.SelectEllmPolicy(Requests4());
    Chosen4(d.value);
    var m := new ELLMBlockSpaceManager(RawConfig(20, 1, 2, 4), 0, 0);
    first, evicted, second := TwoComeIn(m, d.value.cachedLayers);
    SomeGroup(m.kv.cfg);
    NoPlan(m.kv.cfg, m.kv.S(), 0);
    ghost var leased;
    plans, leased := m.kv.BuildLayerGroupPlans([0, 1]);
  }

  lemma EvictedLens(c: Config, s: State, t: State)
    requires Evicted(c, s, t, 0, 1)
    ensures t.lens == s.lens && t.evicted == s.evicted[0 := 1] && t.temps == s.temps
  {
    hide Span;
  }
}
