/** What the swap tests promise: swap_in and swap_out themselves, the append that follows, and the CPU pool. */
module ELLMSwapAdmission {
  import opened KVState
  import opened KVSpec
  import opened KVAppend
  import opened KVRecompute
  import opened KVPlans
  import opened ELLMSwap
  import opened ELLMAdmission
  import opened ELLMSwapSteps
  import opened ELLMSoundness

  // ---------------------------------------------------------------- can_swap_in against swap_in

  lemma SavedIsAskable(c: Config, p: CpuConfig, m: Manager, id: int)
    requires CpuDisjoint(c, p, m) && id in m.saved
    ensures var r := SwapRequest(m.saved, id); AllocArgsOk(c, m.kv, id, r.len, r.evicted) <==> id !in m.kv.lens
  {
    hide NumBlocks, WholeBlocks, Aligned, Groups;
    assert SwappedOk(c, p, m.saved[id]);
  }

  /** can_swap_in's OK means swap_in cannot raise, exactly when no sequence of the group is live already. */
  lemma SwapInAdmission(c: Config, p: CpuConfig, m: Manager, seqs: Group)
    requires CpuDisjoint(c, p, m) && AllSwapped(m.saved, seqs) && |m.kv.free| == Groups(c)
    requires forall g :: 0 <= g < Groups(c) ==> |m.kv.free[g]| >= NeedSum(c, SwapRequests(m.saved, seqs))
    ensures AllocatableAll(c, m.kv, SwapRequests(m.saved, seqs)) <==>
            forall i :: 0 <= i < |seqs| ==> seqs[i].id !in m.kv.lens
  {
    hide CpuDisjoint, AllocArgsOk, NeedSum, Groups;
    var rs := SwapRequests(m.saved, seqs);
    forall i | 0 <= i < |seqs|
      ensures rs[i].id == seqs[i].id
      ensures AllocArgsOk(c, m.kv, rs[i].id, rs[i].len, rs[i].evicted) <==> seqs[i].id !in m.kv.lens
    {
      SavedIsAskable(c, p, m, seqs[i].id);
    }
  }

  // ---------------------------------------------------------------- the append after a swap in

  ghost function RequestIds(rs: seq<Request>): seq<int> {
    seq(|rs|, i requires 0 <= i < |rs| => rs[i].id)
  }

  /** How many of the listed sequences fill their last block. */
  ghost function AlignedCount(c: Config, rs: seq<Request>): nat {
    if rs == [] then 0 else AlignedCount(c, rs[1..]) + if Aligned(c, rs[0].len) then 1 else 0
  }

  /** A partly filled tail block is among the retained ones. */
  ghost predicate TailKept(c: Config, r: Request) {
    Aligned(c, r.len) || WholeBlocks(c, r.evicted) <= WholeBlocks(c, r.len)
  }

  /** A private block stays private while other sequences are allocated. */
  lemma {:induction false} PrivateStays(c: Config, run: seq<State>, rs: seq<Request>, i: nat, j: nat, k: Key)
    requires AllocRun(c, run, rs) && i <= j < |run| && k in run[i].entries && k.group < Groups(c)
    requires PoolSizes(c, run[i]) && run[i].entries[k].phys < c.numBlocks
    requires run[i].refs[k.group][run[i].entries[k].phys] == 1
    ensures k in run[j].entries && run[j].entries[k] == run[i].entries[k]
    ensures PoolSizes(c, run[j]) && run[j].refs[k.group][run[j].entries[k].phys] == 1
  {
    hide Inv, NumBlocks, WholeBlocks, Groups;
    if i < j {
      PrivateStays(c, run, rs, i, j - 1, k);
      var r := rs[j - 1];
      assert Allocated(c, run[j - 1], run[j - 1 + 1], r.id, r.len, WholeBlocks(c, r.evicted));
      InvPools(c, run[j]);
    }
  }

  lemma AllocatedTail(c: Config, s: State, t: State, r: Request, g: nat)
    requires Inv(c, t) && Allocated(c, s, t, r.id, r.len, WholeBlocks(c, r.evicted)) && g < Groups(c)
    ensures r.id in t.lens && t.lens[r.id] == r.len && r.id in t.evicted && t.evicted[r.id] == WholeBlocks(c, r.evicted)
    ensures !Aligned(c, r.len) && TailKept(c, r) ==>
              var k := TailKey(c, t, r.id, g);
              k in t.entries && PoolSizes(c, t) && t.entries[k].phys < c.numBlocks
              && t.refs[g][t.entries[k].phys] == 1
  {
    BlocksOnAppend(c, r.len);
    hide Inv, NumBlocks, WholeBlocks, Aligned;
    if !Aligned(c, r.len) && TailKept(c, r) {
      assert TailKey(c, t, r.id, g) in Span(c, r.id, WholeBlocks(c, r.evicted), NumBlocks(c, r.len));
    }
  }

  lemma {:induction false} LensStay(c: Config, run: seq<State>, rs: seq<Request>, i: nat, j: nat, id: int)
    requires AllocRun(c, run, rs) && DistinctRequests(rs) && i < j < |run| && rs[i].id == id
    ensures id in run[j].lens && run[j].lens[id] == rs[i].len
    ensures id in run[j].evicted && run[j].evicted[id] == WholeBlocks(c, rs[i].evicted)
  {
    hide Inv, NumBlocks, WholeBlocks, Groups, GrownBy;
    var r := rs[j - 1];
    assert Allocated(c, run[j - 1], run[j - 1 + 1], r.id, r.len, WholeBlocks(c, r.evicted));
    if i < j - 1 { LensStay(c, run, rs, i, j - 1, id); }
  }

  /** After the swap in, a restored sequence needs a block for its next token exactly if its last block is full. */
  lemma RestoredNeeds(c: Config, run: seq<State>, rs: seq<Request>, i: nat, g: nat)
    requires AllocRun(c, run, rs) && DistinctRequests(rs) && i < |rs| && TailKept(c, rs[i]) && g < Groups(c)
    requires PoolSizes(c, run[|rs|]) && InRange(c, run[|rs|].entries)
    ensures rs[i].id in run[|rs|].lens && TailRetained(c, run[|rs|], rs[i].id)
    ensures NeedsBlock(c, run[|rs|], rs[i].id, g) <==> Aligned(c, rs[i].len)
  {
    hide Inv, Allocated, WholeBlocks, Aligned, Groups, PoolSizes, InRange;
    LensStay(c, run, rs, i, |rs|, rs[i].id);
    assert Inv(c, run[i + 1]) && Allocated(c, run[i], run[i + 1], rs[i].id, rs[i].len, WholeBlocks(c, rs[i].evicted));
    AllocatedTail(c, run[i], run[i + 1], rs[i], g);
    if !Aligned(c, rs[i].len) {
      PrivateStays(c, run, rs, i + 1, |rs|, TailKey(c, run[i + 1], rs[i].id, g));
    }
  }

  lemma {:induction false} NeedIsAligned(c: Config, t: State, rs: seq<Request>, g: nat)
    requires PoolSizes(c, t) && InRange(c, t.entries) && g < Groups(c)
    requires forall i :: 0 <= i < |rs| ==> rs[i].id in t.lens && (NeedsBlock(c, t, rs[i].id, g) <==> Aligned(c, rs[i].len))
    ensures AppendNeed(c, t, RequestIds(rs), g) == AlignedCount(c, rs)
  {
    hide NeedsBlock, Aligned, PoolSizes, InRange, Groups;
    if rs != [] {
      assert RequestIds(rs)[1..] == RequestIds(rs[1..]);
      NeedIsAligned(c, t, rs[1..], g);
    }
  }

  lemma {:induction false} FreeAfterRun(c: Config, run: seq<State>, rs: seq<Request>, n: nat)
    requires AllocRun(c, run, rs) && n <= |rs|
    ensures FreeAfter(c, run[0], run[n], NeedSum(c, rs[..n]))
  {
    hide Inv, Allocated, WholeBlocks, NumBlocks, FreeAfter, NeedSum;
    if n == 0 {
      InvPools(c, run[0]);
      NoNeed(c, run[0]);
    } else {
      FreeAfterRun(c, run, rs, n - 1);
      var r := rs[n - 1];
      assert Allocated(c, run[n - 1], run[n - 1 + 1], r.id, r.len, WholeBlocks(c, r.evicted));
      assert rs[..n] == rs[..n - 1] + [r];
      AllocatedFits(c, run[n - 1], run[n], r);
      FreeStep(c, run[0], run[n - 1], run[n], rs[..n - 1], r);
    }
  }

  lemma NoNeed(c: Config, s: State)
    requires PoolSizes(c, s)
    ensures FreeAfter(c, s, s, NeedSum(c, []))
  {
  }

  lemma AllocatedFits(c: Config, s: State, t: State, r: Request)
    requires Allocated(c, s, t, r.id, r.len, WholeBlocks(c, r.evicted))
    ensures WholeBlocks(c, r.evicted) <= NumBlocks(c, r.len)
  {
    hide GrownBy, WholeBlocks, NumBlocks;
    AnyGroup(c);
    assert |t.free[0]| >= 0;
  }

  lemma AnyGroup(c: Config)
    ensures Groups(c) > 0
  {
    CeilDivBounds(c.numLayers, c.groupSize);
  }

  /** A complete run of appends has taken a block for every sequence whose last block was full. */
  lemma {:induction false} CompleteRunTakes(c: Config, run: seq<State>, rs: seq<Request>, g: nat)
    requires AppendRun(c, run, RequestIds(rs)) && |run| == |rs| + 1 && DistinctRequests(rs) && g < Groups(c)
    requires forall i :: 0 <= i < |rs| ==> rs[i].id in run[0].lens && run[0].lens[rs[i].id] == rs[i].len
    ensures |run[0].free| == Groups(c) && |run[0].free[g]| >= AlignedCount(c, rs)
    decreases |rs|
  {
    hide Inv, Appended, Aligned;
    assert |run[0].free| == Groups(c) by { InvPools(c, run[0]); }
    if rs != [] {
      var ids := RequestIds(rs);
      assert AppendedSomehow(c, run[0], run[0 + 1], ids[0]);
      var copies :| Appended(c, run[0], run[1], ids[0], copies);
      var run', rs' := run[1..], rs[1..];
      assert RequestIds(rs') == ids[1..];
      forall i | 0 <= i < |run'| - 1 ensures AppendedSomehow(c, run'[i], run'[i + 1], RequestIds(rs')[i]) {
        assert AppendedSomehow(c, run[i + 1], run[i + 1 + 1], ids[i + 1]);
      }
      forall i | 0 <= i < |rs'| ensures rs'[i].id in run'[0].lens && run'[0].lens[rs'[i].id] == rs'[i].len {
        assert rs'[i] == rs[i + 1] && rs[0].id != rs[i + 1].id;
        AppendedOthers(c, run[0], run[1], ids[0], copies, rs'[i].id, 0);
      }
      CompleteRunTakes(c, run', rs', g);
      AppendTakes(c, run[0], run[1], ids[0], copies, g);
    }
  }

  lemma AppendTakes(c: Config, s: State, t: State, id: int, copies: seq<Copy>, g: nat)
    requires Appended(c, s, t, id, copies) && g < Groups(c)
    ensures id in s.lens && |t.free| == |s.free| == Groups(c)
    ensures |s.free[g]| >= |t.free[g]| + if Aligned(c, s.lens[id]) then 1 else 0
  {
    hide CopyList, TailGrown, Aligned;
    FreeAfterAppend(c, s, t, id, copies, g);
  }

  /** No order of the appends that follow can be completed. */
  ghost predicate NeverCompletes(c: Config, t: State, ids: seq<int>) {
    forall run :: AppendRun(c, run, ids) && run[0] == t ==> |run| <= |ids|
  }

  /** Blocks that the swap in and the appends after it take together. */
  ghost predicate RoomForBoth(c: Config, s: State, rs: seq<Request>)
    requires |s.free| == Groups(c)
  {
    forall g :: 0 <= g < Groups(c) ==> |s.free[g]| >= NeedSum(c, rs) + AlignedCount(c, rs)
  }

  lemma RoomForBothSuffices(c: Config, run: seq<State>, rs: seq<Request>)
    requires AllocRun(c, run, rs) && DistinctRequests(rs) && forall i :: 0 <= i < |rs| ==> TailKept(c, rs[i])
    requires |run[0].free| == Groups(c) && RoomForBoth(c, run[0], rs)
    ensures NeverRaises(c, run[|rs|], RequestIds(rs))
  {
    hide Inv, Allocated, Aligned, NeedsBlock, TailRetained, TailKept, NeedSum, CanAppend, AlignedCount, AppendNeed;
    var t, ids := run[|rs|], RequestIds(rs);
    InvPools(c, t);
    AnyGroup(c);
    FreeAfterRun(c, run, rs, |rs|);
    assert rs[..|rs|] == rs;
    forall i | 0 <= i < |ids| ensures TailRetained(c, t, ids[i]) { RestoredNeeds(c, run, rs, i, 0); }
    forall g | 0 <= g < Groups(c) ensures |t.free[g]| >= AppendNeed(c, t, ids, g) {
      forall i | 0 <= i < |rs| ensures rs[i].id in t.lens && (NeedsBlock(c, t, rs[i].id, g) <==> Aligned(c, rs[i].len)) {
        RestoredNeeds(c, run, rs, i, g);
      }
      NeedIsAligned(c, t, rs, g);
    }
    assert RoomToAppend(c, t, ids);
    hide RoomToAppend;
    forall appends | AppendRun(c, appends, ids) && appends[0] == t && |appends| <= |ids|
      ensures CanAppend(c, appends[|appends| - 1], ids[|appends| - 1])
    {
      AppendsNeverRaise(c, appends, ids);
    }
  }

  lemma RoomForBothNeeded(c: Config, run: seq<State>, rs: seq<Request>)
    requires AllocRun(c, run, rs) && DistinctRequests(rs)
    requires |run[0].free| == Groups(c) && !RoomForBoth(c, run[0], rs)
    ensures NeverCompletes(c, run[|rs|], RequestIds(rs))
  {
    hide Inv, Allocated, NeedSum, AlignedCount, AppendedSomehow;
    var t, ids := run[|rs|], RequestIds(rs);
    var g :| 0 <= g < Groups(c) && |run[0].free[g]| < NeedSum(c, rs) + AlignedCount(c, rs);
    FreeAfterRun(c, run, rs, |rs|);
    assert rs[..|rs|] == rs;
    forall appends | AppendRun(c, appends, ids) && appends[0] == t ensures |appends| <= |ids| {
      RunLength(c, appends, ids);
      if |appends| == |ids| + 1 {
        forall i | 0 <= i < |rs| ensures rs[i].id in t.lens && t.lens[rs[i].id] == rs[i].len {
          LensStay(c, run, rs, i, |rs|, rs[i].id);
        }
        CompleteRunTakes(c, appends, rs, g);
      }
    }
  }

  lemma RunLength(c: Config, run: seq<State>, ids: seq<int>)
    requires AppendRun(c, run, ids)
    ensures 0 < |run| <= |ids| + 1
  {
    hide Inv, AppendedSomehow;
  }

  /**
   can_swap_in compares the free blocks with the restored ones alone. The appends
   that follow a swap in cannot raise exactly when every group also has a block for
   each restored sequence whose last block is full; otherwise they cannot all succeed.
   */
  lemma SwapInThenAppend(c: Config, run: seq<State>, rs: seq<Request>)
    requires AllocRun(c, run, rs) && DistinctRequests(rs) && forall i :: 0 <= i < |rs| ==> TailKept(c, rs[i])
    ensures |run[0].free| == Groups(c)
    ensures RoomForBoth(c, run[0], rs) ==> NeverRaises(c, run[|rs|], RequestIds(rs))
    ensures !RoomForBoth(c, run[0], rs) ==> NeverCompletes(c, run[|rs|], RequestIds(rs))
  {
    assert |run[0].free| == Groups(c) by { hide Allocated; InvPools(c, run[0]); }
    hide Inv, AllocRun, RoomForBoth, NeverRaises, NeverCompletes, TailKept;
    if RoomForBoth(c, run[0], rs) {
      RoomForBothSuffices(c, run, rs);
    } else {
      RoomForBothNeeded(c, run, rs);
    }
  }

  // ---------------------------------------------------------------- the CPU pool over a group's swap

  ghost predicate EmptyTables(w: Swapped) {
    forall g :: 0 <= g < |w.tables| ==> w.tables[g] == []
  }

  /** Overwriting an older copy that owns a block loses that block. */
  lemma OverwriteLeaks(c: Config, p: CpuConfig, m: Manager, n: Manager, id: int)
    requires ManagerInv(c, p, m) && SaveStep(c, m, n, id) && id in m.saved && !EmptyTables(m.saved[id])
    ensures !NoCpuLeak(c, p, n)
  {
    hide Inv, RetainedTable, NumBlocks, WholeBlocks, Aligned;
    assert SwappedOk(c, p, m.saved[id]);
    var old', fresh' := m.saved[id], n.saved[id];
    var g :| 0 <= g < |old'.tables| && old'.tables[g] != [];
    var b := old'.tables[g][0];
    assert b in old'.tables[g] && b !in m.cpu[g];
    assert forall x :: x in fresh'.tables[g] || x in n.cpu[g] ==> x in m.cpu[g];
    assert !Owned(n.saved, g, b);
  }

  /** An overwritten copy without blocks loses none. */
  lemma HarmlessOverwrite(c: Config, p: CpuConfig, m: Manager, n: Manager, id: int)
    requires ManagerInv(c, p, m) && NoCpuLeak(c, p, m) && SaveStep(c, m, n, id) && id in m.saved && EmptyTables(m.saved[id])
    ensures NoCpuLeak(c, p, n)
  {
    hide Inv, SwappedOk, RetainedTable;
    forall g, b | 0 <= g < Groups(c) && 0 <= b < p ensures b in n.cpu[g] || Owned(n.saved, g, b) {
      if b in m.cpu[g] {
        NoDupSplit(m.cpu[g], |RetainedTable(c, m.kv, id, g)|);
        if b !in n.cpu[g] { assert b in n.saved[id].tables[g]; }
      } else {
        var i :| i in m.saved && g < |m.saved[i].tables| && b in m.saved[i].tables[g];
        assert i in n.saved && n.saved[i] == m.saved[i];
      }
    }
  }

  /** Saving keeps every CPU block free or owned, exactly unless it overwrites an older copy that owns blocks. */
  lemma SaveKeepsPool(c: Config, p: CpuConfig, m: Manager, n: Manager, id: int)
    requires ManagerInv(c, p, m) && NoCpuLeak(c, p, m) && SaveStep(c, m, n, id)
    ensures NoCpuLeak(c, p, n) <==> (id in m.saved ==> EmptyTables(m.saved[id]))
  {
    hide ManagerInv, NoCpuLeak, SaveStep, EmptyTables;
    if id !in m.saved {
      SaveKeepsBlocks(c, p, m, n, id);
    } else if EmptyTables(m.saved[id]) {
      HarmlessOverwrite(c, p, m, n, id);
    } else {
      OverwriteLeaks(c, p, m, n, id);
    }
  }

  /** Through a whole group's saves the CPU pool stays partitioned, if none of its sequences has an older copy. */
  lemma {:induction false} SaveRunKeepsPool(c: Config, p: CpuConfig, run: seq<Manager>, ids: seq<int>, n: nat)
    requires SaveRun(c, run, ids) && NoDup(ids) && n <= |ids|
    requires ManagerInv(c, p, run[0]) && NoCpuLeak(c, p, run[0])
    requires forall i :: 0 <= i < |ids| ==> ids[i] !in run[0].saved
    ensures ManagerInv(c, p, run[n]) && NoCpuLeak(c, p, run[n])
    ensures run[n].saved.Keys == run[0].saved.Keys + set i | 0 <= i < n :: ids[i]
  {
    hide ManagerInv, NoCpuLeak, SavedCopy, CanSave;
    if n > 0 {
      SaveRunKeepsPool(c, p, run, ids, n - 1);
      assert SaveStep(c, run[n - 1], run[n - 1 + 1], ids[n - 1]);
      assert ids[n - 1] !in run[n - 1].saved;
      SaveKeepsInv(c, p, run[n - 1], run[n], ids[n - 1]);
      SaveKeepsBlocks(c, p, run[n - 1], run[n], ids[n - 1]);
    }
  }

  /** Discarding the copies keeps it partitioned. */
  lemma {:induction false} DiscardRunKeepsPool(c: Config, p: CpuConfig, run: seq<Manager>, ids: seq<int>, n: nat)
    requires DiscardRun(c, run, ids) && n <= |ids|
    requires ManagerInv(c, p, run[0]) && NoCpuLeak(c, p, run[0])
    ensures ManagerInv(c, p, run[n]) && NoCpuLeak(c, p, run[n])
  {
    hide ManagerInv, NoCpuLeak, DiscardStep;
    if n > 0 {
      DiscardRunKeepsPool(c, p, run, ids, n - 1);
      assert DiscardStep(c, run[n - 1], run[n - 1 + 1], ids[n - 1]);
      DiscardKeepsInv(c, p, run[n - 1], run[n], ids[n - 1]);
      DiscardKeepsBlocks(c, p, run[n - 1], run[n], ids[n - 1]);
    }
  }
}
