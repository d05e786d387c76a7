/**
 Runs of whole block-manager operations. Sequences that come in, by allocation or fork,
 have ids that were not used before, as the engine's counter gives them.
 */
module ELLMRuns {
  import opened KVState
  import opened KVSpec
  import opened KVAppend
  import opened KVSharing
  import opened KVRecompute
  import opened ELLMSwap
  import opened ELLMAdmission
  import opened ELLMSwapSteps
  import opened ELLMSwapAdmission

  /** No sequence is live and swapped at once. */
  ghost predicate Apart(m: Manager) {
    m.kv.lens.Keys !! m.saved.Keys
  }

  datatype Operation =
    | Allocate(rs: seq<Request>)
    | Append(id: int)
    | Fork(parent: int, child: int)
    | Evict(id: int, blocks: nat)
    | Free(id: int)
    | SwapOut(ids: seq<int>)
    | SwapIn(ids: seq<int>)
    | Raise

  /** Every sequence is saved and then every one dropped. */
  ghost predicate SwappedOutBy(c: Config, m: Manager, n: Manager, ids: seq<int>) {
    exists saves: seq<Manager>, drops: seq<Manager> :: SaveRun(c, saves, ids) && DropRun(drops, ids)
      && saves[0] == m && drops[0] == saves[|ids|] && drops[|ids|] == n
  }

  /** Every sequence is restored and then every copy discarded. */
  ghost predicate SwappedInBy(c: Config, m: Manager, n: Manager, ids: seq<int>) {
    exists restores: seq<Manager>, discards: seq<Manager> :: RestoreRun(c, restores, ids) && DiscardRun(c, discards, ids)
      && restores[0] == m && discards[0] == restores[|ids|] && discards[|ids|] == n
  }

  ghost predicate AllocatedBy(c: Config, s: State, t: State, rs: seq<Request>) {
    exists run: seq<State> :: AllocRun(c, run, rs) && run[0] == s && run[|rs|] == t
  }

  /** One operation, as the manager's methods specify it. */
  ghost predicate Performs(c: Config, m: Manager, n: Manager, op: Operation) {
    && Inv(c, n.kv)
    && match op
       case Allocate(rs) =>
         n == m.(kv := n.kv) && AllocatedBy(c, m.kv, n.kv, rs) && forall i :: 0 <= i < |rs| ==> rs[i].id !in m.saved
       case Append(id) => n == m.(kv := n.kv) && AppendedSomehow(c, m.kv, n.kv, id)
       case Fork(parent, child) => n == m.(kv := n.kv) && child !in m.saved && Forked(m.kv, n.kv, parent, child)
       case Evict(id, blocks) => n == m.(kv := n.kv) && Evicted(c, m.kv, n.kv, id, blocks)
       case Free(id) => DropStep(m, n, id)
       case SwapOut(ids) => NoDup(ids) && SwappedOutBy(c, m, n, ids)
       case SwapIn(ids) => NoDup(ids) && SwappedInBy(c, m, n, ids)
       case Raise => Unchanged(m.kv, n.kv) && n.saved == m.saved && SameCpu(m.cpu, n.cpu)
  }

  ghost predicate Sound(c: Config, p: CpuConfig, m: Manager) {
    ManagerInv(c, p, m) && NoCpuLeak(c, p, m) && Apart(m)
  }

  // ---------------------------------------------------------------- which ids are live and which swapped

  lemma {:induction false} AllocatedIds(c: Config, run: seq<State>, rs: seq<Request>, n: nat)
    requires AllocRun(c, run, rs) && n <= |rs|
    ensures run[n].lens.Keys == run[0].lens.Keys + set i | 0 <= i < n :: rs[i].id
  {
    hide Inv, Allocated;
    if n > 0 {
      AllocatedIds(c, run, rs, n - 1);
      assert Allocated(c, run[n - 1], run[n - 1 + 1], rs[n - 1].id, rs[n - 1].len, WholeBlocks(c, rs[n - 1].evicted));
      AllocatedId(c, run[n - 1], run[n], rs[n - 1].id, rs[n - 1].len, WholeBlocks(c, rs[n - 1].evicted));
    }
  }

  lemma NewIds(c: Config, s: State, t: State, rs: seq<Request>)
    requires AllocatedBy(c, s, t, rs)
    ensures t.lens.Keys == s.lens.Keys + set i | 0 <= i < |rs| :: rs[i].id
  {
    hide Inv, Allocated;
    var run: seq<State> :| AllocRun(c, run, rs) && run[0] == s && run[|rs|] == t;
    AllocatedIds(c, run, rs, |rs|);
  }

  lemma AllocatedId(c: Config, s: State, t: State, id: int, len: nat, p: nat)
    requires Allocated(c, s, t, id, len, p)
    ensures t.lens.Keys == s.lens.Keys + {id}
  {
    hide GrownBy;
  }

  lemma AppendedId(c: Config, s: State, t: State, id: int)
    requires AppendedSomehow(c, s, t, id)
    ensures t.lens.Keys == s.lens.Keys
  {
    hide CopyList, TailPlaced;
  }

  lemma {:induction false} DroppedIds(run: seq<Manager>, ids: seq<int>, n: nat)
    requires DropRun(run, ids) && n <= |ids|
    ensures run[n].kv.lens.Keys == run[0].kv.lens.Keys - set i | 0 <= i < n :: ids[i]
    ensures run[n].cpu == run[0].cpu && run[n].saved == run[0].saved
  {
    if n > 0 {
      DroppedIds(run, ids, n - 1);
      assert DropStep(run[n - 1], run[n - 1 + 1], ids[n - 1]);
    }
  }

  lemma {:induction false} SavedIds(c: Config, run: seq<Manager>, ids: seq<int>, n: nat)
    requires SaveRun(c, run, ids) && n <= |ids|
    ensures run[n].kv == run[0].kv && forall i :: 0 <= i < n ==> ids[i] in run[0].kv.lens
  {
    hide RetainedTable;
    if n > 0 {
      SavedIds(c, run, ids, n - 1);
      assert SaveStep(c, run[n - 1], run[n - 1 + 1], ids[n - 1]);
    }
  }

  lemma {:induction false} RestoredIds(c: Config, run: seq<Manager>, ids: seq<int>, n: nat)
    requires RestoreRun(c, run, ids) && n <= |ids|
    ensures run[n].kv.lens.Keys == run[0].kv.lens.Keys + set i | 0 <= i < n :: ids[i]
    ensures run[n].cpu == run[0].cpu && run[n].saved == run[0].saved
  {
    hide Allocated;
    if n > 0 {
      RestoredIds(c, run, ids, n - 1);
      assert RestoreStep(c, run[n - 1], run[n - 1 + 1], ids[n - 1]);
      var w := run[n - 1].saved[ids[n - 1]];
      AllocatedId(c, run[n - 1].kv, run[n].kv, ids[n - 1], w.length, WholeBlocks(c, w.evictedTokens));
    }
  }

  lemma {:induction false} DiscardedIds(c: Config, run: seq<Manager>, ids: seq<int>, n: nat)
    requires DiscardRun(c, run, ids) && n <= |ids|
    ensures run[n].kv == run[0].kv && run[n].saved.Keys == run[0].saved.Keys - set i | 0 <= i < n :: ids[i]
  {
    if n > 0 {
      DiscardedIds(c, run, ids, n - 1);
      assert DiscardStep(c, run[n - 1], run[n - 1 + 1], ids[n - 1]);
    }
  }

  // ---------------------------------------------------------------- every operation

  lemma SwapOutIsSound(c: Config, p: CpuConfig, m: Manager, n: Manager, ids: seq<int>)
    requires Sound(c, p, m) && Inv(c, n.kv) && NoDup(ids) && SwappedOutBy(c, m, n, ids)
    ensures Sound(c, p, n)
  {
    hide Inv, CpuDisjoint, NoCpuLeak, SaveStep, DropStep;
    var saves: seq<Manager>, drops: seq<Manager> :| SaveRun(c, saves, ids) && DropRun(drops, ids)
      && saves[0] == m && drops[0] == saves[|ids|] && drops[|ids|] == n;
    SavedIds(c, saves, ids, |ids|);
    forall i | 0 <= i < |ids| ensures ids[i] !in m.saved { assert ids[i] in m.kv.lens; }
    SaveRunKeepsPool(c, p, saves, ids, |ids|);
    DroppedIds(drops, ids, |ids|);
    SameCpuSide(c, p, drops[0], n);
  }

  /** The CPU side does not read the GPU side. */
  lemma SameCpuSide(c: Config, p: CpuConfig, m: Manager, n: Manager)
    requires CpuDisjoint(c, p, m) && NoCpuLeak(c, p, m) && n.cpu == m.cpu && n.saved == m.saved && Inv(c, n.kv)
    ensures ManagerInv(c, p, n) && NoCpuLeak(c, p, n)
  {
    hide Inv, SwappedOk, Owned;
  }

  lemma SwapInIsSound(c: Config, p: CpuConfig, m: Manager, n: Manager, ids: seq<int>)
    requires Sound(c, p, m) && Inv(c, n.kv) && SwappedInBy(c, m, n, ids)
    ensures Sound(c, p, n)
  {
    hide Inv, CpuDisjoint, NoCpuLeak, RestoreStep, DiscardStep;
    var restores: seq<Manager>, discards: seq<Manager> :| RestoreRun(c, restores, ids) && DiscardRun(c, discards, ids)
      && restores[0] == m && discards[0] == restores[|ids|] && discards[|ids|] == n;
    RestoredIds(c, restores, ids, |ids|);
    DiscardedIds(c, discards, ids, |ids|);
    SameCpuSide(c, p, m, discards[0]);
    DiscardRunKeepsPool(c, p, discards, ids, |ids|);
  }

  lemma RaiseIsSound(c: Config, p: CpuConfig, m: Manager, n: Manager)
    requires Sound(c, p, m) && Inv(c, n.kv) && Unchanged(m.kv, n.kv) && n.saved == m.saved && SameCpu(m.cpu, n.cpu)
    ensures Sound(c, p, n)
  {
    hide Inv, SwappedOk, Owned;
    forall g | 0 <= g < Groups(c) ensures NoDup(n.cpu[g]) && forall b :: b in m.cpu[g] <==> b in n.cpu[g] {
      SameMultiset(m.cpu[g], n.cpu[g]);
    }
  }

  /** Every operation keeps the CPU pools partitioned and live and swapped sequences apart. */
  lemma OperationIsSound(c: Config, p: CpuConfig, m: Manager, n: Manager, op: Operation)
    requires Sound(c, p, m) && Performs(c, m, n, op)
    ensures Sound(c, p, n)
  {
    hide Inv, CpuDisjoint, NoCpuLeak, SwappedOutBy, SwappedInBy, AllocatedBy, AppendedSomehow, Unchanged, SameCpu, EntriesForked, Span;
    match op
    case Allocate(rs) =>
      NewIds(c, m.kv, n.kv, rs);
      SameCpuSide(c, p, m, n);
    case Append(id) => AppendedId(c, m.kv, n.kv, id); SameCpuSide(c, p, m, n);
    case Fork(_, _) => SameCpuSide(c, p, m, n);
    case Evict(_, _) => SameCpuSide(c, p, m, n);
    case Free(_) => SameCpuSide(c, p, m, n);
    case SwapOut(ids) => SwapOutIsSound(c, p, m, n, ids);
    case SwapIn(ids) => SwapInIsSound(c, p, m, n, ids);
    case Raise => RaiseIsSound(c, p, m, n);
  }

  ghost predicate IsRun(c: Config, ms: seq<Manager>, ops: seq<Operation>) {
    |ms| == |ops| + 1 && forall i :: 0 <= i < |ops| ==> Performs(c, ms[i], ms[i + 1], ops[i])
  }

  /** Along every run, between operations: each CPU block is free or owned once, and no sequence is live and swapped. */
  lemma {:induction false} RunIsSound(c: Config, p: CpuConfig, ms: seq<Manager>, ops: seq<Operation>, n: nat)
    requires IsRun(c, ms, ops) && Sound(c, p, ms[0]) && n <= |ops|
    ensures Sound(c, p, ms[n])
  {
    hide Sound, Performs;
    if n > 0 {
      RunIsSound(c, p, ms, ops, n - 1);
      assert Performs(c, ms[n - 1], ms[n - 1 + 1], ops[n - 1]);
      OperationIsSound(c, p, ms[n - 1], ms[n], ops[n - 1]);
    }
  }

  /** So on runs an OK of can_swap_in always means that swap_in cannot raise. */
  lemma RunSwapInAdmission(c: Config, p: CpuConfig, ms: seq<Manager>, ops: seq<Operation>, n: nat, seqs: Group)
    requires IsRun(c, ms, ops) && Sound(c, p, ms[0]) && n <= |ops|
    requires AllSwapped(ms[n].saved, seqs) && |ms[n].kv.free| == Groups(c)
    requires forall g :: 0 <= g < Groups(c) ==> |ms[n].kv.free[g]| >= NeedSum(c, SwapRequests(ms[n].saved, seqs))
    ensures AllocatableAll(c, ms[n].kv, SwapRequests(ms[n].saved, seqs))
  {
    hide Performs, Inv, CpuDisjoint, NoCpuLeak, NeedSum, Groups;
    RunIsSound(c, p, ms, ops, n);
    SwapInAdmission(c, p, ms[n], seqs);
  }

  // ---------------------------------------------------------------- sequences that are gone

  /** Every CPU block is free, or owned by a sequence that the engine still serves. */
  ghost predicate Reclaimable(c: Config, p: CpuConfig, m: Manager, served: set<int>) {
    |m.cpu| == Groups(c) && forall g, b :: 0 <= g < Groups(c) && 0 <= b < p ==> b in m.cpu[g] || OwnedBy(m.saved, g, b, served)
  }

  ghost predicate OwnedBy(saved: map<int, Swapped>, g: nat, b: nat, served: set<int>) {
    exists id :: id in served && id in saved && g < |saved[id].tables| && b in saved[id].tables[g]
  }

  /**
   Freeing a sequence for good, as an abort does, touches only the GPU side: the CPU
   blocks stay reclaimable exactly if the sequence was not swapped out with blocks.
   */
  lemma FreeStrands(c: Config, p: CpuConfig, m: Manager, n: Manager, id: int, served: set<int>)
    requires CpuDisjoint(c, p, m) && Reclaimable(c, p, m, served) && DropStep(m, n, id) && id in served
    ensures Reclaimable(c, p, n, served - {id}) <==> (id in m.saved ==> EmptyTables(m.saved[id]))
  {
    if id in m.saved && !EmptyTables(m.saved[id]) {
      Stranded(c, p, m, n, id, served);
    } else {
      hide SwappedOk, Freed;
      forall g, b | 0 <= g < Groups(c) && 0 <= b < p ensures b in n.cpu[g] || OwnedBy(n.saved, g, b, served - {id}) {
        if b !in m.cpu[g] {
          assert OwnedBy(m.saved, g, b, served);
          var i :| i in served && i in m.saved && g < |m.saved[i].tables| && b in m.saved[i].tables[g];
          assert i != id;
        }
      }
    }
  }

  lemma Stranded(c: Config, p: CpuConfig, m: Manager, n: Manager, id: int, served: set<int>)
    requires CpuDisjoint(c, p, m) && DropStep(m, n, id) && id in m.saved && !EmptyTables(m.saved[id])
    ensures !Reclaimable(c, p, n, served - {id})
  {
    hide NumBlocks, WholeBlocks, Aligned, Freed, Groups;
    assert SwappedOk(c, p, m.saved[id]);
    var g :| 0 <= g < |m.saved[id].tables| && m.saved[id].tables[g] != [];
    var b := m.saved[id].tables[g][0];
    assert b in m.saved[id].tables[g] && b !in m.cpu[g] && b < p;
    assert !OwnedBy(n.saved, g, b, served - {id});
  }
}
