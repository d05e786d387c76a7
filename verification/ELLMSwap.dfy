/**
 The eLLM block manager's state on values: the GPU block store, the per-group
 CPU pools and the table of swapped sequences, with the single-sequence steps
 that its operations are made of.
 */
module ELLMSwap {
  import opened Arithmetic
  import opened KVState
  import opened KVSpec
  import opened KVAppend
  import opened KVSharing
  import opened KVRecompute

  /** A swapped sequence: its length, its evicted tokens and its CPU blocks in each layer group. */
  datatype Swapped = Swapped(length: nat, evictedTokens: nat, tables: seq<seq<nat>>)

  datatype Manager = Manager(kv: State, cpu: seq<seq<nat>>, saved: map<int, Swapped>)

  /** CPU blocks available per group. */
  type CpuConfig = nat

  ghost predicate SwappedOk(c: Config, p: CpuConfig, w: Swapped) {
    && w.length > 0 && Aligned(c, w.evictedTokens)
    && WholeBlocks(c, w.evictedTokens) <= NumBlocks(c, w.length)
    && |w.tables| == Groups(c)
    && forall g :: 0 <= g < Groups(c) ==>
         && |w.tables[g]| == NumBlocks(c, w.length) - WholeBlocks(c, w.evictedTokens)
         && NoDup(w.tables[g])
         && (forall b :: b in w.tables[g] ==> b < p)
  }

  /** No CPU block is both free and owned, or owned twice. */
  ghost predicate CpuDisjoint(c: Config, p: CpuConfig, m: Manager) {
    && |m.cpu| == Groups(c)
    && (forall id :: id in m.saved ==> SwappedOk(c, p, m.saved[id]))
    && (forall g :: 0 <= g < Groups(c) ==> NoDup(m.cpu[g]) && forall b :: b in m.cpu[g] ==> b < p)
    && (forall id, g, b :: id in m.saved && 0 <= g < Groups(c) && b in m.saved[id].tables[g] ==> b !in m.cpu[g])
    && (forall id, id', g, b | id in m.saved && id' in m.saved && 0 <= g < Groups(c) ::
          b in m.saved[id].tables[g] && b in m.saved[id'].tables[g] ==> id == id')
  }

  ghost predicate Owned(saved: map<int, Swapped>, g: nat, b: nat) {
    exists id :: id in saved && g < |saved[id].tables| && b in saved[id].tables[g]
  }

  /** Every CPU block is free or owned by a swapped sequence. */
  ghost predicate NoCpuLeak(c: Config, p: CpuConfig, m: Manager) {
    |m.cpu| == Groups(c)
    && forall g, b :: 0 <= g < Groups(c) && 0 <= b < p ==> b in m.cpu[g] || Owned(m.saved, g, b)
  }

  ghost predicate ManagerInv(c: Config, p: CpuConfig, m: Manager) {
    Inv(c, m.kv) && CpuDisjoint(c, p, m)
  }

  // ---------------------------------------------------------------- single-sequence steps

  /** The retained GPU blocks of a sequence in every group. */
  ghost function RetainedTables(c: Config, s: State, id: int): seq<seq<nat>> {
    seq<seq<nat>>(Groups(c), g requires 0 <= g < Groups(c) => RetainedTable(c, s, id, g))
  }

  /** The head of each CPU deque, one block per retained GPU block. */
  ghost predicate CanSave(c: Config, m: Manager, id: int) {
    && id in m.kv.lens && |m.cpu| == Groups(c)
    && forall g :: 0 <= g < Groups(c) ==> |m.cpu[g]| >= |RetainedTable(c, m.kv, id, g)|
  }

  ghost function SavedCopy(c: Config, m: Manager, id: int): Swapped
    requires CanSave(c, m, id) && id in m.kv.evicted
  {
    Swapped(m.kv.lens[id], m.kv.evicted[id] * c.blockSize,
            seq<seq<nat>>(Groups(c), g requires 0 <= g < Groups(c) => m.cpu[g][..|RetainedTable(c, m.kv, id, g)|]))
  }

  /** A CPU copy of a live sequence is recorded; the GPU side is untouched. */
  ghost predicate SaveStep(c: Config, m: Manager, n: Manager, id: int) {
    && CanSave(c, m, id) && id in m.kv.evicted
    && n.kv == m.kv
    && n.saved == m.saved[id := SavedCopy(c, m, id)]
    && |n.cpu| == Groups(c)
    && forall g :: 0 <= g < Groups(c) ==> n.cpu[g] == m.cpu[g][|RetainedTable(c, m.kv, id, g)|..]
  }

  /** The GPU blocks of a sequence are released; the CPU side is untouched. */
  ghost predicate DropStep(m: Manager, n: Manager, id: int) {
    Freed(m.kv, n.kv, id) && n.cpu == m.cpu && n.saved == m.saved
  }

  /** A swapped sequence gets GPU blocks for its retained suffix. */
  ghost predicate RestoreStep(c: Config, m: Manager, n: Manager, id: int) {
    && id in m.saved && n.cpu == m.cpu && n.saved == m.saved && id !in m.kv.lens
    && Allocated(c, m.kv, n.kv, id, m.saved[id].length, WholeBlocks(c, m.saved[id].evictedTokens))
  }

  /** A CPU copy is given back. */
  ghost predicate DiscardStep(c: Config, m: Manager, n: Manager, id: int) {
    && id in m.saved && n.kv == m.kv && n.saved == m.saved - {id}
    && |m.cpu| == |n.cpu| == Groups(c) && |m.saved[id].tables| == Groups(c)
    && forall g :: 0 <= g < Groups(c) ==> n.cpu[g] == m.cpu[g] + m.saved[id].tables[g]
  }

  // ---------------------------------------------------------------- block moves

  ghost function Zip(g: nat, src: seq<nat>, dst: seq<nat>): seq<Copy>
    requires |src| == |dst|
  {
    seq<Copy>(|src|, i requires 0 <= i < |src| => Copy(g, src[i], dst[i]))
  }

  ghost predicate SameShape(src: seq<seq<nat>>, dst: seq<seq<nat>>) {
    |src| == |dst| && forall g :: 0 <= g < |src| ==> |src[g]| == |dst[g]|
  }

  /** The moves from one table per group to another, group by group. */
  ghost function Moves(src: seq<seq<nat>>, dst: seq<seq<nat>>, n: nat): seq<Copy>
    requires SameShape(src, dst) && n <= |src|
  {
    if n == 0 then [] else Moves(src, dst, n - 1) + Zip(n - 1, src[n - 1], dst[n - 1])
  }

  ghost function TableMoves(c: Config, src: seq<seq<nat>>, dst: seq<seq<nat>>): seq<Copy> {
    if SameShape(src, dst) && |src| == Groups(c) then Moves(src, dst, Groups(c)) else []
  }

  ghost function SaveMoves(c: Config, m: Manager, n: Manager, id: int): seq<Copy> {
    TableMoves(c, RetainedTables(c, m.kv, id), if id in n.saved then n.saved[id].tables else [])
  }

  ghost function RestoreMoves(c: Config, m: Manager, n: Manager, id: int): seq<Copy> {
    TableMoves(c, if id in m.saved then m.saved[id].tables else [], RetainedTables(c, n.kv, id))
  }

  // ---------------------------------------------------------------- the invariant is kept

  lemma AlignedProduct(c: Config, n: nat)
    ensures Aligned(c, n * c.blockSize) && WholeBlocks(c, n * c.blockSize) == n
  {
    DivUnique(n * c.blockSize, c.blockSize, n, 0);
  }

  lemma RetainedLength(c: Config, s: State, id: int, g: nat)
    requires Inv(c, s) && id in s.lens && id in s.evicted
    ensures s.lens[id] > 0 && s.evicted[id] <= NumBlocks(c, s.lens[id])
    ensures |RetainedTable(c, s, id, g)| == NumBlocks(c, s.lens[id]) - s.evicted[id]
  {
    hide Ledger, TempsOk, NumBlocks;
  }

  lemma NoDupSplit(a: seq<nat>, n: nat)
    requires NoDup(a) && n <= |a|
    ensures NoDup(a[..n]) && NoDup(a[n..])
    ensures forall b :: b in a[..n] ==> b in a && b !in a[n..]
    ensures forall b :: b in a[n..] ==> b in a
    ensures forall b :: b in a ==> b in a[..n] || b in a[n..]
  {
    assert a == a[..n] + a[n..];
    forall b | b in a[..n] ensures b !in a[n..] {
      var i :| 0 <= i < n && a[i] == b;
      assert forall j :: n <= j < |a| ==> a[j] != a[i];
    }
  }

  lemma SavedCopyOk(c: Config, p: CpuConfig, m: Manager, id: int)
    requires ManagerInv(c, p, m) && CanSave(c, m, id) && id in m.kv.evicted
    ensures SwappedOk(c, p, SavedCopy(c, m, id))
  {
    hide Inv, NumBlocks, Aligned, WholeBlocks, RetainedTable;
    AlignedProduct(c, m.kv.evicted[id]);
    var w := SavedCopy(c, m, id);
    RetainedLength(c, m.kv, id, 0);
    forall g | 0 <= g < Groups(c)
      ensures |w.tables[g]| == NumBlocks(c, w.length) - WholeBlocks(c, w.evictedTokens)
      ensures NoDup(w.tables[g]) && forall b :: b in w.tables[g] ==> b < p
    {
      RetainedLength(c, m.kv, id, g);
      NoDupSplit(m.cpu[g], |RetainedTable(c, m.kv, id, g)|);
    }
  }

  /** Saving keeps CPU blocks apart, whether or not an older copy is overwritten. */
  lemma SaveKeepsInv(c: Config, p: CpuConfig, m: Manager, n: Manager, id: int)
    requires ManagerInv(c, p, m) && SaveStep(c, m, n, id)
    ensures ManagerInv(c, p, n)
  {
    SavedCopyOk(c, p, m, id);
    hide Inv, SwappedOk, RetainedTable;
    forall g | 0 <= g < Groups(c)
      ensures NoDup(n.cpu[g]) && (forall b :: b in n.cpu[g] ==> b in m.cpu[g])
      ensures forall b :: b in n.saved[id].tables[g] ==> b in m.cpu[g] && b !in n.cpu[g]
    {
      NoDupSplit(m.cpu[g], |RetainedTable(c, m.kv, id, g)|);
    }
    assert forall i :: i in n.saved ==> |n.saved[i].tables| == Groups(c) by { TablesShape(c, p, n); }
  }

  lemma TablesShape(c: Config, p: CpuConfig, m: Manager)
    requires forall id :: id in m.saved ==> SwappedOk(c, p, m.saved[id])
    ensures forall id :: id in m.saved ==> |m.saved[id].tables| == Groups(c)
  {
  }

  lemma DiscardKeepsInv(c: Config, p: CpuConfig, m: Manager, n: Manager, id: int)
    requires ManagerInv(c, p, m) && DiscardStep(c, m, n, id)
    ensures ManagerInv(c, p, n)
  {
    hide Inv, NumBlocks, Aligned, WholeBlocks;
    forall g | 0 <= g < Groups(c)
      ensures NoDup(n.cpu[g]) && forall b :: b in n.cpu[g] ==> b < p
    {
      var a, t := m.cpu[g], m.saved[id].tables[g];
      forall i, j | 0 <= i < |a| && 0 <= j < |t| ensures a[i] != t[j] {
        assert t[j] in m.saved[id].tables[g] && a[i] in m.cpu[g];
      }
    }
  }

  lemma RestoreKeepsInv(c: Config, p: CpuConfig, m: Manager, n: Manager, id: int)
    requires ManagerInv(c, p, m) && RestoreStep(c, m, n, id) && Inv(c, n.kv)
    ensures ManagerInv(c, p, n)
  {
    hide Inv, SwappedOk, Allocated;
  }

  /** No CPU block is lost, unless a swapped copy of the same sequence is overwritten. */
  lemma SaveKeepsBlocks(c: Config, p: CpuConfig, m: Manager, n: Manager, id: int)
    requires ManagerInv(c, p, m) && NoCpuLeak(c, p, m) && SaveStep(c, m, n, id) && id !in m.saved
    ensures NoCpuLeak(c, p, n)
  {
    hide Inv, SwappedOk, RetainedTable;
    forall g, b | 0 <= g < Groups(c) && 0 <= b < p ensures b in n.cpu[g] || Owned(n.saved, g, b) {
      if b in m.cpu[g] {
        NoDupSplit(m.cpu[g], |RetainedTable(c, m.kv, id, g)|);
        if b !in n.cpu[g] { assert b in n.saved[id].tables[g]; }
      } else {
        var i :| i in m.saved && g < |m.saved[i].tables| && b in m.saved[i].tables[g];
        assert i in n.saved && n.saved[i] == m.saved[i];
      }
    }
  }

  lemma DiscardKeepsBlocks(c: Config, p: CpuConfig, m: Manager, n: Manager, id: int)
    requires NoCpuLeak(c, p, m) && DiscardStep(c, m, n, id)
    ensures NoCpuLeak(c, p, n)
  {
    forall g, b | 0 <= g < Groups(c) && 0 <= b < p ensures b in n.cpu[g] || Owned(n.saved, g, b) {
      if b !in m.cpu[g] {
        var i :| i in m.saved && g < |m.saved[i].tables| && b in m.saved[i].tables[g];
        if i != id { assert i in n.saved && n.saved[i] == m.saved[i]; }
      }
    }
  }

  // ---------------------------------------------------------------- group runs

  ghost predicate SaveRun(c: Config, run: seq<Manager>, ids: seq<int>) {
    |run| == |ids| + 1 && forall i :: 0 <= i < |ids| ==> SaveStep(c, run[i], run[i + 1], ids[i])
  }

  ghost predicate DropRun(run: seq<Manager>, ids: seq<int>) {
    |run| == |ids| + 1 && forall i :: 0 <= i < |ids| ==> DropStep(run[i], run[i + 1], ids[i])
  }

  ghost predicate RestoreRun(c: Config, run: seq<Manager>, ids: seq<int>) {
    |run| == |ids| + 1 && forall i :: 0 <= i < |ids| ==> RestoreStep(c, run[i], run[i + 1], ids[i])
  }

  ghost predicate DiscardRun(c: Config, run: seq<Manager>, ids: seq<int>) {
    |run| == |ids| + 1 && forall i :: 0 <= i < |ids| ==> DiscardStep(c, run[i], run[i + 1], ids[i])
  }

  ghost function AllSaveMoves(c: Config, run: seq<Manager>, ids: seq<int>): seq<Copy>
    requires |run| == |ids| + 1
  {
    if ids == [] then [] else
    var n := |ids| - 1;
    AllSaveMoves(c, run[..n + 1], ids[..n]) + SaveMoves(c, run[n], run[n + 1], ids[n])
  }

  ghost function AllRestoreMoves(c: Config, run: seq<Manager>, ids: seq<int>): seq<Copy>
    requires |run| == |ids| + 1
  {
    if ids == [] then [] else
    var n := |ids| - 1;
    AllRestoreMoves(c, run[..n + 1], ids[..n]) + RestoreMoves(c, run[n], run[n + 1], ids[n])
  }

  lemma SaveRunSnoc(c: Config, run: seq<Manager>, ids: seq<int>, m: Manager, id: int)
    requires SaveRun(c, run, ids) && SaveStep(c, run[|ids|], m, id)
    ensures SaveRun(c, run + [m], ids + [id])
    ensures AllSaveMoves(c, run + [m], ids + [id]) == AllSaveMoves(c, run, ids) + SaveMoves(c, run[|ids|], m, id)
  {
    hide SaveStep, SaveMoves;
    assert (run + [m])[..|ids| + 1] == run && (ids + [id])[..|ids|] == ids;
  }

  lemma DropRunSnoc(run: seq<Manager>, ids: seq<int>, m: Manager, id: int)
    requires DropRun(run, ids) && DropStep(run[|ids|], m, id)
    ensures DropRun(run + [m], ids + [id])
  {
    hide DropStep;
  }

  lemma RestoreRunSnoc(c: Config, run: seq<Manager>, ids: seq<int>, m: Manager, id: int)
    requires RestoreRun(c, run, ids) && RestoreStep(c, run[|ids|], m, id)
    ensures RestoreRun(c, run + [m], ids + [id])
    ensures AllRestoreMoves(c, run + [m], ids + [id]) == AllRestoreMoves(c, run, ids) + RestoreMoves(c, run[|ids|], m, id)
  {
    hide RestoreStep, RestoreMoves;
    assert (run + [m])[..|ids| + 1] == run && (ids + [id])[..|ids|] == ids;
  }

  lemma DiscardRunSnoc(c: Config, run: seq<Manager>, ids: seq<int>, m: Manager, id: int)
    requires DiscardRun(c, run, ids) && DiscardStep(c, run[|ids|], m, id)
    ensures DiscardRun(c, run + [m], ids + [id])
  {
    hide DiscardStep;
  }
}
