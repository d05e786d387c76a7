/**
 What operations leave alone: other sequences' tokens, and the newest block of a
 sequence that owns it, so that decode slots never collide.
 */
module KVOwnership {
  import opened Arithmetic
  import opened KVState
  import opened KVSpec
  import opened KVAppend
  import opened KVSharing
  import opened KVRecompute
  import opened KVPlans
  import opened ELLMSwap
  import opened ELLMAdmission
  import opened KVMemory

  /** As long as its newest block is retained, the sequence is the only one that uses it. */
  ghost predicate Unshared(c: Config, s: State, id: int, g: nat) {
    NewestRetained(c, s, id) ==> OwnsNewest(c, s, id, g)
  }

  ghost function NewestKey(c: Config, s: State, id: int, g: nat): Key
    requires id in s.lens && s.lens[id] > 0
  {
    Key(id, (s.lens[id] - 1) / c.blockSize, g)
  }

  /** Whatever names block b of group g in t named it in s. */
  ghost predicate NoNewHolder(s: State, t: State, g: nat, b: nat) {
    Holders(t.entries, g, b) <= Holders(s.entries, g, b) && Holders(t.temps, g, b) <= Holders(s.temps, g, b)
  }

  /** Ownership survives whatever leaves the sequence alone and gives its newest block to nobody else. */
  lemma OwnerStays(c: Config, s: State, t: State, id: int, g: nat)
    requires Inv(c, s) && Inv(c, t) && OwnsNewest(c, s, id, g) && NewestRetained(c, t, id) && t.lens[id] == s.lens[id]
    requires NewestKey(c, s, id, g) in s.entries && NewestKey(c, s, id, g) in t.entries
    requires t.entries[NewestKey(c, s, id, g)].phys == s.entries[NewestKey(c, s, id, g)].phys
    requires NoNewHolder(s, t, g, s.entries[NewestKey(c, s, id, g)].phys)
    ensures OwnsNewest(c, t, id, g)
  {
    NewestNotTemporary(c, s, id, g);
    NewestNotTemporary(c, t, id, g);
    InvPools(c, s);
    InvPools(c, t);
    var k := NewestKey(c, s, id, g);
    var b := s.entries[k].phys;
    hide TablesOk, TempsOk;
    FewerHolders(c, s, t, k);
  }

  lemma FewerHolders(c: Config, s: State, t: State, k: Key)
    requires Ledger(c, s, multiset{}) && Ledger(c, t, multiset{}) && k in s.entries && k in t.entries
    requires t.entries[k].phys == s.entries[k].phys && NoNewHolder(s, t, k.group, s.entries[k].phys)
    ensures k.group < Groups(c) && s.entries[k].phys < c.numBlocks && |s.refs| == |t.refs| == Groups(c)
    ensures |s.refs[k.group]| == |t.refs[k.group]| == c.numBlocks
    ensures 1 <= t.refs[k.group][s.entries[k].phys] <= s.refs[k.group][s.entries[k].phys]
  {
    var g, b := k.group, s.entries[k].phys;
    HeldBlock(c, s, multiset{}, k);
    HeldBlock(c, t, multiset{}, k);
    SubsetSize(Holders(t.entries, g, b), Holders(s.entries, g, b));
    SubsetSize(Holders(t.temps, g, b), Holders(s.temps, g, b));
    assert t.refs[g][b] == |Holders(t.entries, g, b)| + |Holders(t.temps, g, b)|;
    assert s.refs[g][b] == |Holders(s.entries, g, b)| + |Holders(s.temps, g, b)|;
  }

  // ---------------------------------------------------------------- operations on other sequences

  lemma AppendKeepsOwner(c: Config, s: State, t: State, id: int, copies: seq<Copy>, other: int, g: nat)
    requires Inv(c, s) && Inv(c, t) && Appended(c, s, t, id, copies) && other != id && Unshared(c, s, other, g) && g < Groups(c)
    ensures Unshared(c, t, other, g)
  {
    hide Inv, Appended, Ledger, NumBlocks, Groups, OwnsNewest, PoolSizes, Holders;
    if NewestRetained(c, t, other) {
      AppendedLens(c, s, t, id, copies);
      AppendedOthers(c, s, t, id, copies, other, g);
      NewestNotTemporary(c, s, other, g);
      HoldersShrink(c, s, t, id, copies, NewestKey(c, s, other, g));
      AppendedTemps(c, s, t, id, copies);
      OwnerStays(c, s, t, other, g);
    }
  }

  lemma AllocationKeepsOwner(c: Config, s: State, t: State, id: int, n: nat, p: nat, other: int, g: nat)
    requires Inv(c, s) && Inv(c, t) && Allocated(c, s, t, id, n, p) && id !in s.lens && other != id
    requires Unshared(c, s, other, g) && g < Groups(c)
    ensures Unshared(c, t, other, g)
  {
    hide Inv, Allocated, Ledger, NumBlocks, Groups, OwnsNewest, PoolSizes;
    if NewestRetained(c, t, other) {
      AllocatedLens(c, s, t, id, n, p);
      NewestNotTemporary(c, s, other, g);
      var k := NewestKey(c, s, other, g);
      AllocatedTemps(c, s, t, id, n, p);
      forall h | h in Holders(t.entries, g, s.entries[k].phys) ensures h in Holders(s.entries, g, s.entries[k].phys) {
        if h.seqId == id { NewBlocksAreNew(c, s, t, id, n, p, k, h); } else { OldEntry(c, s, t, id, n, p, h); }
      }
      KeptEntry(c, s, t, id, n, p, k);
      OwnerStays(c, s, t, other, g);
    }
  }

  lemma AllocatedTemps(c: Config, s: State, t: State, id: int, n: nat, p: nat)
    requires Allocated(c, s, t, id, n, p)
    ensures t.temps == s.temps
  {
    hide Fresh;
  }

  lemma KeptEntry(c: Config, s: State, t: State, id: int, n: nat, p: nat, k: Key)
    requires Allocated(c, s, t, id, n, p) && k in s.entries && k.seqId != id
    ensures k in t.entries && t.entries[k] == s.entries[k]
  {
    hide Fresh;
  }

  lemma ForkKeepsOwner(c: Config, s: State, t: State, parent: int, child: int, other: int, g: nat)
    requires Inv(c, s) && Inv(c, t) && Forked(s, t, parent, child) && child !in s.lens && other != parent && other != child
    requires Unshared(c, s, other, g) && g < Groups(c)
    ensures Unshared(c, t, other, g)
  {
    hide Inv, Ledger, NumBlocks, Groups, PoolSizes;
    if NewestRetained(c, t, other) {
      NewestNotTemporary(c, s, other, g);
      var k := NewestKey(c, s, other, g);
      InvPools(c, s);
      forall h | h in Holders(t.entries, g, s.entries[k].phys) ensures h in Holders(s.entries, g, s.entries[k].phys) {
        if h !in s.entries {
          assert Key(parent, h.block, h.group) in KeysOf(s.entries, parent);
          SoleHolder(c, s, k, Key(parent, h.block, h.group));
        }
      }
      OwnerStays(c, s, t, other, g);
    }
  }

  /** Entries only went away, and every sequence that is left has its length. */
  lemma ShrinkKeepsOwner(c: Config, s: State, t: State, id: int, g: nat)
    requires Inv(c, s) && Inv(c, t) && Unshared(c, s, id, g) && g < Groups(c)
    requires forall k :: k in t.entries ==> k in s.entries && t.entries[k] == s.entries[k]
    requires forall k :: k in t.temps ==> k in s.temps && t.temps[k] == s.temps[k]
    requires id in t.lens ==> id in s.lens && t.lens[id] == s.lens[id]
    ensures Unshared(c, t, id, g)
  {
    hide Inv, Ledger, NumBlocks, Groups, PoolSizes, OwnsNewest;
    if NewestRetained(c, t, id) {
      NewestNotTemporary(c, t, id, g);
      LiveIds(c, s);
      NewestStored(c, s, id, g);
      OwnerStays(c, s, t, id, g);
    }
  }

  // ---------------------------------------------------------------- taking possession

  lemma AllocationOwnsNewest(c: Config, s: State, t: State, id: int, n: nat, p: nat, g: nat)
    requires Inv(c, s) && Inv(c, t) && Allocated(c, s, t, id, n, p) && id !in s.lens && g < Groups(c)
    ensures Unshared(c, t, id, g)
  {
    hide Inv, Allocated, Ledger, NumBlocks, Groups;
    if NewestRetained(c, t, id) {
      InvPools(c, t);
      NewestNotTemporary(c, t, id, g);
      NoKeys(c, s, id);
      BlockIsFresh(c, s, t, id, n, p, NewestKey(c, t, id, g));
    }
  }

  // ---------------------------------------------------------------- steps and runs

  /** Since the sequence last took a block of its own for its newest token, it was not forked and is no fork. */
  ghost predicate Unforked(ops: seq<Op>, id: int) {
    ops == []
    || var earlier := Unforked(ops[..|ops| - 1], id);
       match ops[|ops| - 1]
       case Alloc(i, _) => i == id || earlier
       case Append(i, _) => i == id || earlier
       case Restore(i) => i == id || earlier
       case Fork(parent, child) => parent != id && child != id && earlier
       case _ => earlier
  }

  /** Every operation but a fork of the sequence keeps its newest block its own; appending makes it so. */
  lemma StepKeepsOwner(c: Config, p: CpuConfig, w: World, w': World, op: Op, id: int, g: nat)
    requires WorldInv(c, p, w) && WorldInv(c, p, w') && Step(c, w, w', op) && g < Groups(c)
    requires op.Fork? ==> op.parent != id && op.child != id
    requires Unshared(c, w.m.kv, id, g) || ((op.Alloc? || op.Append? || op.Restore?) && op.id == id)
    ensures Unshared(c, w'.m.kv, id, g)
  {
    InvOf(c, p, w);
    InvOf(c, p, w');
    hide WorldInv, Inv, Unshared, Step, Groups;
    match op
    case Alloc(_, _) => TakeKeepsOwner(c, w, w', op, id, g);
    case Append(_, _) => GrowKeepsOwner(c, w, w', op, id, g);
    case Fork(_, _) => ShareKeepsOwner(c, w, w', op, id, g);
    case Evict(_, _) => RestKeepsOwner(c, w, w', op, id, g);
    case Free(_) => RestKeepsOwner(c, w, w', op, id, g);
    case Save(_) => RestKeepsOwner(c, w, w', op, id, g);
    case Drop(_) => RestKeepsOwner(c, w, w', op, id, g);
    case Restore(_) => TakeKeepsOwner(c, w, w', op, id, g);
    case Discard(_) => RestKeepsOwner(c, w, w', op, id, g);
    case Recompute(_, _) => RestKeepsOwner(c, w, w', op, id, g);
    case Raise => RestKeepsOwner(c, w, w', op, id, g);
  }

  lemma TakeKeepsOwner(c: Config, w: World, w': World, op: Op, id: int, g: nat)
    requires Inv(c, w.m.kv) && Inv(c, w'.m.kv) && Step(c, w, w', op) && g < Groups(c) && (op.Alloc? || op.Restore?)
    requires op.id == id || Unshared(c, w.m.kv, id, g)
    ensures Unshared(c, w'.m.kv, id, g)
  {
    hide Inv, Unshared, Allocated, Groups, WholeBlocks, PrefillWrites, ApplyMoves, RestoreMoves;
    var i, s, t := op.id, w.m.kv, w'.m.kv;
    var n := if op.Alloc? then |op.tokens| else w.m.saved[i].length;
    var q := if op.Alloc? then 0 else WholeBlocks(c, w.m.saved[i].evictedTokens);
    if i == id { AllocationOwnsNewest(c, s, t, i, n, q, g); } else { AllocationKeepsOwner(c, s, t, i, n, q, id, g); }
  }

  lemma GrowKeepsOwner(c: Config, w: World, w': World, op: Op, id: int, g: nat)
    requires Inv(c, w.m.kv) && Inv(c, w'.m.kv) && Step(c, w, w', op) && g < Groups(c) && op.Append?
    requires op.id == id || Unshared(c, w.m.kv, id, g)
    ensures Unshared(c, w'.m.kv, id, g)
  {
    hide Inv, Unshared, Appended, Groups, WriteToken, ApplyCopies, TailRetained;
    var s, t := w.m.kv, w'.m.kv;
    var copies :| Appended(c, s, t, op.id, copies);
    if op.id == id { AppendIsOwner(c, s, t, id, copies, g); } else { AppendKeepsOwner(c, s, t, op.id, copies, id, g); }
  }

  lemma ShareKeepsOwner(c: Config, w: World, w': World, op: Op, id: int, g: nat)
    requires Inv(c, w.m.kv) && Inv(c, w'.m.kv) && Step(c, w, w', op) && g < Groups(c)
    requires op.Fork? && op.parent != id && op.child != id && Unshared(c, w.m.kv, id, g)
    ensures Unshared(c, w'.m.kv, id, g)
  {
    hide Inv, Unshared, Forked, Groups;
    ForkKeepsOwner(c, w.m.kv, w'.m.kv, op.parent, op.child, id, g);
  }

  lemma RestKeepsOwner(c: Config, w: World, w': World, op: Op, id: int, g: nat)
    requires Inv(c, w.m.kv) && Inv(c, w'.m.kv) && Step(c, w, w', op) && g < Groups(c)
    requires !op.Alloc? && !op.Append? && !op.Fork? && !op.Restore? && Unshared(c, w.m.kv, id, g)
    ensures Unshared(c, w'.m.kv, id, g)
  {
    hide Inv, Unshared, Groups, Span, ClampedBlocks, LeasedTemps, Recomputed;
    ShrinkKeepsOwner(c, w.m.kv, w'.m.kv, id, g);
  }

  lemma AppendIsOwner(c: Config, s: State, t: State, id: int, copies: seq<Copy>, g: nat)
    requires Inv(c, s) && Inv(c, t) && Appended(c, s, t, id, copies) && TailRetained(c, s, id) && g < Groups(c)
    ensures Unshared(c, t, id, g)
  {
    hide Inv, Appended, OwnsNewest, TailRetained;
    AppendOwnsNewest(c, s, t, id, copies, g);
  }

  /** On every run, a sequence that was not forked since its last append is the only user of its newest block. */
  lemma {:induction false} RunKeepsOwner(c: Config, p: CpuConfig, ws: seq<World>, ops: seq<Op>, n: nat, id: int, g: nat)
    requires IsRun(c, ws, ops) && Initial(c, p, ws[0]) && n <= |ops| && Unforked(ops[..n], id) && g < Groups(c)
    ensures Unshared(c, ws[n].m.kv, id, g)
  {
    hide Step, WorldInv, OwnsNewest, Inv;
    if n > 0 {
      RunRefines(c, p, ws, ops, n - 1);
      RunRefines(c, p, ws, ops, n);
      assert ops[..n][..n - 1] == ops[..n - 1];
      if Unforked(ops[..n - 1], id) { RunKeepsOwner(c, p, ws, ops, n - 1, id, g); }
      StepKeepsOwner(c, p, ws[n - 1], ws[n], ops[n - 1], id, g);
    }
  }

  // ---------------------------------------------------------------- other sequences' tokens

  /** The operation can change what the live sequence reads, or which part of it is retained. */
  ghost predicate Changes(op: Op, id: int) {
    match op
    case Alloc(i, _) => i == id
    case Append(i, _) => i == id
    case Fork(_, child) => child == id
    case Evict(i, _) => i == id
    case Free(i) => i == id
    case Drop(i) => i == id
    case Restore(i) => i == id
    case _ => false
  }

  lemma OthersKeepLengths(c: Config, w: World, w': World, op: Op, id: int)
    requires Step(c, w, w', op) && !Changes(op, id) && id in w.m.kv.lens && id in w.m.kv.evicted
    ensures id in w'.m.kv.lens && w'.m.kv.lens[id] == w.m.kv.lens[id]
    ensures id in w'.m.kv.evicted && w'.m.kv.evicted[id] == w.m.kv.evicted[id]
    ensures id in w.toks ==> id in w'.toks && w'.toks[id] == w.toks[id]
  {
    hide Inv, Fresh, LeasedTemps, Recomputed, CopyList, TailPlaced, EntriesForked, WriteToken, ApplyCopies, ApplyMoves, PrefillWrites,
         RestoreMoves, SaveMoves, ClampedBlocks, Span, SavedCopy, CanSave, CanEvict, TailRetained;
  }

  /**
   No operation on one sequence changes what another reads: token tau of every other
   live sequence is where the block tables of before and after point, in every group.
   */
  lemma OthersKeepTokens(c: Config, p: CpuConfig, w: World, w': World, op: Op, id: int, g: nat, tau: nat)
    requires WorldInv(c, p, w) && Step(c, w, w', op) && !Changes(op, id) && g < Groups(c)
    requires id in w.m.kv.lens && id in w.m.kv.evicted && w.m.kv.evicted[id] * c.blockSize <= tau < w.m.kv.lens[id]
    ensures w.m.kv.evicted[id] <= tau / c.blockSize
    ensures var j := tau / c.blockSize - w.m.kv.evicted[id];
            var before, now := RetainedTable(c, w.m.kv, id, g), RetainedTable(c, w'.m.kv, id, g);
            j < |before| && j < |now| && w'.gpu(g, now[j], tau % c.blockSize) == w.gpu(g, before[j], tau % c.blockSize)
  {
    StepRefines(c, p, w, w', op);
    OthersKeepLengths(c, w, w', op, id);
    hide WorldInv, Step, Groups, Changes, RetainedTable;
    ReadsOwnTokens(c, p, w, id, g, tau);
    ReadsOwnTokens(c, p, w', id, g, tau);
  }

  // ---------------------------------------------------------------- plans

  /** A lease does not move the decode slot of a sequence whose newest block is retained. */
  lemma LeaseKeepsDecodeSlot(c: Config, s: State, t: State, ids: seq<int>, id: int, g: nat)
    requires Inv(c, s) && Inv(c, t) && LeasedTemps(c, s, t, ids, g) && NewestRetained(c, s, id)
    ensures NewestRetained(c, t, id) && DecodeSlot(c, t, id, g) == DecodeSlot(c, s, id, g)
    ensures NewestKey(c, s, id, g) in t.entries
            && DecodeSlot(c, t, id, g) / c.blockSize == t.entries[NewestKey(c, s, id, g)].phys
  {
    hide Inv, Fresh, LeaseKeys, NumBlocks;
    NewestNotTemporary(c, s, id, g);
    NewestNotTemporary(c, t, id, g);
    var b, o := t.entries[NewestKey(c, s, id, g)].phys, (s.lens[id] - 1) % c.blockSize;
    DivUnique(b * c.blockSize + o, c.blockSize, b, o);
  }

  /**
   The plan of a batch of distinct sequences, each the only user of its newest block:
   no two decode slots are equal, and none is recomputed into.
   */
  lemma PlanSlotsDistinct(c: Config, s: State, t: State, ids: seq<int>, g: nat)
    requires Inv(c, s) && Inv(c, t) && LeasedTemps(c, s, t, ids, g) && NoDup(ids)
    requires forall i :: 0 <= i < |ids| ==> NewestRetained(c, s, ids[i]) && Unshared(c, s, ids[i], g)
    ensures NoDup(PlanOf(c, t, ids, g).decodeSlots)
    ensures forall x :: x in PlanOf(c, t, ids, g).decodeSlots ==> x !in PlanOf(c, t, ids, g).recomputeSlots
  {
    hide Inv, NewestRetained, OwnsNewest, LeasedTemps, DecodeSlot, SlotsOf;
    var slots := PlanOf(c, t, ids, g).decodeSlots;
    forall i, j | 0 <= i < j < |slots| ensures slots[i] != slots[j] {
      LeaseKeepsDecodeSlot(c, s, t, ids, ids[i], g);
      LeaseKeepsDecodeSlot(c, s, t, ids, ids[j], g);
      DecodeSlotsDistinct(c, s, ids[i], ids[j], g);
    }
    forall x | x in slots ensures x !in PlanOf(c, t, ids, g).recomputeSlots {
      var i :| 0 <= i < |slots| && slots[i] == x;
      LiveNewest(c, s, ids[i]);
      LeaseKeepsDecodeSlot(c, s, t, ids, ids[i], g);
      if x in PlanOf(c, t, ids, g).recomputeSlots {
        RecomputeSlotsSpareRetained(c, s, t, ids, g, x, NewestKey(c, s, ids[i], g));
      }
    }
  }

  lemma LiveNewest(c: Config, s: State, id: int)
    requires NewestRetained(c, s, id)
    ensures id in s.lens && s.lens[id] > 0
  {
  }

  /**
   On every run, for every batch of distinct sequences that were appended (or allocated,
   or swapped in) since their last fork: whenever the batch is leased in any group, the
   plan's decode slots are all different and disjoint from its recompute slots.
   */
  lemma RunPlanSlotsDistinct(c: Config, p: CpuConfig, ws: seq<World>, ops: seq<Op>, n: nat, t: State, ids: seq<int>, g: nat)
    requires IsRun(c, ws, ops) && Initial(c, p, ws[0]) && n <= |ops| && g < Groups(c) && NoDup(ids)
    requires forall i :: 0 <= i < |ids| ==> Unforked(ops[..n], ids[i])
    requires PlanFeasible(c, ws[n].m.kv, ids, g) && Inv(c, t) && LeasedTemps(c, ws[n].m.kv, t, ids, g)
    ensures NoDup(PlanOf(c, t, ids, g).decodeSlots) && NoDup(PlanOf(c, t, ids, g).recomputeSlots)
    ensures forall x :: x in PlanOf(c, t, ids, g).decodeSlots ==> x !in PlanOf(c, t, ids, g).recomputeSlots
  {
    hide Step, Inv, LeasedTemps, PlanOf, Unforked, Unshared, NewestRetained, Initial;
    RunRefines(c, p, ws, ops, n);
    InvOf(c, p, ws[n]);
    forall i | 0 <= i < |ids| ensures Unshared(c, ws[n].m.kv, ids[i], g) {
      RunKeepsOwner(c, p, ws, ops, n, ids[i], g);
    }
    PlanSlotsDistinct(c, ws[n].m.kv, t, ids, g);
    RecomputeSlotsDistinct(c, ws[n].m.kv, t, ids, g);
  }
}
