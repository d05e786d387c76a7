/**
 Leases held while the manager goes on: a batch's prefixes are recomputed into temporary
 blocks, and until the batch is released any other operation may run.
 */
module KVLeases {
  import opened Arithmetic
  import opened KVState
  import opened KVSpec
  import opened KVAppend
  import opened KVSharing
  import opened KVRecompute
  import opened KVPlans
  import opened ELLMSwap
  import opened KVMemory

  /** An operation of the manager, the beginning of a lease with its recomputation, or its end. */
  datatype HeldOp = Plain(op: Op) | Hold(ids: seq<int>, group: nat) | Release(ids: seq<int>, group: nat)

  ghost predicate HeldStep(c: Config, w: World, w': World, h: HeldOp) {
    match h
    case Plain(op) => Step(c, w, w', op)
    case Hold(ids, g) =>
      && w' == w.(m := w.m.(kv := w'.m.kv), gpu := w'.gpu) && Inv(c, w'.m.kv)
      && LeasedTemps(c, w.m.kv, w'.m.kv, ids, g) && Recomputed(c, w'.m.kv, ids, g, w.toks, w.gpu, w'.gpu)
    case Release(ids, g) =>
      && w' == w.(m := w.m.(kv := w'.m.kv)) && Inv(c, w'.m.kv) && EndedAll(w.m.kv, w'.m.kv, ids, g)
  }

  /** No permanent entry of group g names block b. */
  ghost predicate Avoids(m: map<Key, Entry>, g: nat, b: nat) {
    forall h :: h in m && h.group == g ==> m[h].phys != b
  }

  /** A temporary's block belongs to that temporary alone. */
  ghost predicate Private(s: State, k: Key)
    requires k in s.temps
  {
    && Avoids(s.entries, k.group, s.temps[k].phys)
    && forall h :: h in s.temps && h != k && h.group == k.group ==> s.temps[h].phys != s.temps[k].phys
  }

  /** Every recomputed offset of a temporary holds its sequence's own token. */
  ghost predicate TempView(c: Config, s: State, mem: Memory, toks: map<int, seq<Token>>, k: Key)
    requires k in s.temps
  {
    && k.seqId in toks
    && forall o: nat :: o < c.blockSize && k.block * c.blockSize + o < |toks[k.seqId]|
         ==> mem(k.group, s.temps[k].phys, o) == toks[k.seqId][k.block * c.blockSize + o]
  }

  ghost predicate Leases(c: Config, w: World) {
    forall k :: k in w.m.kv.temps ==> Private(w.m.kv, k) && TempView(c, w.m.kv, w.gpu, w.toks, k)
  }

  // ---------------------------------------------------------------- temporaries stay private

  /** Blocks that were referenced are given to nobody new. */
  lemma AllocationAvoids(c: Config, s: State, t: State, id: int, n: nat, p: nat, k: Key)
    requires Inv(c, s) && id !in s.lens && Allocated(c, s, t, id, n, p) && k in s.temps
    requires Avoids(s.entries, k.group, s.temps[k].phys)
    ensures t.temps == s.temps && Avoids(t.entries, k.group, s.temps[k].phys)
  {
    InvPools(c, s);
    FlipLedger(c, s);
    HeldBlock(c, Flip(s), multiset{}, k);
    NoKeys(c, s, id);
    hide Inv, Ledger, NumBlocks;
  }

  lemma AppendAvoids(c: Config, s: State, t: State, id: int, copies: seq<Copy>, k: Key)
    requires Inv(c, s) && Inv(c, t) && Appended(c, s, t, id, copies) && k in s.temps
    requires Avoids(s.entries, k.group, s.temps[k].phys)
    ensures t.temps == s.temps && Avoids(t.entries, k.group, s.temps[k].phys)
  {
    InvPools(c, s);
    FlipLedger(c, s);
    HeldBlock(c, Flip(s), multiset{}, k);
    AppendedTemporaries(c, s, t, id, copies);
    forall h | h in t.entries && h.group == k.group ensures t.entries[h].phys != s.temps[k].phys {
      AppendKeys(c, s, t, id, copies, h);
      if h == TailKey(c, s, id, h.group) { TailBlockOf(c, s, t, id, copies, h.group); }
    }
    hide Inv, Appended;
  }

  lemma AppendedTemporaries(c: Config, s: State, t: State, id: int, copies: seq<Copy>)
    requires Appended(c, s, t, id, copies)
    ensures t.temps == s.temps && id in s.lens
  {
    hide CopyList, TailPlaced;
  }

  /** The tail block of an append was free or the sequence's own tail block. */
  lemma TailBlockOf(c: Config, s: State, t: State, id: int, copies: seq<Copy>, g: nat)
    requires Appended(c, s, t, id, copies) && g < Groups(c)
    ensures id in s.lens && TailKey(c, s, id, g) in t.entries && PoolSizes(c, s)
    ensures var k := TailKey(c, s, id, g);
            || (t.entries[k].phys < c.numBlocks && s.refs[g][t.entries[k].phys] == 0)
            || (k in s.entries && s.entries[k].phys == t.entries[k].phys)
  {
    hide CopyList, TailGrown;
    assert TailPlaced(c, s, t, id, g);
  }

  lemma ForkAvoids(s: State, t: State, parent: int, child: int, g: nat, b: nat)
    requires Forked(s, t, parent, child) && Avoids(s.entries, g, b)
    ensures t.temps == s.temps && Avoids(t.entries, g, b)
  {
    forall h | h in t.entries && h.group == g ensures t.entries[h].phys != b {
      if h !in s.entries { assert Key(parent, h.block, h.group) in KeysOf(s.entries, parent); }
    }
  }

  /** Entries and temporaries that only go away. */
  ghost predicate Fewer(s: State, t: State) {
    && (forall h :: h in t.entries ==> h in s.entries && t.entries[h] == s.entries[h])
    && forall h :: h in t.temps ==> h in s.temps && t.temps[h] == s.temps[h]
  }

  /** What no operation of the manager does: add a temporary, or give a temporary's block to an entry. */
  ghost predicate SparesTemps(s: State, t: State, k: Key)
    requires k in s.temps
  {
    && (forall h :: h in t.temps ==> h in s.temps && t.temps[h] == s.temps[h])
    && Avoids(t.entries, k.group, s.temps[k].phys)
  }

  lemma StillPrivate(s: State, t: State, k: Key)
    requires k in s.temps && k in t.temps && Private(s, k) && SparesTemps(s, t, k)
    ensures Private(t, k)
  {
  }

  lemma FewerSpares(s: State, t: State, k: Key)
    requires Fewer(s, t) && k in s.temps && Private(s, k)
    ensures SparesTemps(s, t, k)
  {
  }

  lemma StepSparesTemps(c: Config, p: CpuConfig, w: World, w': World, op: Op, k: Key)
    requires WorldInv(c, p, w) && WorldInv(c, p, w') && Step(c, w, w', op)
    requires k in w.m.kv.temps && Private(w.m.kv, k)
    ensures SparesTemps(w.m.kv, w'.m.kv, k)
  {
    hide WorldInv, Inv, Step, Fewer, Private, SparesTemps;
    InvOf(c, p, w);
    InvOf(c, p, w');
    var s, t := w.m.kv, w'.m.kv;
    match op
    case Alloc(id, tokens) => TakeSpares(c, w, w', op, k);
    case Restore(id) => TakeSpares(c, w, w', op, k);
    case Append(_, _) => GrowSpares(c, w, w', op, k);
    case Fork(a, b) => ForkSpares(c, w, w', op, k);
    case _ => RestIsFewer(c, w, w', op); FewerSpares(s, t, k);
  }

  lemma TakeSpares(c: Config, w: World, w': World, op: Op, k: Key)
    requires Inv(c, w.m.kv) && Step(c, w, w', op) && (op.Alloc? || op.Restore?) && k in w.m.kv.temps && Private(w.m.kv, k)
    ensures SparesTemps(w.m.kv, w'.m.kv, k)
  {
    hide Inv, Allocated, WholeBlocks, PrefillWrites, ApplyMoves, RestoreMoves, Avoids;
    var i, s := op.id, w.m.kv;
    AllocationAvoids(c, s, w'.m.kv, i, if op.Alloc? then |op.tokens| else w.m.saved[i].length,
                     if op.Alloc? then 0 else WholeBlocks(c, w.m.saved[i].evictedTokens), k);
  }

  lemma GrowSpares(c: Config, w: World, w': World, op: Op, k: Key)
    requires Inv(c, w.m.kv) && Inv(c, w'.m.kv) && Step(c, w, w', op) && op.Append? && k in w.m.kv.temps && Private(w.m.kv, k)
    ensures SparesTemps(w.m.kv, w'.m.kv, k)
  {
    hide Inv, Appended, WriteToken, ApplyCopies, TailRetained, Avoids;
    var copies :| Appended(c, w.m.kv, w'.m.kv, op.id, copies);
    AppendAvoids(c, w.m.kv, w'.m.kv, op.id, copies, k);
  }

  lemma ForkSpares(c: Config, w: World, w': World, op: Op, k: Key)
    requires Step(c, w, w', op) && op.Fork? && k in w.m.kv.temps && Private(w.m.kv, k)
    ensures SparesTemps(w.m.kv, w'.m.kv, k)
  {
    hide Inv, Forked, Avoids;
    ForkAvoids(w.m.kv, w'.m.kv, op.parent, op.child, k.group, w.m.kv.temps[k].phys);
  }

  lemma RestIsFewer(c: Config, w: World, w': World, op: Op)
    requires Step(c, w, w', op) && !op.Alloc? && !op.Append? && !op.Fork? && !op.Restore?
    ensures Fewer(w.m.kv, w'.m.kv)
  {
    hide Step;
    if op.Evict? {
      EvictIsFewer(c, w, w', op);
    } else if op.Free? || op.Drop? {
      DropIsFewer(c, w, w', op);
    } else {
      RestKeepsMaps(c, w, w', op);
    }
  }

  lemma EvictIsFewer(c: Config, w: World, w': World, op: Op)
    requires Step(c, w, w', op) && op.Evict?
    ensures Fewer(w.m.kv, w'.m.kv)
  {
    hide Inv, Span, ClampedBlocks;
  }

  lemma DropIsFewer(c: Config, w: World, w': World, op: Op)
    requires Step(c, w, w', op) && (op.Free? || op.Drop?)
    ensures Fewer(w.m.kv, w'.m.kv)
  {
    hide Inv;
  }

  lemma RestKeepsMaps(c: Config, w: World, w': World, op: Op)
    requires Step(c, w, w', op) && (op.Save? || op.Discard? || op.Recompute? || op.Raise?)
    ensures Fewer(w.m.kv, w'.m.kv)
  {
    hide Inv, LeasedTemps, Recomputed;
  }

  // ---------------------------------------------------------------- and so do their contents

  /** Only blocks that entries name, or that a lease takes, are written. */
  lemma StepSparesContents(c: Config, p: CpuConfig, w: World, w': World, op: Op, k: Key, o: nat)
    requires WorldInv(c, p, w) && WorldInv(c, p, w') && Step(c, w, w', op)
    requires k in w.m.kv.temps && Private(w.m.kv, k)
    ensures w'.gpu(k.group, w.m.kv.temps[k].phys, o) == w.gpu(k.group, w.m.kv.temps[k].phys, o)
  {
    hide WorldInv, Inv, Step, Private, Avoids, Ledger;
    StepSparesTemps(c, p, w, w', op, k);
    InvOf(c, p, w);
    InvOf(c, p, w');
    InvPools(c, w.m.kv);
    var b := w.m.kv.temps[k].phys;
    match op
    case Alloc(id, tokens) => PrefillSpares(c, w, w', op, k, o);
    case Restore(id) => RestoreSpares(c, p, w, w', id, k.group, b, o) by { RestoreShapeOf(c, p, w, w', id); }
    case Append(_, _) => WriteSpares(c, w, w', op, k.group, b, o);
    case Recompute(ids, g) => RecomputeSpares(c, w, w', ids, g, k, o);
    case _ => GpuUntouched(c, w, w', op);
  }

  lemma GpuUntouched(c: Config, w: World, w': World, op: Op)
    requires Step(c, w, w', op) && !op.Alloc? && !op.Append? && !op.Restore? && !op.Recompute?
    ensures w'.gpu == w.gpu
  {
  }

  lemma PrefillSpares(c: Config, w: World, w': World, op: Op, k: Key, o: nat)
    requires Step(c, w, w', op) && op.Alloc? && k in w.m.kv.temps && SparesTemps(w.m.kv, w'.m.kv, k)
    ensures w'.gpu(k.group, w.m.kv.temps[k].phys, o) == w.gpu(k.group, w.m.kv.temps[k].phys, o)
  {
    hide Inv, Allocated;
  }

  lemma WriteSpares(c: Config, w: World, w': World, op: Op, g: nat, b: nat, o: nat)
    requires Inv(c, w.m.kv) && Inv(c, w'.m.kv) && Step(c, w, w', op) && op.Append? && g < Groups(c)
    requires Avoids(w'.m.kv.entries, g, b)
    ensures w'.gpu(g, b, o) == w.gpu(g, b, o)
  {
    hide Inv, Appended, WriteToken, ApplyCopies, TailRetained, Groups;
    var s, t := w.m.kv, w'.m.kv;
    var copies :| Appended(c, s, t, op.id, copies) && w'.gpu == WriteToken(c, t, op.id, op.token, ApplyCopies(w.gpu, copies));
    AppendedTemporaries(c, s, t, op.id, copies);
    AppendEffect(c, s, t, op.id, copies, w.gpu, op.token, g, b, o);
  }

  lemma RestoreShapeOf(c: Config, p: CpuConfig, w: World, w': World, id: int)
    requires WorldInv(c, p, w) && Step(c, w, w', Restore(id))
    ensures id in w'.m.kv.evicted && id in w'.m.kv.lens && id in w.m.saved && |w.m.saved[id].tables| == Groups(c)
    ensures SameShape(w.m.saved[id].tables, RetainedTables(c, w'.m.kv, id))
    ensures forall g :: 0 <= g < Groups(c) ==> NoDup(RetainedTable(c, w'.m.kv, id, g))
  {
    RestoreShape(c, p, w.m, w'.m, id);
    hide WorldInv;
  }

  lemma RestoreSpares(c: Config, p: CpuConfig, w: World, w': World, id: int, g: nat, b: nat, o: nat)
    requires Inv(c, w'.m.kv) && Step(c, w, w', Restore(id)) && g < Groups(c) && Avoids(w'.m.kv.entries, g, b)
    requires id in w'.m.kv.evicted && id in w'.m.kv.lens && id in w.m.saved && |w.m.saved[id].tables| == Groups(c)
    requires SameShape(w.m.saved[id].tables, RetainedTables(c, w'.m.kv, id))
    requires forall h :: 0 <= h < Groups(c) ==> NoDup(RetainedTable(c, w'.m.kv, id, h))
    ensures w'.gpu(g, b, o) == w.gpu(g, b, o)
  {
    hide Inv, ApplyMoves, Moves, RetainedTable, Allocated, Groups;
    var t := w'.m.kv;
    var table := RetainedTable(c, t, id, g);
    forall j | 0 <= j < |table| ensures table[j] != b { RetainedAt(c, t, id, g, j); }
    MovesEffect(w.cpu, w.gpu, w.m.saved[id].tables, RetainedTables(c, t, id), Groups(c), g, b, o);
  }

  /** A lease writes to blocks that were free. */
  lemma LeaseSpares(c: Config, s: State, t: State, ids: seq<int>, g: nat, toks: map<int, seq<Token>>,
                    mem: Memory, mem': Memory, k: Key, o: nat)
    requires Inv(c, s) && Inv(c, t) && LeasedTemps(c, s, t, ids, g) && Recomputed(c, t, ids, g, toks, mem, mem')
    requires k in s.temps
    ensures mem'(k.group, s.temps[k].phys, o) == mem(k.group, s.temps[k].phys, o)
  {
    hide Inv, LeaseKeys, Fresh;
    if k.group == g {
      forall x: nat | x in PlanOf(c, t, ids, g).recomputeSlots ensures x / c.blockSize != s.temps[k].phys {
        SlotInBlocks(c, AllPrefixBlocks(t, ids, g), x);
        InAllPrefixBlocks(t, ids, g, x / c.blockSize);
        var i, l: nat :| 0 <= i < |ids| && l < EvictedOf(t, ids[i]) && x / c.blockSize == BlockAt(t, ids[i], l, g);
        var h := Key(ids[i], l, g);
        InLeaseKeys(s, ids, g, h);
        LeasedBlockIsPrivate(c, s, t, ids, g, h, k);
      }
    }
  }

  lemma RecomputeSpares(c: Config, w: World, w': World, ids: seq<int>, g: nat, k: Key, o: nat)
    requires Inv(c, w.m.kv) && Step(c, w, w', Recompute(ids, g)) && k in w.m.kv.temps
    ensures w'.gpu(k.group, w.m.kv.temps[k].phys, o) == w.gpu(k.group, w.m.kv.temps[k].phys, o)
  {
    hide Inv, LeasedTemps, Recomputed;
    var t :| Inv(c, t) && LeasedTemps(c, w.m.kv, t, ids, g) && Recomputed(c, t, ids, g, w.toks, w.gpu, w'.gpu);
    LeaseSpares(c, w.m.kv, t, ids, g, w.toks, w.gpu, w'.gpu, k, o);
  }

  // ---------------------------------------------------------------- tokens of an evicted prefix

  /** A sequence that can grow has filled its evicted blocks. */
  lemma PrefixIsFull(c: Config, s: State, id: int, l: nat, o: nat)
    requires Inv(c, s) && TailRetained(c, s, id) && id in s.evicted && l < s.evicted[id] && o < c.blockSize
    ensures id in s.lens && l * c.blockSize + o < s.lens[id]
  {
    var b, n := c.blockSize, s.lens[id];
    BlocksOnAppend(c, n);
    assert s.evicted[id] <= NumBlocks(c, n) by { hide Ledger, TempsOk, NumBlocks; }
    hide Inv, NumBlocks;
    assert l + 1 <= n / b;
    MulMono(l + 1, n / b, b);
    assert n == (n / b) * b + n % b && (l + 1) * b == l * b + b;
  }

  lemma TempsOf(c: Config, s: State, k: Key)
    requires Inv(c, s) && k in s.temps
    ensures k.seqId in s.lens && k.seqId in s.evicted && k.block < s.evicted[k.seqId] <= NumBlocks(c, s.lens[k.seqId])
  {
    hide Ledger, NumBlocks;
  }

  /** Which sequences an operation may be about. */
  lemma StepTouches(c: Config, w: World, w': World, op: Op)
    requires Step(c, w, w', op)
    ensures w'.toks == Reference(w.toks, op)
    ensures op.Alloc? ==> op.id !in w.m.kv.lens
    ensures op.Fork? ==> op.child !in w.m.kv.lens
    ensures op.Append? ==> TailRetained(c, w.m.kv, op.id)
    ensures op.Free? ==> forall k :: k in w'.m.kv.temps ==> k.seqId != op.id
  {
    hide Inv, TailRetained, Reference;
  }

  /** The recomputed tokens of a sequence that stays are the ones it had. */
  lemma StepSparesTokens(c: Config, p: CpuConfig, w: World, w': World, op: Op, k: Key, o: nat)
    requires WorldInv(c, p, w) && Step(c, w, w', op) && k in w.m.kv.temps && k in w'.m.kv.temps && o < c.blockSize
    ensures k.seqId in w.toks && k.seqId in w'.toks
    ensures var x := k.block * c.blockSize + o;
            x < |w'.toks[k.seqId]| ==> x < |w.toks[k.seqId]| && w'.toks[k.seqId][x] == w.toks[k.seqId][x]
  {
    hide WorldInv, Step, Inv, NumBlocks, TailRetained;
    InvOf(c, p, w);
    TempsOf(c, w.m.kv, k);
    LiveTokens(c, p, w, k.seqId);
    StepTouches(c, w, w', op);
    if op.Append? && op.id == k.seqId { PrefixIsFull(c, w.m.kv, k.seqId, k.block, o); }
  }

  // ---------------------------------------------------------------- steps and runs

  lemma PlainKeeps(c: Config, p: CpuConfig, w: World, w': World, op: Op)
    requires WorldInv(c, p, w) && Leases(c, w) && Step(c, w, w', op)
    ensures WorldInv(c, p, w') && Leases(c, w')
  {
    hide WorldInv, Step, Private, TempView, SparesTemps;
    StepRefines(c, p, w, w', op);
    forall k | k in w'.m.kv.temps ensures Private(w'.m.kv, k) && TempView(c, w'.m.kv, w'.gpu, w'.toks, k) {
      OldTemp(c, w, w', op, k);
      StepSparesTemps(c, p, w, w', op, k);
      StillPrivate(w.m.kv, w'.m.kv, k);
      ViewStays(c, p, w, w', op, k);
    }
  }

  lemma OldTemp(c: Config, w: World, w': World, op: Op, k: Key)
    requires Step(c, w, w', op) && k in w'.m.kv.temps
    ensures k in w.m.kv.temps && w.m.kv.temps[k] == w'.m.kv.temps[k]
  {
    hide Inv, Fresh, LeasedTemps, Recomputed, CopyList, TailPlaced, EntriesForked, WriteToken, ApplyCopies, ApplyMoves,
         PrefillWrites, RestoreMoves, SaveMoves, TailRetained, WholeBlocks, NumBlocks, RetainedTable;
  }

  lemma ViewStays(c: Config, p: CpuConfig, w: World, w': World, op: Op, k: Key)
    requires WorldInv(c, p, w) && WorldInv(c, p, w') && Step(c, w, w', op)
    requires k in w.m.kv.temps && k in w'.m.kv.temps && w.m.kv.temps[k] == w'.m.kv.temps[k]
    requires Private(w.m.kv, k) && TempView(c, w.m.kv, w.gpu, w.toks, k)
    ensures TempView(c, w'.m.kv, w'.gpu, w'.toks, k)
  {
    hide WorldInv, Step, Private;
    StepSparesTokens(c, p, w, w', op, k, 0);
    forall o: nat | o < c.blockSize && k.block * c.blockSize + o < |w'.toks[k.seqId]|
      ensures w'.gpu(k.group, w'.m.kv.temps[k].phys, o) == w'.toks[k.seqId][k.block * c.blockSize + o]
    {
      StepSparesTokens(c, p, w, w', op, k, o);
      StepSparesContents(c, p, w, w', op, k, o);
    }
  }

  lemma HoldKeepsWorld(c: Config, p: CpuConfig, w: World, w': World, ids: seq<int>, g: nat)
    requires WorldInv(c, p, w) && HeldStep(c, w, w', Hold(ids, g))
    ensures WorldInv(c, p, w')
  {
    hide ManagerInv, NoCpuLeak, CpuView, GpuView, Inv, EntryView, Recomputed, LeaseKeys, Fresh;
    var s, t := w.m.kv, w'.m.kv;
    InvOf(c, p, w);
    CpuSideKept(c, p, w.m, t);
    forall k | k in s.entries ensures EntryView(s, w'.gpu, w.toks, k) {
      RecomputeView(c, s, t, ids, g, w.toks, w.gpu, w'.gpu, k);
    }
    GpuViewIntro(s, w'.gpu, w.toks);
    GpuViewFrame(s, t, w'.gpu, w.toks, w'.toks);
  }

  lemma HoldKeeps(c: Config, p: CpuConfig, w: World, w': World, ids: seq<int>, g: nat)
    requires WorldInv(c, p, w) && Leases(c, w) && HeldStep(c, w, w', Hold(ids, g))
    ensures WorldInv(c, p, w') && Leases(c, w')
  {
    HoldKeepsWorld(c, p, w, w', ids, g);
    InvOf(c, p, w);
    hide WorldInv, Inv, Private, TempView, LeasedTemps, Recomputed;
    var s, t := w.m.kv, w'.m.kv;
    forall k | k in t.temps ensures Private(t, k) && TempView(c, t, w'.gpu, w'.toks, k) {
      if k in LeaseKeys(s, ids, g) {
        NewTempPrivate(c, s, t, ids, g, k);
        NewTempView(c, p, w, w', ids, g, k);
      } else {
        KeptTemp(c, s, t, ids, g, k);
        KeptPrivate(c, s, t, ids, g, k);
        KeptView(c, w, w', ids, g, k);
      }
    }
  }

  lemma KeptTemp(c: Config, s: State, t: State, ids: seq<int>, g: nat, k: Key)
    requires LeasedTemps(c, s, t, ids, g) && k in t.temps && k !in LeaseKeys(s, ids, g)
    ensures k in s.temps && t.temps[k] == s.temps[k]
  {
    hide Fresh, LeaseKeys;
  }

  lemma NewTempPrivate(c: Config, s: State, t: State, ids: seq<int>, g: nat, k: Key)
    requires Inv(c, t) && LeasedTemps(c, s, t, ids, g) && k in LeaseKeys(s, ids, g)
    ensures k in t.temps && Private(t, k)
  {
    InLeaseKeys(s, ids, g, k);
    LeasedBlockIsPrivate(c, s, t, ids, g, k, k);
    hide Inv, LeasedTemps;
    forall h: Key | h.group == g
      ensures h in t.entries ==> t.entries[h].phys != t.temps[k].phys
      ensures h in t.temps && h != k ==> t.temps[h].phys != t.temps[k].phys
    {
      LeasedBlockIsPrivate(c, s, t, ids, g, k, h);
    }
  }

  lemma NewTempView(c: Config, p: CpuConfig, w: World, w': World, ids: seq<int>, g: nat, k: Key)
    requires WorldInv(c, p, w) && HeldStep(c, w, w', Hold(ids, g)) && k in LeaseKeys(w.m.kv, ids, g) && k in w'.m.kv.temps
    ensures TempView(c, w'.m.kv, w'.gpu, w'.toks, k)
  {
    hide ManagerInv, NoCpuLeak, CpuView, GpuView, Inv, Recomputed, LeaseKeys, Fresh;
    var s, t := w.m.kv, w'.m.kv;
    InLeaseKeys(s, ids, g, k);
    TempsOf(c, t, k);
    LiveTokens(c, p, w, k.seqId);
    var i :| 0 <= i < |ids| && ids[i] == k.seqId;
    forall o: nat | o < c.blockSize && k.block * c.blockSize + o < |w.toks[k.seqId]|
      ensures w'.gpu(g, t.temps[k].phys, o) == w.toks[k.seqId][k.block * c.blockSize + o]
    {
      RecomputedAt(c, t, ids, g, w.toks, w.gpu, w'.gpu, i, k.block, o);
      assert k == Key(ids[i], k.block, g);
    }
  }

  lemma KeptPrivate(c: Config, s: State, t: State, ids: seq<int>, g: nat, k: Key)
    requires Inv(c, t) && LeasedTemps(c, s, t, ids, g) && k in s.temps && k in t.temps && t.temps[k] == s.temps[k] && Private(s, k)
    ensures Private(t, k)
  {
    hide Inv, Fresh;
    forall h | h in t.temps && h != k && h.group == k.group ensures t.temps[h].phys != t.temps[k].phys {
      if h in LeaseKeys(s, ids, g) {
        InLeaseKeys(s, ids, g, h);
        LeasedBlockIsPrivate(c, s, t, ids, g, h, k);
      }
    }
  }

  lemma KeptView(c: Config, w: World, w': World, ids: seq<int>, g: nat, k: Key)
    requires Inv(c, w.m.kv) && HeldStep(c, w, w', Hold(ids, g)) && k in w.m.kv.temps && k in w'.m.kv.temps
    requires w'.m.kv.temps[k] == w.m.kv.temps[k] && TempView(c, w.m.kv, w.gpu, w.toks, k)
    ensures TempView(c, w'.m.kv, w'.gpu, w'.toks, k)
  {
    hide Inv, LeasedTemps, Recomputed;
    forall o: nat ensures w'.gpu(k.group, w.m.kv.temps[k].phys, o) == w.gpu(k.group, w.m.kv.temps[k].phys, o) {
      LeaseSpares(c, w.m.kv, w'.m.kv, ids, g, w.toks, w.gpu, w'.gpu, k, o);
    }
  }

  lemma ReleaseKeeps(c: Config, p: CpuConfig, w: World, w': World, ids: seq<int>, g: nat)
    requires WorldInv(c, p, w) && Leases(c, w) && HeldStep(c, w, w', Release(ids, g))
    ensures WorldInv(c, p, w') && Leases(c, w')
  {
    hide ManagerInv, NoCpuLeak, CpuView, GpuView, Inv, EntryView;
    InvOf(c, p, w);
    CpuSideKept(c, p, w.m, w'.m.kv);
    GpuViewFrame(w.m.kv, w'.m.kv, w.gpu, w.toks, w'.toks);
  }

  /** Whatever runs while leases are held, all sequences and all recomputed prefixes keep their tokens. */
  lemma HeldStepKeeps(c: Config, p: CpuConfig, w: World, w': World, h: HeldOp)
    requires WorldInv(c, p, w) && Leases(c, w) && HeldStep(c, w, w', h)
    ensures WorldInv(c, p, w') && Leases(c, w')
    ensures w'.toks == if h.Plain? then Reference(w.toks, h.op) else w.toks
  {
    match h
    case Plain(op) => PlainKeeps(c, p, w, w', op); StepRefines(c, p, w, w', op);
    case Hold(ids, g) => HoldKeeps(c, p, w, w', ids, g);
    case Release(ids, g) => ReleaseKeeps(c, p, w, w', ids, g);
    hide WorldInv, Leases, Step, Inv;
  }

  ghost predicate HeldRun(c: Config, ws: seq<World>, hs: seq<HeldOp>) {
    |ws| == |hs| + 1 && forall i :: 0 <= i < |hs| ==> HeldStep(c, ws[i], ws[i + 1], hs[i])
  }

  lemma {:induction false} HeldRunKeeps(c: Config, p: CpuConfig, ws: seq<World>, hs: seq<HeldOp>, n: nat)
    requires HeldRun(c, ws, hs) && Initial(c, p, ws[0]) && n <= |hs|
    ensures WorldInv(c, p, ws[n]) && Leases(c, ws[n])
  {
    hide WorldInv, HeldStep, Leases;
    if n == 0 {
      InitialInv(c, p, ws[0]);
      NoLeases(c, ws[0]);
    } else {
      HeldRunKeeps(c, p, ws, hs, n - 1);
      HeldStepKeeps(c, p, ws[n - 1], ws[n], hs[n - 1]);
    }
  }

  lemma NoLeases(c: Config, w: World)
    requires Inv(c, w.m.kv) && w.m.kv.lens == map[]
    ensures Leases(c, w)
  {
    LiveTemps(c, w.m.kv);
    hide Inv;
  }

  /**
   On every run, at every point while a sequence's lease in a group is held (or it has
   nothing evicted), that group's decode table reads the whole sequence as it is now,
   whatever was appended, forked, freed or swapped meanwhile.
   */
  lemma HeldReadsWholeSequence(c: Config, p: CpuConfig, ws: seq<World>, hs: seq<HeldOp>, n: nat, id: int, g: nat, tau: nat)
    requires HeldRun(c, ws, hs) && Initial(c, p, ws[0]) && n <= |hs| && g < Groups(c)
    requires id in ws[n].m.kv.lens && tau < ws[n].m.kv.lens[id]
    requires EvictedOf(ws[n].m.kv, id) > 0 ==> Key(id, 0, g) in ws[n].m.kv.temps
    ensures var table := DecodeTable(c, ws[n].m.kv, id, g);
            && tau / c.blockSize < |table| && id in ws[n].toks && |ws[n].toks[id]| == ws[n].m.kv.lens[id]
            && ws[n].gpu(g, table[tau / c.blockSize], tau % c.blockSize) == ws[n].toks[id][tau]
  {
    hide HeldStep, Initial, WorldInv, Leases, Inv, Private, NumBlocks, DecodeTable;
    HeldRunKeeps(c, p, ws, hs, n);
    var w, l, o := ws[n], tau / c.blockSize, tau % c.blockSize;
    InvOf(c, p, w);
    LiveTokens(c, p, w, id);
    LiveIds(c, w.m.kv);
    TokenInBlock(c, w.m.kv.lens[id], tau);
    DecodeTableAt(c, w.m.kv, id, g, l);
    CachedBlocks(c, w.m.kv, id, g, l);
    CachedBlocks(c, w.m.kv, id, g, 0);
    var k := Key(id, l, g);
    if k in w.m.kv.temps {
      ViewOfTemp(c, w, k);
    } else {
      ViewOf(c, p, w, k);
      RetainedEntry(c, w.m.kv, k);
    }
  }

  lemma ViewOfTemp(c: Config, w: World, k: Key)
    requires Leases(c, w) && k in w.m.kv.temps
    ensures TempView(c, w.m.kv, w.gpu, w.toks, k)
  {
    hide Private, TempView;
  }
}
