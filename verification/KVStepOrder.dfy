/**
 One engine step over the memories. While it schedules a step the manager appends, swaps
 out and swaps in one sequence after the other; the worker then performs all the swap
 moves, after them all the block copies, and after them the model writes the tokens.
 */
module KVStepOrder {
  import opened KVState
  import opened KVSpec
  import opened KVAppend
  import opened KVSharing
  import opened KVRecompute
  import opened KVPlans
  import opened ELLMSwap
  import opened ELLMAdmission
  import opened KVMemory
  import opened KVOwnership
  import opened KVCopies
  import CacheWrites

  // ---------------------------------------------------------------- what a step schedules

  ghost predicate TakesOff(op: Op) {
    op.Save? || op.Drop? || op.Free?
  }

  /**
   The operations of one decode step. No sequence is preempted after it was appended to,
   and nothing is swapped in by a step that preempts.
   */
  ghost predicate StepOps(ops: seq<Op>) {
    && (forall i :: 0 <= i < |ops| ==> ops[i].Append? || TakesOff(ops[i]) || ops[i].Restore? || ops[i].Discard?)
    && (forall i, j :: 0 <= i < j < |ops| && ops[i].Append? && TakesOff(ops[j]) ==> ops[j].id != ops[i].id)
    && forall i, j :: 0 <= i < |ops| && 0 <= j < |ops| && ops[i].Restore? ==> !TakesOff(ops[j])
  }

  ghost function CopiesOf(c: Config, ws: seq<World>, ops: seq<Op>, n: nat): seq<Copy>
    requires n <= |ops| < |ws|
  {
    if n == 0 then [] else
    CopiesOf(c, ws, ops, n - 1)
    + if ops[n - 1].Append? then StepCopies(c, ws[n - 1].m.kv, ws[n].m.kv, ops[n - 1].id) else []
  }

  ghost function MovesOut(c: Config, ws: seq<World>, ops: seq<Op>, n: nat): seq<Copy>
    requires n <= |ops| < |ws|
  {
    if n == 0 then [] else
    MovesOut(c, ws, ops, n - 1) + if ops[n - 1].Save? then SaveMoves(c, ws[n - 1].m, ws[n].m, ops[n - 1].id) else []
  }

  ghost function MovesIn(c: Config, ws: seq<World>, ops: seq<Op>, n: nat): seq<Copy>
    requires n <= |ops| < |ws|
  {
    if n == 0 then [] else
    MovesIn(c, ws, ops, n - 1) + if ops[n - 1].Restore? then RestoreMoves(c, ws[n - 1].m, ws[n].m, ops[n - 1].id) else []
  }

  /** The appended tokens, each written to its sequence's decode slot. */
  ghost function Writes(c: Config, ws: seq<World>, ops: seq<Op>, n: nat, mem: Memory): Memory
    requires n <= |ops| < |ws|
  {
    if n == 0 then mem else
    var before := Writes(c, ws, ops, n - 1, mem);
    if ops[n - 1].Append? then WriteToken(c, ws[n].m.kv, ops[n - 1].id, ops[n - 1].token, before) else before
  }

  /** The GPU memory once the worker has moved, copied and written. */
  ghost function EngineGpu(c: Config, ws: seq<World>, ops: seq<Op>, n: nat): Memory
    requires n <= |ops| < |ws|
  {
    Writes(c, ws, ops, n, ApplyCopies(ApplyMoves(ws[0].cpu, ws[0].gpu, MovesIn(c, ws, ops, n)), CopiesOf(c, ws, ops, n)))
  }

  ghost function EngineCpu(c: Config, ws: seq<World>, ops: seq<Op>, n: nat): Memory
    requires n <= |ops| < |ws|
  {
    ApplyMoves(ws[0].gpu, ws[0].cpu, MovesOut(c, ws, ops, n))
  }

  /** Block b of group g was the tail of one of the first n appends: it is written, and perhaps copied to. */
  ghost predicate Touched(c: Config, ws: seq<World>, ops: seq<Op>, n: nat, g: nat, b: int)
    requires n <= |ops| < |ws|
  {
    n > 0
    && (Touched(c, ws, ops, n - 1, g, b)
        || (ops[n - 1].Append? && b == DecodeSlot(c, ws[n].m.kv, ops[n - 1].id, g) / c.blockSize))
  }

  /** Key k alone holds block b of group g, for a sequence that the first n operations appended to. */
  ghost predicate HeldBy(c: Config, s: State, ops: seq<Op>, n: nat, g: nat, b: int, k: Key)
    requires n <= |ops|
  {
    && k in s.entries && k.group == g < Groups(c) && s.entries[k].phys == b < c.numBlocks
    && PoolSizes(c, s) && s.refs[g][b] == 1
    && exists i :: 0 <= i < n && ops[i].Append? && ops[i].id == k.seqId
  }

  // ---------------------------------------------------------------- one operation and the holders

  lemma HeldAfterAppend(c: Config, s: State, t: State, id: int, copies: seq<Copy>, k: Key)
    requires Inv(c, s) && Inv(c, t) && Appended(c, s, t, id, copies) && k in s.entries && k.group < Groups(c)
    requires PoolSizes(c, s) && s.entries[k].phys < c.numBlocks && s.refs[k.group][s.entries[k].phys] == 1
    ensures PoolSizes(c, t) && k in t.entries && t.entries[k].phys == s.entries[k].phys
    ensures t.refs[k.group][s.entries[k].phys] == 1
  {
    hide Inv, CopyList, TailPlaced;
    InvPools(c, t);
    RefsHold(c, s, t, id, copies, k.group, s.entries[k].phys);
    SoleTailStays(c, s, t, id, copies, k.group);
    assert k in Span(c, id, Tail(c, s, id), Tail(c, s, id) + 1) ==> k == TailKey(c, s, id, k.group);
  }

  lemma HeldAfterAllocation(c: Config, s: State, t: State, id: int, n: nat, q: nat, k: Key)
    requires Allocated(c, s, t, id, n, q) && k in s.entries && k.group < Groups(c)
    requires PoolSizes(c, s) && s.entries[k].phys < c.numBlocks && s.refs[k.group][s.entries[k].phys] == 1
    ensures PoolSizes(c, t) && k in t.entries && t.entries[k] == s.entries[k]
    ensures t.refs[k.group][s.entries[k].phys] == 1
  {
    hide NumBlocks;
  }

  lemma HeldAfterFree(c: Config, s: State, t: State, id: int, k: Key)
    requires Inv(c, s) && Inv(c, t) && Freed(s, t, id) && k in s.entries && k.seqId != id && k.group < Groups(c)
    requires PoolSizes(c, s) && s.entries[k].phys < c.numBlocks && s.refs[k.group][s.entries[k].phys] == 1
    ensures PoolSizes(c, t) && k in t.entries && t.entries[k] == s.entries[k]
    ensures t.refs[k.group][s.entries[k].phys] == 1
  {
    InvPools(c, s);
    InvPools(c, t);
    hide Inv, Ledger;
    FewerHolders(c, s, t, k);
  }

  /** No operation of a step takes a block from its only holder, or gives it to another, but one that takes the holder off. */
  lemma StepKeepsHold(c: Config, p: CpuConfig, w: World, w': World, op: Op, k: Key)
    requires WorldInv(c, p, w) && WorldInv(c, p, w') && Step(c, w, w', op)
    requires op.Append? || TakesOff(op) || op.Restore? || op.Discard?
    requires TakesOff(op) ==> op.id != k.seqId
    requires k in w.m.kv.entries && k.group < Groups(c) && PoolSizes(c, w.m.kv) && w.m.kv.entries[k].phys < c.numBlocks
    requires w.m.kv.refs[k.group][w.m.kv.entries[k].phys] == 1
    ensures PoolSizes(c, w'.m.kv) && k in w'.m.kv.entries && w'.m.kv.entries[k].phys == w.m.kv.entries[k].phys
    ensures w'.m.kv.refs[k.group][w.m.kv.entries[k].phys] == 1
  {
    hide WorldInv, Inv, Appended, Allocated, Freed, PoolSizes, Groups, WriteToken, ApplyCopies, ApplyMoves, TailRetained,
         SaveMoves, RestoreMoves, CanSave, SavedCopy, WholeBlocks;
    InvOf(c, p, w);
    InvOf(c, p, w');
    var s, t := w.m.kv, w'.m.kv;
    if op.Append? {
      var copies :| Appended(c, s, t, op.id, copies);
      HeldAfterAppend(c, s, t, op.id, copies, k);
    } else if op.Restore? {
      HeldAfterAllocation(c, s, t, op.id, w.m.saved[op.id].length, WholeBlocks(c, w.m.saved[op.id].evictedTokens), k);
    } else if op.Drop? || op.Free? {
      HeldAfterFree(c, s, t, op.id, k);
    }
  }

  lemma {:induction false} RunWorld(c: Config, p: CpuConfig, ws: seq<World>, ops: seq<Op>, n: nat)
    requires IsRun(c, ws, ops) && WorldInv(c, p, ws[0]) && n <= |ops|
    ensures WorldInv(c, p, ws[n])
  {
    hide WorldInv, Step;
    if n > 0 {
      RunWorld(c, p, ws, ops, n - 1);
      StepRefines(c, p, ws[n - 1], ws[n], ops[n - 1]);
    }
  }

  /** A step's run, and its n-th operation. */
  lemma RunStep(c: Config, p: CpuConfig, ws: seq<World>, ops: seq<Op>, n: nat)
    requires IsRun(c, ws, ops) && WorldInv(c, p, ws[0]) && n < |ops|
    ensures WorldInv(c, p, ws[n]) && WorldInv(c, p, ws[n + 1]) && Step(c, ws[n], ws[n + 1], ops[n])
    ensures Inv(c, ws[n].m.kv) && Inv(c, ws[n + 1].m.kv) && PoolSizes(c, ws[n].m.kv) && PoolSizes(c, ws[n + 1].m.kv)
  {
    hide WorldInv, Step, Inv, Ledger, InRange;
    RunWorld(c, p, ws, ops, n);
    RunWorld(c, p, ws, ops, n + 1);
    InvOf(c, p, ws[n]);
    InvOf(c, p, ws[n + 1]);
    InvPools(c, ws[n].m.kv);
    InvPools(c, ws[n + 1].m.kv);
  }

  lemma AppendOf(c: Config, w: World, w': World, op: Op)
    requires Step(c, w, w', op) && op.Append?
    ensures op.id in w.m.kv.lens && TailRetained(c, w.m.kv, op.id)
    ensures Appended(c, w.m.kv, w'.m.kv, op.id, StepCopies(c, w.m.kv, w'.m.kv, op.id))
    ensures w'.gpu == WriteToken(c, w'.m.kv, op.id, op.token, ApplyCopies(w.gpu, StepCopies(c, w.m.kv, w'.m.kv, op.id)))
    ensures w'.cpu == w.cpu
  {
    hide Inv, Appended, WriteToken, ApplyCopies, TailRetained, CopyList;
    var copies :| Appended(c, w.m.kv, w'.m.kv, op.id, copies)
                  && w'.gpu == WriteToken(c, w'.m.kv, op.id, op.token, ApplyCopies(w.gpu, copies));
    AppendCopies(c, w.m.kv, w'.m.kv, op.id, copies);
  }

  lemma AppendIsLive(c: Config, w: World, w': World, op: Op)
    requires Step(c, w, w', op) && op.Append?
    ensures op.id in w.m.kv.lens
  {
    hide Step, Appended, WriteToken, ApplyCopies;
    AppendOf(c, w, w', op);
  }

  /** The tail block of an append has its sequence as only holder. */
  lemma TailHeld(c: Config, w: World, w': World, op: Op, g: nat)
    requires Step(c, w, w', op) && op.Append? && Inv(c, w.m.kv) && Inv(c, w'.m.kv) && g < Groups(c)
    ensures op.id in w.m.kv.lens && PoolSizes(c, w'.m.kv)
    ensures var k, b := TailKey(c, w.m.kv, op.id, g), DecodeSlot(c, w'.m.kv, op.id, g) / c.blockSize;
            k in w'.m.kv.entries && w'.m.kv.entries[k].phys == b < c.numBlocks && w'.m.kv.refs[g][b] == 1
  {
    hide Step, Inv, Ledger, Appended, TailRetained, DecodeSlot;
    AppendOf(c, w, w', op);
    var copies := StepCopies(c, w.m.kv, w'.m.kv, op.id);
    DecodeSlotParts(c, w.m.kv, w'.m.kv, op.id, copies, g);
    AppendedTailUnshared(c, w.m.kv, w'.m.kv, op.id, copies, g);
    InvPools(c, w'.m.kv);
  }

  /** A touched block stays with the sequence that was appended to, and with it alone. */
  lemma {:induction false} TouchedHeld(c: Config, p: CpuConfig, ws: seq<World>, ops: seq<Op>, n: nat, g: nat, b: int)
    requires IsRun(c, ws, ops) && WorldInv(c, p, ws[0]) && StepOps(ops) && n <= |ops| && g < Groups(c)
    requires Touched(c, ws, ops, n, g, b)
    ensures exists k :: HeldBy(c, ws[n].m.kv, ops, n, g, b, k)
  {
    hide WorldInv, Inv, Step, PoolSizes, Groups, DecodeSlot, HeldBy;
    RunStep(c, p, ws, ops, n - 1);
    var w, w', op := ws[n - 1], ws[n], ops[n - 1];
    if Touched(c, ws, ops, n - 1, g, b) {
      TouchedHeld(c, p, ws, ops, n - 1, g, b);
      var k :| HeldBy(c, w.m.kv, ops, n - 1, g, b, k);
      HoldCarried(c, p, w, w', ops, n, g, b, k);
    } else {
      TailHeld(c, w, w', op, g);
      LatestHeld(c, w, w', ops, n, g, b);
    }
  }

  lemma LatestHeld(c: Config, w: World, w': World, ops: seq<Op>, n: nat, g: nat, b: int)
    requires 0 < n <= |ops| && ops[n - 1].Append? && ops[n - 1].id in w.m.kv.lens && PoolSizes(c, w'.m.kv) && g < Groups(c)
    requires var k := TailKey(c, w.m.kv, ops[n - 1].id, g);
             k in w'.m.kv.entries && w'.m.kv.entries[k].phys == b < c.numBlocks && w'.m.kv.refs[g][b] == 1
    ensures HeldBy(c, w'.m.kv, ops, n, g, b, TailKey(c, w.m.kv, ops[n - 1].id, g))
  {
  }

  lemma HoldCarried(c: Config, p: CpuConfig, w: World, w': World, ops: seq<Op>, n: nat, g: nat, b: int, k: Key)
    requires WorldInv(c, p, w) && WorldInv(c, p, w') && 0 < n <= |ops| && Step(c, w, w', ops[n - 1]) && StepOps(ops)
    requires HeldBy(c, w.m.kv, ops, n - 1, g, b, k)
    ensures HeldBy(c, w'.m.kv, ops, n, g, b, k)
  {
    hide WorldInv, Step, PoolSizes, Groups;
    var i :| 0 <= i < n - 1 && ops[i].Append? && ops[i].id == k.seqId;
    StepKeepsHold(c, p, w, w', ops[n - 1], k);
  }

  // ---------------------------------------------------------------- writes and copies, address by address

  lemma {:induction false} WritesSpare(c: Config, ws: seq<World>, ops: seq<Op>, n: nat, mem: Memory, g: nat, b: int, o: int)
    requires n <= |ops| < |ws| && g < Groups(c) && !Touched(c, ws, ops, n, g, b)
    ensures Writes(c, ws, ops, n, mem)(g, b, o) == mem(g, b, o)
  {
    hide WriteToken, DecodeSlot, Groups;
    if n > 0 {
      WritesSpare(c, ws, ops, n - 1, mem, g, b, o);
      if ops[n - 1].Append? { WriteEffect(c, ws[n].m.kv, ops[n - 1].id, ops[n - 1].token, Writes(c, ws, ops, n - 1, mem), g, b, o); }
    }
  }

  /** What an address holds after the writes depends on what it held, and on no other address. */
  lemma {:induction false} WritesAgree(c: Config, ws: seq<World>, ops: seq<Op>, n: nat, mem: Memory, mem': Memory,
                                       g: nat, b: int, o: int)
    requires n <= |ops| < |ws| && g < Groups(c) && mem(g, b, o) == mem'(g, b, o)
    ensures Writes(c, ws, ops, n, mem)(g, b, o) == Writes(c, ws, ops, n, mem')(g, b, o)
  {
    hide WriteToken, DecodeSlot, Groups;
    if n > 0 {
      WritesAgree(c, ws, ops, n - 1, mem, mem', g, b, o);
      if ops[n - 1].Append? {
        WriteEffect(c, ws[n].m.kv, ops[n - 1].id, ops[n - 1].token, Writes(c, ws, ops, n - 1, mem), g, b, o);
        WriteEffect(c, ws[n].m.kv, ops[n - 1].id, ops[n - 1].token, Writes(c, ws, ops, n - 1, mem'), g, b, o);
      }
    }
  }

  /** One of the first n appends copies block b of group g. */
  ghost predicate Source(c: Config, ws: seq<World>, ops: seq<Op>, n: nat, g: nat, b: int)
    requires n <= |ops| < |ws|
  {
    n > 0 && (Source(c, ws, ops, n - 1, g, b) || (ops[n - 1].Append? && CopiedFrom(c, ws[n - 1].m.kv, ws[n].m.kv, ops[n - 1].id, g, b)))
  }

  ghost predicate CopiedFrom(c: Config, s: State, t: State, id: int, g: nat, b: int) {
    id in s.lens && Moved(s.entries, t.entries, TailKey(c, s, id, g)) && b == s.entries[TailKey(c, s, id, g)].phys
  }

  ghost predicate CopiedTo(c: Config, s: State, t: State, id: int, g: nat, b: int) {
    id in s.lens && Moved(s.entries, t.entries, TailKey(c, s, id, g)) && b == t.entries[TailKey(c, s, id, g)].phys
  }

  /** The copies of one more append, at one address. */
  lemma CopiesStep(c: Config, ws: seq<World>, ops: seq<Op>, n: nat, mem: Memory, g: nat, b: int, o: int)
    requires 0 < n <= |ops| < |ws| && g < Groups(c) && ops[n - 1].Append? && ops[n - 1].id in ws[n - 1].m.kv.lens
    ensures var s, t, id := ws[n - 1].m.kv, ws[n].m.kv, ops[n - 1].id;
            ApplyCopies(mem, CopiesOf(c, ws, ops, n))(g, b, o) ==
            ApplyCopies(mem, CopiesOf(c, ws, ops, n - 1))
              (g, if CopiedTo(c, s, t, id, g, b) then s.entries[TailKey(c, s, id, g)].phys else b, o)
  {
    hide ApplyCopies, StepCopies, Groups;
    var s, t, id := ws[n - 1].m.kv, ws[n].m.kv, ops[n - 1].id;
    CopiesConcat(mem, CopiesOf(c, ws, ops, n - 1), StepCopies(c, s, t, id), g, b, o);
    StepCopiesAt(c, s, t, id, ApplyCopies(mem, CopiesOf(c, ws, ops, n - 1)), g, b, o);
  }

  lemma NoMoreCopies(c: Config, ws: seq<World>, ops: seq<Op>, n: nat)
    requires 0 < n <= |ops| < |ws| && !ops[n - 1].Append?
    ensures CopiesOf(c, ws, ops, n) == CopiesOf(c, ws, ops, n - 1)
  {
  }

  /** Memories that agree on a block and on every copied block agree on it after the copies. */
  lemma {:induction false} CopiesAgree(c: Config, ws: seq<World>, ops: seq<Op>, n: nat, mem: Memory, mem': Memory,
                                       g: nat, b: int, o: int)
    requires IsRun(c, ws, ops) && n <= |ops| && g < Groups(c) && mem(g, b, o) == mem'(g, b, o)
    requires forall x :: Source(c, ws, ops, n, g, x) ==> mem(g, x, o) == mem'(g, x, o)
    ensures ApplyCopies(mem, CopiesOf(c, ws, ops, n))(g, b, o) == ApplyCopies(mem', CopiesOf(c, ws, ops, n))(g, b, o)
  {
    hide ApplyCopies, Step, Moved, CopiesOf, Groups;
    if n == 0 {
      NoCopies(c, ws, ops);
      NoCopiesApplied(mem);
      NoCopiesApplied(mem');
    } else if ops[n - 1].Append? {
      assert Step(c, ws[n - 1], ws[n - 1 + 1], ops[n - 1]);
      AppendIsLive(c, ws[n - 1], ws[n], ops[n - 1]);
      CopiesStep(c, ws, ops, n, mem, g, b, o);
      CopiesStep(c, ws, ops, n, mem', g, b, o);
      var s, t, id := ws[n - 1].m.kv, ws[n].m.kv, ops[n - 1].id;
      if CopiedTo(c, s, t, id, g, b) {
        SourceOf(c, s, t, id, g, b);
        CopiesAgree(c, ws, ops, n - 1, mem, mem', g, s.entries[TailKey(c, s, id, g)].phys, o);
      } else {
        CopiesAgree(c, ws, ops, n - 1, mem, mem', g, b, o);
      }
    } else {
      NoMoreCopies(c, ws, ops, n);
      CopiesAgree(c, ws, ops, n - 1, mem, mem', g, b, o);
    }
  }

  lemma NoCopies(c: Config, ws: seq<World>, ops: seq<Op>)
    requires |ops| < |ws|
    ensures CopiesOf(c, ws, ops, 0) == []
  {
  }

  lemma SourceOf(c: Config, s: State, t: State, id: int, g: nat, b: int)
    requires CopiedTo(c, s, t, id, g, b)
    ensures TailKey(c, s, id, g) in s.entries && CopiedFrom(c, s, t, id, g, s.entries[TailKey(c, s, id, g)].phys)
  {
  }

  /** A copy target is the tail block of its append. */
  lemma TargetIsTail(c: Config, w: World, w': World, op: Op, g: nat, b: int)
    requires Step(c, w, w', op) && op.Append? && Inv(c, w.m.kv) && Inv(c, w'.m.kv) && g < Groups(c)
    requires CopiedTo(c, w.m.kv, w'.m.kv, op.id, g, b)
    ensures b == DecodeSlot(c, w'.m.kv, op.id, g) / c.blockSize
  {
    hide Step, Inv, DecodeSlot, Groups, PoolSizes;
    TailHeld(c, w, w', op, g);
  }

  /** A block that no append touched is as it was before the copies and the writes. */
  lemma {:induction false} CopiesSpare(c: Config, p: CpuConfig, ws: seq<World>, ops: seq<Op>, n: nat, mem: Memory,
                                       g: nat, b: int, o: int)
    requires IsRun(c, ws, ops) && WorldInv(c, p, ws[0]) && n <= |ops| && g < Groups(c) && !Touched(c, ws, ops, n, g, b)
    ensures ApplyCopies(mem, CopiesOf(c, ws, ops, n))(g, b, o) == mem(g, b, o)
  {
    hide WorldInv, Inv, ApplyCopies, Step, CopiedTo, CopiesOf, Groups, DecodeSlot, PoolSizes;
    if n == 0 {
      NoCopies(c, ws, ops);
      NoCopiesApplied(mem);
    } else {
      CopiesSpare(c, p, ws, ops, n - 1, mem, g, b, o);
      if ops[n - 1].Append? {
        RunStep(c, p, ws, ops, n - 1);
        AppendIsLive(c, ws[n - 1], ws[n], ops[n - 1]);
        CopiesStep(c, ws, ops, n, mem, g, b, o);
        if CopiedTo(c, ws[n - 1].m.kv, ws[n].m.kv, ops[n - 1].id, g, b) { TargetIsTail(c, ws[n - 1], ws[n], ops[n - 1], g, b); }
      } else {
        NoMoreCopies(c, ws, ops, n);
      }
    }
  }

  /**
   A block that is the tail of no append of the step reads the same before, during and after
   the copies and the writes, so a move out of it may run alongside them.
   */
  lemma UntouchedStays(c: Config, p: CpuConfig, ws: seq<World>, ops: seq<Op>, n: nat, mem: Memory, g: nat, b: int, o: int)
    requires IsRun(c, ws, ops) && WorldInv(c, p, ws[0]) && n <= |ops| && g < Groups(c) && !Touched(c, ws, ops, n, g, b)
    ensures ApplyCopies(mem, CopiesOf(c, ws, ops, n))(g, b, o) == mem(g, b, o)
    ensures Writes(c, ws, ops, n, ApplyCopies(mem, CopiesOf(c, ws, ops, n)))(g, b, o) == mem(g, b, o)
  {
    hide WorldInv, Step, Touched, Writes, CopiesOf, ApplyCopies, Groups;
    CopiesSpare(c, p, ws, ops, n, mem, g, b, o);
    WritesSpare(c, ws, ops, n, ApplyCopies(mem, CopiesOf(c, ws, ops, n)), g, b, o);
  }

  // ---------------------------------------------------------------- one operation in both orders

  /** Equal in every group of the configuration. */
  ghost predicate Same(c: Config, a: Memory, b: Memory) {
    forall g: nat, x: int, o: int :: g < Groups(c) ==> a(g, x, o) == b(g, x, o)
  }

  ghost predicate InOrder(c: Config, ws: seq<World>, ops: seq<Op>, n: nat)
    requires n <= |ops| < |ws|
  {
    Same(c, EngineGpu(c, ws, ops, n), ws[n].gpu) && Same(c, EngineCpu(c, ws, ops, n), ws[n].cpu)
  }

  ghost predicate StepRun(c: Config, p: CpuConfig, ws: seq<World>, ops: seq<Op>) {
    IsRun(c, ws, ops) && WorldInv(c, p, ws[0]) && StepOps(ops)
  }

  /** A block that is free, or shared, has not been touched. */
  lemma NotTouched(c: Config, p: CpuConfig, ws: seq<World>, ops: seq<Op>, n: nat, g: nat, b: nat)
    requires StepRun(c, p, ws, ops) && n <= |ops| && g < Groups(c) && b < c.numBlocks
    requires PoolSizes(c, ws[n].m.kv) && ws[n].m.kv.refs[g][b] != 1
    ensures !Touched(c, ws, ops, n, g, b)
  {
    hide WorldInv, Step, Groups, Touched, StepOps, PoolSizes;
    if Touched(c, ws, ops, n, g, b) { TouchedHeld(c, p, ws, ops, n, g, b); }
  }

  /** An append copies from a shared block to a block that was free. */
  lemma CopiedBlocks(c: Config, w: World, w': World, op: Op, g: nat, b: int)
    requires Step(c, w, w', op) && op.Append? && Inv(c, w.m.kv) && Inv(c, w'.m.kv) && g < Groups(c)
    requires CopiedTo(c, w.m.kv, w'.m.kv, op.id, g, b)
    ensures PoolSizes(c, w.m.kv) && 0 <= b < c.numBlocks && w.m.kv.refs[g][b] == 0
    ensures var k := TailKey(c, w.m.kv, op.id, g);
            k in w.m.kv.entries && w.m.kv.entries[k].phys < c.numBlocks && w.m.kv.refs[g][w.m.kv.entries[k].phys] > 1
  {
    hide Step, Inv, Appended, TailRetained, Ledger;
    AppendOf(c, w, w', op);
    InvPools(c, w.m.kv);
    CopiedRefs(c, w.m.kv, w'.m.kv, op.id, StepCopies(c, w.m.kv, w'.m.kv, op.id), g);
  }

  lemma AppendOrder(c: Config, p: CpuConfig, ws: seq<World>, ops: seq<Op>, n: nat, g: nat, b: int, o: int)
    requires StepRun(c, p, ws, ops) && n < |ops| && ops[n].Append? && g < Groups(c)
    requires Same(c, EngineGpu(c, ws, ops, n), ws[n].gpu)
    ensures EngineGpu(c, ws, ops, n + 1)(g, b, o) == ws[n + 1].gpu(g, b, o)
  {
    hide WorldInv, Inv, Step, StepOps, Groups, WriteToken, ApplyCopies, ApplyMoves, CopiesOf, Touched, PoolSizes,
         StepCopies, Appended, TailRetained, CopiedTo;
    RunStep(c, p, ws, ops, n);
    var w, w', op := ws[n], ws[n + 1], ops[n];
    var s, t, id := w.m.kv, w'.m.kv, op.id;
    var moved := ApplyMoves(ws[0].cpu, ws[0].gpu, MovesIn(c, ws, ops, n));
    var before, after := ApplyCopies(moved, CopiesOf(c, ws, ops, n)), ApplyCopies(moved, CopiesOf(c, ws, ops, n + 1));
    assert MovesIn(c, ws, ops, n + 1) == MovesIn(c, ws, ops, n);
    AppendOf(c, w, w', op);
    WriteEffect(c, t, id, op.token, Writes(c, ws, ops, n, after), g, b, o);
    WriteEffect(c, t, id, op.token, ApplyCopies(w.gpu, StepCopies(c, s, t, id)), g, b, o);
    StepCopiesTo(c, s, t, id, w.gpu, g, b, o);
    CopiesStep(c, ws, ops, n + 1, moved, g, b, o);
    if CopiedTo(c, s, t, id, g, b) {
      CopiedBlocks(c, w, w', op, g, b);
      var a := s.entries[TailKey(c, s, id, g)].phys;
      NotTouched(c, p, ws, ops, n, g, b);
      NotTouched(c, p, ws, ops, n, g, a);
      WritesSpare(c, ws, ops, n, after, g, b, o);
      WritesSpare(c, ws, ops, n, before, g, a, o);
    } else {
      WritesAgree(c, ws, ops, n, after, before, g, b, o);
      assert EngineGpu(c, ws, ops, n)(g, b, o) == w.gpu(g, b, o);
    }
  }

  lemma StepCopiesTo(c: Config, s: State, t: State, id: int, mem: Memory, g: nat, b: int, o: int)
    requires id in s.lens && g < Groups(c)
    ensures ApplyCopies(mem, StepCopies(c, s, t, id))(g, b, o) ==
            mem(g, if CopiedTo(c, s, t, id, g, b) then s.entries[TailKey(c, s, id, g)].phys else b, o)
  {
    hide ApplyCopies, StepCopies, Groups;
    StepCopiesAt(c, s, t, id, mem, g, b, o);
  }

  // ---------------------------------------------------------------- swapping out

  lemma {:induction false} MovesConcat(src: Memory, dst: Memory, a: seq<Copy>, b: seq<Copy>, g: int, x: int, o: int)
    ensures ApplyMoves(src, dst, a + b)(g, x, o) == ApplyMoves(src, ApplyMoves(src, dst, a), b)(g, x, o)
  {
    hide ApplyMoves;
    if b == [] {
      assert a + b == a;
      NoMoves(src, ApplyMoves(src, dst, a));
    } else {
      var n := |b| - 1;
      assert a + b == (a + b[..n]) + [b[n]] && b == b[..n] + [b[n]];
      MoveSnoc(src, dst, a + b[..n], b[n], g, x, o);
      MoveSnoc(src, ApplyMoves(src, dst, a), b[..n], b[n], g, x, o);
      MovesConcat(src, dst, a, b[..n], g, x, o);
    }
  }

  lemma {:induction false} NothingSwappedIn(c: Config, ws: seq<World>, ops: seq<Op>, n: nat)
    requires n <= |ops| < |ws| && forall i :: 0 <= i < n ==> !ops[i].Restore?
    ensures MovesIn(c, ws, ops, n) == []
  {
    if n > 0 { NothingSwappedIn(c, ws, ops, n - 1); }
  }

  lemma {:induction false} NothingSwappedOut(c: Config, ws: seq<World>, ops: seq<Op>, n: nat)
    requires n <= |ops| < |ws| && forall i :: 0 <= i < n ==> !ops[i].Save?
    ensures MovesOut(c, ws, ops, n) == []
  {
    if n > 0 { NothingSwappedOut(c, ws, ops, n - 1); }
  }

  /** A preempted sequence's retained blocks still hold what they held when the step began. */
  lemma VictimUntouched(c: Config, p: CpuConfig, ws: seq<World>, ops: seq<Op>, n: nat, g: nat, j: nat, o: int)
    requires StepRun(c, p, ws, ops) && n < |ops| && ops[n].Save? && g < Groups(c)
    requires j < |RetainedTable(c, ws[n].m.kv, ops[n].id, g)|
    ensures EngineGpu(c, ws, ops, n)(g, RetainedTable(c, ws[n].m.kv, ops[n].id, g)[j], o)
            == ws[0].gpu(g, RetainedTable(c, ws[n].m.kv, ops[n].id, g)[j], o)
  {
    hide WorldInv, Inv, Step, Groups, ApplyCopies, ApplyMoves, CopiesOf, Touched, PoolSizes, RetainedTable, Writes;
    RunStep(c, p, ws, ops, n);
    var s, id := ws[n].m.kv, ops[n].id;
    var b := RetainedTable(c, s, id, g)[j];
    SavedIsLive(c, ws[n], ws[n + 1], id);
    RetainedAt(c, s, id, g, j);
    if Touched(c, ws, ops, n, g, b) {
      TouchedHeld(c, p, ws, ops, n, g, b);
      var k :| HeldBy(c, s, ops, n, g, b, k);
      OnlyHolder(c, s, ops, n, g, b, k, Key(id, s.evicted[id] + j, g));
    }
    NothingSwappedIn(c, ws, ops, n);
    NoMoves(ws[0].cpu, ws[0].gpu);
    UntouchedStays(c, p, ws, ops, n, ws[0].gpu, g, b, o);
  }

  lemma SavedIsLive(c: Config, w: World, w': World, id: int)
    requires Step(c, w, w', Save(id))
    ensures id in w.m.kv.lens && id in w.m.kv.evicted && SaveStep(c, w.m, w'.m, id)
    ensures w'.gpu == w.gpu && w'.cpu == ApplyMoves(w.gpu, w.cpu, SaveMoves(c, w.m, w'.m, id))
  {
    hide ApplyMoves, SaveMoves, SavedCopy;
  }

  lemma OnlyHolder(c: Config, s: State, ops: seq<Op>, n: nat, g: nat, b: nat, k: Key, h: Key)
    requires Inv(c, s) && n <= |ops| && HeldBy(c, s, ops, n, g, b, k) && h in s.entries && h.group == g && s.entries[h].phys == b
    ensures exists i :: 0 <= i < n && ops[i].Append? && ops[i].id == h.seqId
  {
    InvPools(c, s);
    hide Inv, Ledger;
    if h != k { SoleHolder(c, s, k, h); }
  }

  lemma SaveOrder(c: Config, p: CpuConfig, ws: seq<World>, ops: seq<Op>, n: nat, g: nat, x: int, o: int)
    requires StepRun(c, p, ws, ops) && n < |ops| && ops[n].Save? && g < Groups(c) && InOrder(c, ws, ops, n)
    ensures EngineCpu(c, ws, ops, n + 1)(g, x, o) == ws[n + 1].cpu(g, x, o)
  {
    hide WorldInv, Inv, Step, StepOps, Groups, ApplyMoves, RetainedTable, EngineGpu, Moves, SaveStep, CpuDisjoint, PoolSizes;
    RunStep(c, p, ws, ops, n);
    var w, w', id := ws[n], ws[n + 1], ops[n].id;
    SavedIsLive(c, w, w', id);
    SaveShapeOf(c, p, w, w', id);
    var src, dst := RetainedTables(c, w.m.kv, id), w'.m.saved[id].tables;
    var mv := Moves(src, dst, Groups(c));
    MovesConcat(ws[0].gpu, ws[0].cpu, MovesOut(c, ws, ops, n), mv, g, x, o);
    MovesEffect(ws[0].gpu, EngineCpu(c, ws, ops, n), src, dst, Groups(c), g, x, o);
    MovesEffect(w.gpu, w.cpu, src, dst, Groups(c), g, x, o);
    if x in dst[g] {
      var j :| 0 <= j < |dst[g]| && dst[g][j] == x;
      VictimUntouched(c, p, ws, ops, n, g, j, o);
    }
  }

  lemma SaveShapeOf(c: Config, p: CpuConfig, w: World, w': World, id: int)
    requires WorldInv(c, p, w) && SaveStep(c, w.m, w'.m, id)
    ensures id in w'.m.saved && SameShape(RetainedTables(c, w.m.kv, id), w'.m.saved[id].tables)
    ensures |w'.m.saved[id].tables| == Groups(c)
    ensures forall g :: 0 <= g < Groups(c) ==> NoDup(w'.m.saved[id].tables[g])
  {
    SaveShape(c, p, w.m, w'.m, id);
    hide WorldInv, SaveStep;
  }

  // ---------------------------------------------------------------- swapping in

  /** As long as nobody is preempted, copied blocks stay referenced. */
  lemma {:induction false} SourceHeld(c: Config, p: CpuConfig, ws: seq<World>, ops: seq<Op>, n: nat, g: nat, b: int)
    requires StepRun(c, p, ws, ops) && n <= |ops| && g < Groups(c) && Source(c, ws, ops, n, g, b)
    requires forall i :: 0 <= i < n ==> !TakesOff(ops[i])
    ensures PoolSizes(c, ws[n].m.kv) && 0 <= b < c.numBlocks && ws[n].m.kv.refs[g][b] >= 1
  {
    hide WorldInv, Inv, Step, Groups, PoolSizes, CopiedFrom;
    RunStep(c, p, ws, ops, n - 1);
    var w, w', op := ws[n - 1], ws[n], ops[n - 1];
    if Source(c, ws, ops, n - 1, g, b) {
      SourceHeld(c, p, ws, ops, n - 1, g, b);
    } else {
      CopiedFromHeld(c, w, w', op, g, b);
    }
    StaysReferenced(c, p, w, w', op, g, b);
  }

  lemma CopiedFromHeld(c: Config, w: World, w': World, op: Op, g: nat, b: int)
    requires Step(c, w, w', op) && op.Append? && Inv(c, w.m.kv) && Inv(c, w'.m.kv) && g < Groups(c)
    requires CopiedFrom(c, w.m.kv, w'.m.kv, op.id, g, b)
    ensures PoolSizes(c, w.m.kv) && 0 <= b < c.numBlocks && w.m.kv.refs[g][b] >= 1
  {
    hide Step, Inv, PoolSizes;
    CopiedBlocks(c, w, w', op, g, w'.m.kv.entries[TailKey(c, w.m.kv, op.id, g)].phys);
  }

  lemma StaysReferenced(c: Config, p: CpuConfig, w: World, w': World, op: Op, g: nat, b: nat)
    requires Inv(c, w.m.kv) && Inv(c, w'.m.kv) && Step(c, w, w', op) && (op.Append? || op.Restore? || op.Discard?)
    requires g < Groups(c) && b < c.numBlocks && PoolSizes(c, w.m.kv) && PoolSizes(c, w'.m.kv) && w.m.kv.refs[g][b] >= 1
    ensures w'.m.kv.refs[g][b] >= 1
  {
    hide Inv, Appended, WriteToken, ApplyCopies, ApplyMoves, TailRetained, RestoreMoves, WholeBlocks, EntriesGrown;
    if op.Append? {
      var copies :| Appended(c, w.m.kv, w'.m.kv, op.id, copies);
      RefsHold(c, w.m.kv, w'.m.kv, op.id, copies, g, b);
    }
  }

  lemma RestoredOf(c: Config, p: CpuConfig, w: World, w': World, id: int)
    requires WorldInv(c, p, w) && Step(c, w, w', Restore(id))
    ensures id in w'.m.kv.evicted && id in w'.m.kv.lens && id in w.m.saved && id !in w.m.kv.lens && |w.m.saved[id].tables| == Groups(c)
    ensures SameShape(w.m.saved[id].tables, RetainedTables(c, w'.m.kv, id))
    ensures forall g :: 0 <= g < Groups(c) ==> NoDup(RetainedTable(c, w'.m.kv, id, g))
    ensures w'.gpu == ApplyMoves(w.cpu, w.gpu, RestoreMoves(c, w.m, w'.m, id)) && w'.cpu == w.cpu
  {
    RestoreShape(c, p, w.m, w'.m, id);
    hide WorldInv, Inv, ApplyMoves, RestoreMoves, RetainedTable;
  }

  /** A restored block was free. */
  lemma RestoredWasFree(c: Config, w: World, w': World, id: int, g: nat, b: int)
    requires Inv(c, w.m.kv) && Inv(c, w'.m.kv) && Step(c, w, w', Restore(id)) && id in w'.m.kv.lens && id in w'.m.kv.evicted
    requires id !in w.m.kv.lens && g < Groups(c) && b in RetainedTable(c, w'.m.kv, id, g)
    ensures PoolSizes(c, w.m.kv) && 0 <= b < c.numBlocks && w.m.kv.refs[g][b] == 0
  {
    hide Inv, Step, RetainedTable, PoolSizes;
    var table := RetainedTable(c, w'.m.kv, id, g);
    var j :| 0 <= j < |table| && table[j] == b;
    RetainedAt(c, w'.m.kv, id, g, j);
    NewEntryWasFree(c, w, w', id, Key(id, w'.m.kv.evicted[id] + j, g));
  }

  lemma NewEntryWasFree(c: Config, w: World, w': World, id: int, k: Key)
    requires Inv(c, w.m.kv) && Step(c, w, w', Restore(id)) && id !in w.m.kv.lens
    requires k in w'.m.kv.entries && k.seqId == id && k.group < Groups(c)
    ensures PoolSizes(c, w.m.kv) && w'.m.kv.entries[k].phys < c.numBlocks && w.m.kv.refs[k.group][w'.m.kv.entries[k].phys] == 0
  {
    NoKeys(c, w.m.kv, id);
    hide Inv, NumBlocks, WholeBlocks, ApplyMoves, RestoreMoves, Groups;
  }

  lemma RestoreOrder(c: Config, p: CpuConfig, ws: seq<World>, ops: seq<Op>, n: nat, g: nat, b: int, o: int)
    requires StepRun(c, p, ws, ops) && n < |ops| && ops[n].Restore? && g < Groups(c) && InOrder(c, ws, ops, n)
    ensures EngineGpu(c, ws, ops, n + 1)(g, b, o) == ws[n + 1].gpu(g, b, o)
  {
    hide WorldInv, Inv, Step, Groups, ApplyMoves, ApplyCopies, CopiesOf, RetainedTable, Moves, PoolSizes, Touched, Source;
    RunStep(c, p, ws, ops, n);
    var w, w', id := ws[n], ws[n + 1], ops[n].id;
    RestoredOf(c, p, w, w', id);
    NothingSwappedOut(c, ws, ops, n);
    NoMoves(ws[0].gpu, ws[0].cpu);
    var src, dst := w.m.saved[id].tables, RetainedTables(c, w'.m.kv, id);
    var mv := Moves(src, dst, Groups(c));
    var before := ApplyMoves(ws[0].cpu, ws[0].gpu, MovesIn(c, ws, ops, n));
    var after := ApplyMoves(ws[0].cpu, ws[0].gpu, MovesIn(c, ws, ops, n) + mv);
    forall x: int
      ensures x !in dst[g] ==> after(g, x, o) == before(g, x, o)
      ensures forall j :: 0 <= j < |dst[g]| && dst[g][j] == x ==> after(g, x, o) == ws[0].cpu(g, src[g][j], o)
    {
      MovesConcat(ws[0].cpu, ws[0].gpu, MovesIn(c, ws, ops, n), mv, g, x, o);
      MovesEffect(ws[0].cpu, before, src, dst, Groups(c), g, x, o);
    }
    MovesEffect(w.cpu, w.gpu, src, dst, Groups(c), g, b, o);
    assert EngineGpu(c, ws, ops, n + 1) == Writes(c, ws, ops, n, ApplyCopies(after, CopiesOf(c, ws, ops, n))) by {
      NoMoreCopies(c, ws, ops, n + 1);
    }
    if b in dst[g] {
      RestoredWasFree(c, w, w', id, g, b);
      NotTouched(c, p, ws, ops, n, g, b);
      UntouchedStays(c, p, ws, ops, n, after, g, b, o);
    } else {
      forall x | Source(c, ws, ops, n, g, x) ensures after(g, x, o) == before(g, x, o) {
        SourceHeld(c, p, ws, ops, n, g, x);
        if x in dst[g] { RestoredWasFree(c, w, w', id, g, x); }
      }
      CopiesAgree(c, ws, ops, n, after, before, g, b, o);
      WritesAgree(c, ws, ops, n, ApplyCopies(after, CopiesOf(c, ws, ops, n)), ApplyCopies(before, CopiesOf(c, ws, ops, n)), g, b, o);
    }
  }

  // ---------------------------------------------------------------- the order of the copies

  ghost predicate Referenced(c: Config, s: State, g: nat, b: int) {
    PoolSizes(c, s) && g < Groups(c) && 0 <= b < c.numBlocks && s.refs[g][b] >= 1
  }

  /** No preemption releases the last hold on a block that an earlier append of the step copies. */
  ghost predicate SourcesStay(c: Config, ws: seq<World>, ops: seq<Op>, n: nat, g: nat)
    requires n <= |ops| < |ws|
  {
    forall m: nat, x: int :: m <= n && Source(c, ws, ops, m, g, x) ==> Referenced(c, ws[m].m.kv, g, x)
  }

  /** That holds if the step preempts nobody. */
  lemma NobodyPreempted(c: Config, p: CpuConfig, ws: seq<World>, ops: seq<Op>, n: nat, g: nat)
    requires StepRun(c, p, ws, ops) && n <= |ops| && g < Groups(c) && forall i :: 0 <= i < n ==> !TakesOff(ops[i])
    ensures SourcesStay(c, ws, ops, n, g)
  {
    hide WorldInv, Step, StepOps, Source, Groups, PoolSizes;
    forall m: nat, x: int | m <= n && Source(c, ws, ops, m, g, x) ensures Referenced(c, ws[m].m.kv, g, x) {
      SourceHeld(c, p, ws, ops, m, g, x);
    }
  }

  /** Collected pairs lead from copied blocks to touched ones. */
  lemma {:induction false} PairsAre(c: Config, p: CpuConfig, ws: seq<World>, ops: seq<Op>, n: nat, g: nat, i: nat)
    requires StepRun(c, p, ws, ops) && n <= |ops| && g < Groups(c) && i < |GroupPairs(CopiesOf(c, ws, ops, n), g)|
    ensures var pair := GroupPairs(CopiesOf(c, ws, ops, n), g)[i];
            Source(c, ws, ops, n, g, pair.0) && Touched(c, ws, ops, n, g, pair.1)
  {
    hide WorldInv, Step, StepOps, GroupPairs, CopiesOf, Source, Touched, Groups;
    if n == 0 {
      NoCopies(c, ws, ops);
      NoPairs(g);
    } else {
      if i < |GroupPairs(CopiesOf(c, ws, ops, n - 1), g)| { PairsAre(c, p, ws, ops, n - 1, g, i); }
      if ops[n - 1].Append? {
        OnePair(c, p, ws, ops, n, g, i);
      } else {
        NoMoreCopies(c, ws, ops, n);
        var pair := GroupPairs(CopiesOf(c, ws, ops, n - 1), g)[i];
        StillCounts(c, ws, ops, n, g, pair.0, pair.1);
      }
    }
  }

  /** One pair of the list after one more append. */
  lemma OnePair(c: Config, p: CpuConfig, ws: seq<World>, ops: seq<Op>, n: nat, g: nat, i: nat)
    requires StepRun(c, p, ws, ops) && 0 < n <= |ops| && g < Groups(c) && ops[n - 1].Append?
    requires i < |GroupPairs(CopiesOf(c, ws, ops, n), g)|
    requires var earlier := GroupPairs(CopiesOf(c, ws, ops, n - 1), g);
             i < |earlier| ==> Source(c, ws, ops, n - 1, g, earlier[i].0) && Touched(c, ws, ops, n - 1, g, earlier[i].1)
    ensures var pair := GroupPairs(CopiesOf(c, ws, ops, n), g)[i];
            Source(c, ws, ops, n, g, pair.0) && Touched(c, ws, ops, n, g, pair.1)
  {
    hide WorldInv, Step, StepOps, GroupPairs, CopiesOf, Source, Touched, CopiedFrom, CopiedTo, Groups;
    assert Step(c, ws[n - 1], ws[n - 1 + 1], ops[n - 1]);
    AppendIsLive(c, ws[n - 1], ws[n], ops[n - 1]);
    LatestPairs(c, ws, ops, n, g);
    var earlier, all := GroupPairs(CopiesOf(c, ws, ops, n - 1), g), GroupPairs(CopiesOf(c, ws, ops, n), g);
    if i < |earlier| {
      assert all[i] == earlier[i];
      StillCounts(c, ws, ops, n, g, earlier[i].0, earlier[i].1);
    } else {
      LatestPairIs(c, p, ws, ops, n, g, all[i]);
    }
  }

  lemma LatestPairIs(c: Config, p: CpuConfig, ws: seq<World>, ops: seq<Op>, n: nat, g: nat, pair: (nat, nat))
    requires StepRun(c, p, ws, ops) && 0 < n <= |ops| && g < Groups(c) && ops[n - 1].Append?
    requires CopiedFrom(c, ws[n - 1].m.kv, ws[n].m.kv, ops[n - 1].id, g, pair.0)
    requires CopiedTo(c, ws[n - 1].m.kv, ws[n].m.kv, ops[n - 1].id, g, pair.1)
    ensures Source(c, ws, ops, n, g, pair.0) && Touched(c, ws, ops, n, g, pair.1)
  {
    hide WorldInv, Inv, Step, StepOps, DecodeSlot, CopiedFrom, CopiedTo, Groups, PoolSizes;
    RunStep(c, p, ws, ops, n - 1);
    TargetIsTail(c, ws[n - 1], ws[n], ops[n - 1], g, pair.1);
  }

  /** What was copied or touched by the earlier operations still counts. */
  lemma StillCounts(c: Config, ws: seq<World>, ops: seq<Op>, n: nat, g: nat, a: int, b: int)
    requires 0 < n <= |ops| < |ws| && Source(c, ws, ops, n - 1, g, a) && Touched(c, ws, ops, n - 1, g, b)
    ensures Source(c, ws, ops, n, g, a) && Touched(c, ws, ops, n, g, b)
  {
    hide CopiedFrom, DecodeSlot;
  }

  lemma NoPairs(g: nat)
    ensures GroupPairs([], g) == []
  {
  }

  /** One more append adds at most one pair. */
  lemma LatestPairs(c: Config, ws: seq<World>, ops: seq<Op>, n: nat, g: nat)
    requires 0 < n <= |ops| < |ws| && g < Groups(c) && ops[n - 1].Append? && ops[n - 1].id in ws[n - 1].m.kv.lens
    ensures var s, t, id := ws[n - 1].m.kv, ws[n].m.kv, ops[n - 1].id;
            var earlier, all := GroupPairs(CopiesOf(c, ws, ops, n - 1), g), GroupPairs(CopiesOf(c, ws, ops, n), g);
            || all == earlier
            || (|all| == |earlier| + 1 && all[..|earlier|] == earlier
                && CopiedFrom(c, s, t, id, g, all[|earlier|].0) && CopiedTo(c, s, t, id, g, all[|earlier|].1))
  {
    hide GroupPairs, CopyList, Groups;
    var s, t, id := ws[n - 1].m.kv, ws[n].m.kv, ops[n - 1].id;
    GroupPairsConcat(CopiesOf(c, ws, ops, n - 1), StepCopies(c, s, t, id), g);
    StepPairs(s.entries, t.entries, id, Tail(c, s, id), Groups(c), g);
  }

  /**
   Then in each group the collected copies have fresh targets: no target is a source and
   none occurs twice, so that they may be performed in any order, or at once.
   */
  lemma {:induction false} CollectedIsFresh(c: Config, p: CpuConfig, ws: seq<World>, ops: seq<Op>, n: nat, g: nat)
    requires StepRun(c, p, ws, ops) && n <= |ops| && g < Groups(c) && SourcesStay(c, ws, ops, n, g)
    ensures CacheWrites.FreshTargets(GroupPairs(CopiesOf(c, ws, ops, n), g))
  {
    hide WorldInv, Inv, Step, StepOps, GroupPairs, CopiesOf, CopiedFrom, CopiedTo, Source, Touched, Groups, PoolSizes;
    if n == 0 {
      NoCopies(c, ws, ops);
      NoPairs(g);
    } else {
      CollectedIsFresh(c, p, ws, ops, n - 1, g);
      if ops[n - 1].Append? {
        RunStep(c, p, ws, ops, n - 1);
        AppendIsLive(c, ws[n - 1], ws[n], ops[n - 1]);
        LatestPairs(c, ws, ops, n, g);
        var earlier, all := GroupPairs(CopiesOf(c, ws, ops, n - 1), g), GroupPairs(CopiesOf(c, ws, ops, n), g);
        if all != earlier {
          CopiedBlocks(c, ws[n - 1], ws[n], ops[n - 1], g, all[|earlier|].1);
          forall i | 0 <= i < |earlier| ensures Apart(earlier[i], all[|earlier|]) {
            PairsAre(c, p, ws, ops, n - 1, g, i);
            EarlierPair(c, p, ws, ops, n, g, earlier[i], all[|earlier|]);
          }
          OnePairMore(c, ws[n - 1].m.kv, ws[n].m.kv, ops[n - 1].id, g, earlier, all);
        }
      } else {
        NoMoreCopies(c, ws, ops, n);
      }
    }
  }

  ghost predicate Apart(a: (nat, nat), b: (nat, nat)) {
    a.0 != b.1 && a.1 != b.0 && a.1 != b.1
  }

  lemma EarlierPair(c: Config, p: CpuConfig, ws: seq<World>, ops: seq<Op>, n: nat, g: nat, a: (nat, nat), b: (nat, nat))
    requires StepRun(c, p, ws, ops) && 0 < n <= |ops| && g < Groups(c) && SourcesStay(c, ws, ops, n, g)
    requires ops[n - 1].Append? && ops[n - 1].id in ws[n - 1].m.kv.lens
    requires Source(c, ws, ops, n - 1, g, a.0) && Touched(c, ws, ops, n - 1, g, a.1)
    requires CopiedFrom(c, ws[n - 1].m.kv, ws[n].m.kv, ops[n - 1].id, g, b.0)
    requires CopiedTo(c, ws[n - 1].m.kv, ws[n].m.kv, ops[n - 1].id, g, b.1)
    ensures Apart(a, b)
  {
    hide WorldInv, Inv, Step, StepOps, Source, Touched, Groups, PoolSizes;
    RunStep(c, p, ws, ops, n - 1);
    CopiedBlocks(c, ws[n - 1], ws[n], ops[n - 1], g, b.1);
    TouchedHeld(c, p, ws, ops, n - 1, g, a.1);
    assert Referenced(c, ws[n - 1].m.kv, g, a.0);
  }

  lemma OnePairMore(c: Config, s: State, t: State, id: int, g: nat, earlier: seq<(nat, nat)>, all: seq<(nat, nat)>)
    requires CacheWrites.FreshTargets(earlier) && |all| == |earlier| + 1 && all[..|earlier|] == earlier
    requires forall i :: 0 <= i < |earlier| ==> Apart(earlier[i], all[|earlier|])
    requires CopiedFrom(c, s, t, id, g, all[|earlier|].0) && CopiedTo(c, s, t, id, g, all[|earlier|].1)
    ensures CacheWrites.FreshTargets(all)
  {
    assert forall i :: 0 <= i < |earlier| ==> all[i] == earlier[i];
  }

  // ---------------------------------------------------------------- the whole step

  lemma OrderStep(c: Config, p: CpuConfig, ws: seq<World>, ops: seq<Op>, n: nat)
    requires StepRun(c, p, ws, ops) && n < |ops| && InOrder(c, ws, ops, n)
    ensures InOrder(c, ws, ops, n + 1)
  {
    hide WorldInv, Step, EngineGpu, EngineCpu, Groups;
    var gpu, cpu := EngineGpu(c, ws, ops, n + 1), EngineCpu(c, ws, ops, n + 1);
    forall g: nat, b: int, o: int | g < Groups(c)
      ensures gpu(g, b, o) == ws[n + 1].gpu(g, b, o) && cpu(g, b, o) == ws[n + 1].cpu(g, b, o)
    {
      if ops[n].Append? {
        AppendOrder(c, p, ws, ops, n, g, b, o);
      } else if ops[n].Restore? {
        RestoreOrder(c, p, ws, ops, n, g, b, o);
      } else {
        GpuLeft(c, ws, ops, n);
      }
      if ops[n].Save? { SaveOrder(c, p, ws, ops, n, g, b, o); } else { CpuLeft(c, ws, ops, n); }
    }
  }

  lemma GpuLeft(c: Config, ws: seq<World>, ops: seq<Op>, n: nat)
    requires IsRun(c, ws, ops) && n < |ops| && (TakesOff(ops[n]) || ops[n].Discard?)
    ensures EngineGpu(c, ws, ops, n + 1) == EngineGpu(c, ws, ops, n) && ws[n + 1].gpu == ws[n].gpu
  {
    hide Step, ApplyMoves, ApplyCopies;
    NoMoreCopies(c, ws, ops, n + 1);
    MemoriesLeft(c, ws[n], ws[n + 1], ops[n]);
    assert MovesIn(c, ws, ops, n + 1) == MovesIn(c, ws, ops, n);
  }

  lemma MemoriesLeft(c: Config, w: World, w': World, op: Op)
    requires Step(c, w, w', op)
    ensures TakesOff(op) || op.Discard? ==> w'.gpu == w.gpu
    ensures op.Append? || op.Drop? || op.Free? || op.Restore? || op.Discard? ==> w'.cpu == w.cpu
  {
    hide Inv, Allocated, Appended, Forked, Evicted, CanEvict, ClampedBlocks, LeasedTemps, Recomputed, Unchanged, PrefillWrites,
         SaveStep, DropStep, RestoreStep, DiscardStep, WriteToken, ApplyCopies, ApplyMoves, SaveMoves, RestoreMoves, TailRetained, Reference;
  }

  lemma CpuLeft(c: Config, ws: seq<World>, ops: seq<Op>, n: nat)
    requires IsRun(c, ws, ops) && n < |ops| && !ops[n].Save?
    requires ops[n].Append? || TakesOff(ops[n]) || ops[n].Restore? || ops[n].Discard?
    ensures EngineCpu(c, ws, ops, n + 1) == EngineCpu(c, ws, ops, n) && ws[n + 1].cpu == ws[n].cpu
  {
    hide Step, ApplyMoves;
    MemoriesLeft(c, ws[n], ws[n + 1], ops[n]);
    assert MovesOut(c, ws, ops, n + 1) == MovesOut(c, ws, ops, n);
  }

  /**
   Performing all the swap moves of a step, then its copies, then its writes leaves both
   memories, at every address, as performing each operation's traffic with the operation.
   */
  lemma {:induction false} EngineOrder(c: Config, p: CpuConfig, ws: seq<World>, ops: seq<Op>, n: nat)
    requires StepRun(c, p, ws, ops) && n <= |ops|
    ensures Same(c, EngineGpu(c, ws, ops, n), ws[n].gpu) && Same(c, EngineCpu(c, ws, ops, n), ws[n].cpu)
  {
    hide Step, WorldInv, StepOps, Same, EngineGpu, EngineCpu;
    if n == 0 {
      NothingDone(c, ws, ops);
    } else {
      EngineOrder(c, p, ws, ops, n - 1);
      OrderStep(c, p, ws, ops, n - 1);
    }
  }

  lemma NothingDone(c: Config, ws: seq<World>, ops: seq<Op>)
    requires |ops| < |ws|
    ensures InOrder(c, ws, ops, 0)
  {
    NoMoves(ws[0].cpu, ws[0].gpu);
    NoMoves(ws[0].gpu, ws[0].cpu);
    NoCopiesApplied(ws[0].gpu);
  }

  /** So after the worker's traffic every live sequence reads its own tokens, and every swapped one has them on the CPU. */
  lemma EngineStepRefines(c: Config, p: CpuConfig, ws: seq<World>, ops: seq<Op>)
    requires StepRun(c, p, ws, ops)
    ensures var n := |ops|; WorldInv(c, p, ws[n].(gpu := EngineGpu(c, ws, ops, n), cpu := EngineCpu(c, ws, ops, n)))
  {
    hide WorldInv, Step, StepOps, EngineGpu, EngineCpu;
    EngineOrder(c, p, ws, ops, |ops|);
    RunWorld(c, p, ws, ops, |ops|);
    SameWorld(c, p, ws[|ops|], EngineGpu(c, ws, ops, |ops|), EngineCpu(c, ws, ops, |ops|));
  }

  lemma SameWorld(c: Config, p: CpuConfig, w: World, gpu: Memory, cpu: Memory)
    requires WorldInv(c, p, w) && Same(c, gpu, w.gpu) && Same(c, cpu, w.cpu)
    ensures WorldInv(c, p, w.(gpu := gpu, cpu := cpu))
  {
    InvOf(c, p, w);
    InvPools(c, w.m.kv);
    hide Inv, Ledger, NoCpuLeak, NumFilled, WholeBlocks, Owned, NumBlocks;
    forall k | k in w.m.kv.entries ensures EntryView(w.m.kv, gpu, w.toks, k) { ViewOf(c, p, w, k); }
    forall id, g, j | id in w.m.saved && 0 <= g < |w.m.saved[id].tables| && 0 <= j < |w.m.saved[id].tables[g]|
      ensures SavedBlock(c, w.m.saved, cpu, w.toks, id, g, j)
    {
      assert SavedBlock(c, w.m.saved, w.cpu, w.toks, id, g, j);
    }
  }
}
