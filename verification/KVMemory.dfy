/**
 The block store over a memory: every cache operation together with the block
 copies and token writes that follow it, refining sequences with token lists of
 their own.
 */
module KVMemory {
  import opened Arithmetic
  import opened KVState
  import opened KVSpec
  import opened KVAppend
  import opened KVSharing
  import opened KVRecompute
  import opened KVPlans
  import opened ELLMSwap

  /** What the cache holds for one token; equal tokens have equal keys and values. */
  type Token = int

  /** Cache contents by layer group, physical block and offset in the block. */
  type Memory = (int, int, int) -> Token

  /** Block copies within one memory, in order. */
  ghost function ApplyCopies(mem: Memory, copies: seq<Copy>): Memory {
    if copies == [] then mem else
    var n := |copies| - 1;
    var before, last := ApplyCopies(mem, copies[..n]), copies[n];
    (g, b, o) => if g == last.group && b == last.dst then before(g, last.src, o) else before(g, b, o)
  }

  /** Block moves from one memory into another, in order. */
  ghost function ApplyMoves(src: Memory, dst: Memory, moves: seq<Copy>): Memory {
    if moves == [] then dst else
    var n := |moves| - 1;
    var before, last := ApplyMoves(src, dst, moves[..n]), moves[n];
    (g, b, o) => if g == last.group && b == last.dst then src(g, last.src, o) else before(g, b, o)
  }

  /** One token is written to the decode slot of its sequence in every group. */
  ghost function WriteToken(c: Config, s: State, id: int, token: Token, mem: Memory): Memory {
    (g, b, o) =>
      if 0 <= g < Groups(c) && b == DecodeSlot(c, s, id, g) / c.blockSize && o == DecodeSlot(c, s, id, g) % c.blockSize
      then token else mem(g, b, o)
  }

  datatype World = World(m: Manager, gpu: Memory, cpu: Memory, toks: map<int, seq<Token>>)

  /** Every filled offset of every entry holds its sequence's own token. */
  ghost predicate EntryView(s: State, mem: Memory, toks: map<int, seq<Token>>, k: Key)
    requires k in s.entries
  {
    var e := s.entries[k];
    && k.seqId in toks
    && e.tokenStart + e.numFilled <= |toks[k.seqId]|
    && forall o: nat :: o < e.numFilled ==> mem(k.group, e.phys, o) == toks[k.seqId][e.tokenStart + o]
  }

  ghost predicate GpuView(s: State, mem: Memory, toks: map<int, seq<Token>>) {
    forall k :: k in s.entries ==> EntryView(s, mem, toks, k)
  }

  /** The j-th saved block of a group holds the tokens of the sequence's j-th retained block. */
  ghost predicate SavedView(c: Config, w: Swapped, mem: Memory, toks: seq<Token>, g: nat, j: nat)
    requires g < |w.tables| && j < |w.tables[g]|
  {
    var l := WholeBlocks(c, w.evictedTokens) + j;
    && l * c.blockSize + NumFilled(c, w.length, l) <= |toks|
    && forall o: nat :: o < NumFilled(c, w.length, l) ==> mem(g, w.tables[g][j], o) == toks[l * c.blockSize + o]
  }

  ghost predicate CpuView(c: Config, saved: map<int, Swapped>, mem: Memory, toks: map<int, seq<Token>>) {
    forall id, g, j | id in saved && 0 <= g < |saved[id].tables| && 0 <= j < |saved[id].tables[g]| ::
      SavedBlock(c, saved, mem, toks, id, g, j)
  }

  ghost predicate SavedBlock(c: Config, saved: map<int, Swapped>, mem: Memory, toks: map<int, seq<Token>>,
                             id: int, g: nat, j: nat)
    requires id in saved && g < |saved[id].tables| && j < |saved[id].tables[g]|
  {
    id in toks && SavedView(c, saved[id], mem, toks[id], g, j)
  }

  ghost predicate Lengths(m: Manager, toks: map<int, seq<Token>>) {
    && toks.Keys == m.kv.lens.Keys + m.saved.Keys
    && (forall id :: id in m.kv.lens ==> |toks[id]| == m.kv.lens[id])
    && (forall id :: id in m.saved ==> |toks[id]| == m.saved[id].length)
  }

  ghost predicate WorldInv(c: Config, p: CpuConfig, w: World) {
    && ManagerInv(c, p, w.m) && NoCpuLeak(c, p, w.m)
    && Lengths(w.m, w.toks)
    && GpuView(w.m.kv, w.gpu, w.toks)
    && CpuView(c, w.m.saved, w.cpu, w.toks)
  }

  // ---------------------------------------------------------------- append

  lemma CopySnoc(mem: Memory, front: seq<Copy>, last: Copy, g: int, b: int, o: int)
    ensures ApplyCopies(mem, front + [last])(g, b, o) ==
            if g == last.group && b == last.dst then ApplyCopies(mem, front)(g, last.src, o)
            else ApplyCopies(mem, front)(g, b, o)
  {
    assert (front + [last])[..|front|] == front;
  }

  lemma WriteEffect(c: Config, s: State, id: int, token: Token, mem: Memory, g: nat, b: int, o: int)
    requires g < Groups(c)
    ensures WriteToken(c, s, id, token, mem)(g, b, o) ==
            if b == DecodeSlot(c, s, id, g) / c.blockSize && o == DecodeSlot(c, s, id, g) % c.blockSize
            then token else mem(g, b, o)
  {
  }

  /** What the copy list of an append does to memory. */
  lemma {:induction false} CopyEffect(mem: Memory, s: map<Key, Entry>, t: map<Key, Entry>, id: int, block: nat,
                                      n: nat, g: nat, b: int, o: int)
    ensures ApplyCopies(mem, CopyList(s, t, id, block, n))(g, b, o) ==
            if g < n && Moved(s, t, Key(id, block, g)) && b == t[Key(id, block, g)].phys
            then mem(g, s[Key(id, block, g)].phys, o) else mem(g, b, o)
  {
    hide ApplyCopies;
    if n == 0 {
      NoCopiesApplied(mem);
    } else {
      var k := Key(id, block, n - 1);
      var front := CopyList(s, t, id, block, n - 1);
      CopyEffect(mem, s, t, id, block, n - 1, g, b, o);
      if Moved(s, t, k) {
        var last := Copy(n - 1, s[k].phys, t[k].phys);
        CopySnoc(mem, front, last, g, b, o);
        CopyEffect(mem, s, t, id, block, n - 1, g, last.src, o);
      } else {
        assert front + [] == front;
      }
    }
  }

  /** Entry k names different blocks in s and t. */
  ghost predicate Moved(s: map<Key, Entry>, t: map<Key, Entry>, k: Key) {
    k in s && k in t && s[k].phys != t[k].phys
  }

  lemma NoCopiesApplied(mem: Memory)
    ensures ApplyCopies(mem, []) == mem
  {
  }

  /** The decode slot is the new token's offset in the tail block. */
  lemma DecodeSlotParts(c: Config, s: State, t: State, id: int, copies: seq<Copy>, g: nat)
    requires Inv(c, s) && Inv(c, t) && Appended(c, s, t, id, copies) && TailRetained(c, s, id) && g < Groups(c)
    requires id in s.lens
    ensures TailKey(c, s, id, g) in t.entries
    ensures DecodeSlot(c, t, id, g) / c.blockSize == t.entries[TailKey(c, s, id, g)].phys
    ensures DecodeSlot(c, t, id, g) % c.blockSize == s.lens[id] % c.blockSize
  {
    hide Inv, Ledger, Appended, TailRetained, NumBlocks;
    AppendedNewest(c, s, t, id, copies);
    NewestNotTemporary(c, t, id, g);
    var b, o := t.entries[TailKey(c, s, id, g)].phys, s.lens[id] % c.blockSize;
    DivUnique(b * c.blockSize + o, c.blockSize, b, o);
  }

  /** The tail entry after an append: one token more, from the old tail block or the new one. */
  lemma TailAfterAppend(c: Config, s: State, t: State, id: int, copies: seq<Copy>, g: nat)
    requires Inv(c, s) && Appended(c, s, t, id, copies) && g < Groups(c) && TailRetained(c, s, id)
    ensures id in s.lens && TailKey(c, s, id, g) in t.entries
    ensures var k, n := TailKey(c, s, id, g), s.lens[id];
            && t.entries[k].tokenStart + n % c.blockSize == n
            && t.entries[k].numFilled == n % c.blockSize + 1
            && (n % c.blockSize > 0 ==> k in s.entries && s.entries[k].tokenStart == t.entries[k].tokenStart
                                        && s.entries[k].numFilled == n % c.blockSize)
  {
    hide Ledger, TempsOk, CopyList, TailPlaced, NumBlocks;
    var k, n := TailKey(c, s, id, g), s.lens[id];
    assert k in Span(c, id, Tail(c, s, id), Tail(c, s, id) + 1);
    FillOnAppend(c, n, Tail(c, s, id));
    assert n == (n / c.blockSize) * c.blockSize + n % c.blockSize;
    if n % c.blockSize > 0 { TailStored(c, s, id, g); }
  }

  /** An append touches no block that another entry names. */
  lemma TailBlockIsNew(c: Config, s: State, t: State, id: int, copies: seq<Copy>, k: Key)
    requires Inv(c, s) && Appended(c, s, t, id, copies) && k in s.entries
    requires id in s.lens && k !in Span(c, id, Tail(c, s, id), Tail(c, s, id) + 1)
    ensures k.group < Groups(c) && TailKey(c, s, id, k.group) in t.entries
    ensures s.entries[k].phys != t.entries[TailKey(c, s, id, k.group)].phys
  {
    hide Inv, Ledger, CopyList, TailGrown;
    InvPools(c, s);
    var g := k.group;
    assert TailPlaced(c, s, t, id, g);
    HeldBlock(c, s, multiset{}, k);
    if !NeedsBlock(c, s, id, g) {
      var tail := TailKey(c, s, id, g);
      HeldBlock(c, s, multiset{}, tail);
      assert tail != k;
      SoleHolder(c, s, tail, k);
    }
  }

  /** What an append leaves at one address of one group. */
  lemma AppendEffect(c: Config, s: State, t: State, id: int, copies: seq<Copy>, mem: Memory, token: Token,
                     g: nat, b: int, o: int)
    requires Inv(c, s) && Inv(c, t) && Appended(c, s, t, id, copies) && TailRetained(c, s, id)
    requires id in s.lens && g < Groups(c)
    ensures TailKey(c, s, id, g) in t.entries
    ensures var tail := TailKey(c, s, id, g);
            WriteToken(c, t, id, token, ApplyCopies(mem, copies))(g, b, o) ==
            if b != t.entries[tail].phys then mem(g, b, o)
            else if o == s.lens[id] % c.blockSize then token
            else if tail in s.entries then mem(g, s.entries[tail].phys, o) else mem(g, b, o)
  {
    hide Inv, Appended, TailRetained, NumBlocks, Groups, DecodeSlot, ApplyCopies, WriteToken, CopyList;
    DecodeSlotParts(c, s, t, id, copies, g);
    AppendCopies(c, s, t, id, copies);
    WriteEffect(c, t, id, token, ApplyCopies(mem, copies), g, b, o);
    CopyEffect(mem, s.entries, t.entries, id, Tail(c, s, id), Groups(c), g, b, o);
  }

  lemma AppendView(c: Config, s: State, t: State, id: int, copies: seq<Copy>, mem: Memory,
                   toks: map<int, seq<Token>>, token: Token, k: Key)
    requires Inv(c, s) && Inv(c, t) && Appended(c, s, t, id, copies) && TailRetained(c, s, id)
    requires GpuView(s, mem, toks) && id in toks && id in s.lens && |toks[id]| == s.lens[id] && k in t.entries
    ensures EntryView(t, WriteToken(c, t, id, token, ApplyCopies(mem, copies)), toks[id := toks[id] + [token]], k)
  {
    hide Inv, Appended, TailRetained, NumBlocks, Groups, ApplyCopies, WriteToken;
    AppendKeys(c, s, t, id, copies, k);
    var mem' := WriteToken(c, t, id, token, ApplyCopies(mem, copies));
    var e := t.entries[k];
    var tail := TailKey(c, s, id, k.group);
    forall o: nat | o < e.numFilled
      ensures mem'(k.group, e.phys, o) == if k != tail then mem(k.group, e.phys, o)
                                          else if o == s.lens[id] % c.blockSize then token
                                          else if k in s.entries then mem(k.group, s.entries[k].phys, o) else mem(k.group, e.phys, o)
    {
      AppendEffect(c, s, t, id, copies, mem, token, k.group, e.phys, o);
      if k != tail { TailBlockIsNew(c, s, t, id, copies, k); }
    }
    if k == tail { TailAfterAppend(c, s, t, id, copies, k.group); }
    if k in s.entries { assert EntryView(s, mem, toks, k); }
  }

  lemma AppendCopies(c: Config, s: State, t: State, id: int, copies: seq<Copy>)
    requires Appended(c, s, t, id, copies)
    ensures id in s.lens && copies == CopyList(s.entries, t.entries, id, Tail(c, s, id), Groups(c))
  {
  }

  /** An entry after an append is a tail entry or an unchanged one. */
  lemma AppendKeys(c: Config, s: State, t: State, id: int, copies: seq<Copy>, k: Key)
    requires Inv(c, t) && Appended(c, s, t, id, copies) && k in t.entries && id in s.lens
    ensures k.group < Groups(c)
    ensures k == TailKey(c, s, id, k.group)
            || (k in s.entries && t.entries[k] == s.entries[k]
                && k !in Span(c, id, Tail(c, s, id), Tail(c, s, id) + 1))
  {
    hide Inv, Ledger, CopyList, TailPlaced;
    InvPools(c, t);
  }

  // ---------------------------------------------------------------- allocate, fork, evict, free

  /** The prefill kernel writes the prompt into the sequence's own blocks, and nowhere else. */
  ghost predicate PrefillWrites(t: State, id: int, tokens: seq<Token>, mem: Memory, mem': Memory) {
    && (forall k :: k in t.entries && k.seqId == id ==> EntryView(t, mem', map[id := tokens], k))
    && (forall g: nat, b, o :: (forall k :: k in t.entries && k.seqId == id && k.group == g ==> t.entries[k].phys != b)
          ==> mem'(g, b, o) == mem(g, b, o))
  }

  /** A fresh sequence's blocks are named by no older entry. */
  lemma NewBlocksAreNew(c: Config, s: State, t: State, id: int, n: nat, p: nat, k: Key, k': Key)
    requires Inv(c, s) && id !in s.lens && Allocated(c, s, t, id, n, p)
    requires k in s.entries && k' in t.entries && k'.seqId == id && k'.group == k.group
    ensures k in t.entries && t.entries[k] == s.entries[k] && k.seqId != id
    ensures t.entries[k'].phys != s.entries[k].phys
  {
    NoKeys(c, s, id);
    InvPools(c, s);
    HeldBlock(c, s, multiset{}, k);
    hide Inv, Ledger, NumBlocks;
    assert k' in Span(c, id, p, NumBlocks(c, n));
  }

  lemma AllocateView(c: Config, s: State, t: State, id: int, n: nat, p: nat, mem: Memory, mem': Memory,
                     toks: map<int, seq<Token>>, tokens: seq<Token>, k: Key)
    requires Inv(c, s) && id !in s.lens && Allocated(c, s, t, id, n, p)
    requires GpuView(s, mem, toks) && PrefillWrites(t, id, tokens, mem, mem') && k in t.entries
    ensures EntryView(t, mem', toks[id := tokens], k)
  {
    hide Inv, Allocated;
    if k.seqId == id {
      assert EntryView(t, mem', map[id := tokens], k);
    } else {
      OldEntry(c, s, t, id, n, p, k);
      forall k' | k' in t.entries && k'.seqId == id && k'.group == k.group
        ensures t.entries[k'].phys != t.entries[k].phys
      {
        NewBlocksAreNew(c, s, t, id, n, p, k, k');
      }
      assert EntryView(s, mem, toks, k);
    }
  }

  lemma OldEntry(c: Config, s: State, t: State, id: int, n: nat, p: nat, k: Key)
    requires Allocated(c, s, t, id, n, p) && k in t.entries && k.seqId != id
    ensures k in s.entries && t.entries[k] == s.entries[k]
  {
    hide Fresh;
    assert k !in Span(c, id, p, NumBlocks(c, n));
  }

  lemma ForkView(s: State, t: State, parent: int, child: int, mem: Memory, toks: map<int, seq<Token>>, k: Key)
    requires Forked(s, t, parent, child) && GpuView(s, mem, toks) && k in t.entries
    requires parent in toks && child !in s.lens && KeysOf(s.entries, child) == {}
    ensures EntryView(t, mem, toks[child := toks[parent]], k)
  {
    if k in s.entries {
      assert k.seqId == child ==> k in KeysOf(s.entries, child);
      assert EntryView(s, mem, toks, k);
    } else {
      var h := Key(parent, k.block, k.group);
      assert h in KeysOf(s.entries, parent);
      assert EntryView(s, mem, toks, h);
    }
  }

  // ---------------------------------------------------------------- swap

  lemma MoveSnoc(src: Memory, dst: Memory, front: seq<Copy>, last: Copy, g: int, b: int, o: int)
    ensures ApplyMoves(src, dst, front + [last])(g, b, o) ==
            if g == last.group && b == last.dst then src(g, last.src, o) else ApplyMoves(src, dst, front)(g, b, o)
  {
    assert (front + [last])[..|front|] == front;
  }

  lemma {:induction false} ZipEffect(src: Memory, dst: Memory, front: seq<Copy>, g: nat, a: seq<nat>, b: seq<nat>,
                                     h: int, x: int, o: int)
    requires |a| == |b| && NoDup(b)
    ensures h != g || x !in b ==> ApplyMoves(src, dst, front + Zip(g, a, b))(h, x, o) == ApplyMoves(src, dst, front)(h, x, o)
    ensures h == g ==> forall j :: 0 <= j < |b| && b[j] == x ==>
                         ApplyMoves(src, dst, front + Zip(g, a, b))(h, x, o) == src(g, a[j], o)
  {
    hide ApplyMoves;
    if a == [] {
      assert front + Zip(g, a, b) == front;
    } else {
      var n := |a| - 1;
      var last := Copy(g, a[n], b[n]);
      assert b == b[..n] + [b[n]];
      assert Zip(g, a, b) == Zip(g, a[..n], b[..n]) + [last];
      assert front + Zip(g, a, b) == (front + Zip(g, a[..n], b[..n])) + [last];
      ZipEffect(src, dst, front, g, a[..n], b[..n], h, x, o);
      MoveSnoc(src, dst, front + Zip(g, a[..n], b[..n]), last, h, x, o);
    }
  }

  /** Moving a set of tables copies each listed block and leaves every other block alone. */
  lemma {:induction false} MovesEffect(src: Memory, dst: Memory, a: seq<seq<nat>>, b: seq<seq<nat>>, n: nat,
                                       g: nat, x: int, o: int)
    requires SameShape(a, b) && n <= |a| && forall h :: 0 <= h < |b| ==> NoDup(b[h])
    ensures g >= n || x !in b[g] ==> ApplyMoves(src, dst, Moves(a, b, n))(g, x, o) == dst(g, x, o)
    ensures g < n ==> forall j :: 0 <= j < |b[g]| && b[g][j] == x ==>
                        ApplyMoves(src, dst, Moves(a, b, n))(g, x, o) == src(g, a[g][j], o)
  {
    hide ApplyMoves, NoDup, Zip;
    if n == 0 {
      NoMoves(src, dst);
    } else {
      MovesEffect(src, dst, a, b, n - 1, g, x, o);
      ZipEffect(src, dst, Moves(a, b, n - 1), n - 1, a[n - 1], b[n - 1], g, x, o);
    }
  }

  lemma NoMoves(src: Memory, dst: Memory)
    ensures ApplyMoves(src, dst, []) == dst
  {
  }

  /** The j-th retained block is the entry of logical block evicted + j. */
  lemma RetainedAt(c: Config, s: State, id: int, g: nat, j: nat)
    requires Inv(c, s) && id in s.lens && id in s.evicted && g < Groups(c) && j < |RetainedTable(c, s, id, g)|
    ensures var k := Key(id, s.evicted[id] + j, g);
            && k in s.entries && RetainedTable(c, s, id, g)[j] == s.entries[k].phys
            && s.entries[k].tokenStart == (s.evicted[id] + j) * c.blockSize
            && s.entries[k].numFilled == NumFilled(c, s.lens[id], s.evicted[id] + j)
  {
    hide Inv, NumBlocks, NumFilled;
    var k := Key(id, s.evicted[id] + j, g);
    CachedBlocks(c, s, id, g, k.block);
    assert RetainedTable(c, s, id, g)[j] == BlockAt(s, id, k.block, g);
    RetainedEntry(c, s, k);
  }

  lemma SaveShape(c: Config, p: CpuConfig, m: Manager, n: Manager, id: int)
    requires ManagerInv(c, p, m) && SaveStep(c, m, n, id)
    ensures id in n.saved && SameShape(RetainedTables(c, m.kv, id), n.saved[id].tables)
    ensures |n.saved[id].tables| == Groups(c)
    ensures forall g :: 0 <= g < Groups(c) ==> NoDup(n.saved[id].tables[g])
    ensures forall g, b :: 0 <= g < Groups(c) && b in n.saved[id].tables[g] ==> b in m.cpu[g]
  {
    hide Inv, RetainedTable, SwappedOk;
    forall g | 0 <= g < Groups(c)
      ensures NoDup(n.saved[id].tables[g])
      ensures forall b :: b in n.saved[id].tables[g] ==> b in m.cpu[g]
    {
      NoDupSplit(m.cpu[g], |RetainedTable(c, m.kv, id, g)|);
    }
  }

  /** The CPU copy of a block holds what the GPU block held. */
  lemma SaveViewOwn(c: Config, p: CpuConfig, w: World, n: Manager, id: int, g: nat, j: nat)
    requires WorldInv(c, p, w) && SaveStep(c, w.m, n, id)
    requires id in n.saved && g < |n.saved[id].tables| && j < |n.saved[id].tables[g]| && id in w.toks
    ensures SavedView(c, n.saved[id], ApplyMoves(w.gpu, w.cpu, SaveMoves(c, w.m, n, id)), w.toks[id], g, j)
  {
    hide Inv, CpuDisjoint, NoCpuLeak, CpuView, Aligned, WholeBlocks, NumBlocks, NumFilled, ApplyMoves, RetainedTable, Moves;
    var s, t := w.m.kv, n.saved[id];
    SaveShape(c, p, w.m, n, id);
    AlignedProduct(c, s.evicted[id]);
    RetainedAt(c, s, id, g, j);
    var k := Key(id, s.evicted[id] + j, g);
    assert EntryView(s, w.gpu, w.toks, k);
    forall o: nat | o < NumFilled(c, t.length, s.evicted[id] + j)
      ensures ApplyMoves(w.gpu, w.cpu, SaveMoves(c, w.m, n, id))(g, t.tables[g][j], o) == w.gpu(g, s.entries[k].phys, o)
    {
      MovesEffect(w.gpu, w.cpu, RetainedTables(c, s, id), t.tables, Groups(c), g, t.tables[g][j], o);
    }
  }

  lemma SaveViewOther(c: Config, p: CpuConfig, w: World, n: Manager, id: int, id': int, g: nat, j: nat)
    requires WorldInv(c, p, w) && SaveStep(c, w.m, n, id) && id' != id && id' in n.saved
    requires g < |n.saved[id'].tables| && j < |n.saved[id'].tables[g]|
    ensures id' in w.toks
    ensures SavedView(c, n.saved[id'], ApplyMoves(w.gpu, w.cpu, SaveMoves(c, w.m, n, id)), w.toks[id'], g, j)
  {
    hide Inv, NoCpuLeak, GpuView, Aligned, WholeBlocks, NumBlocks, NumFilled, ApplyMoves, RetainedTable, Moves;
    SaveShape(c, p, w.m, n, id);
    var t := n.saved[id'];
    var x := t.tables[g][j];
    assert t == w.m.saved[id'] && x in w.m.saved[id'].tables[g];
    assert SavedBlock(c, w.m.saved, w.cpu, w.toks, id', g, j);
    forall o: nat ensures ApplyMoves(w.gpu, w.cpu, SaveMoves(c, w.m, n, id))(g, x, o) == w.cpu(g, x, o) {
      MovesEffect(w.gpu, w.cpu, RetainedTables(c, w.m.kv, id), n.saved[id].tables, Groups(c), g, x, o);
    }
  }

  lemma SaveView(c: Config, p: CpuConfig, w: World, n: Manager, id: int)
    requires WorldInv(c, p, w) && SaveStep(c, w.m, n, id)
    ensures CpuView(c, n.saved, ApplyMoves(w.gpu, w.cpu, SaveMoves(c, w.m, n, id)), w.toks)
  {
    LiveTokens(c, p, w, id);
    hide WorldInv, SaveStep, SavedView, SaveMoves, ApplyMoves;
    forall id', g, j | id' in n.saved && 0 <= g < |n.saved[id'].tables| && 0 <= j < |n.saved[id'].tables[g]|
      ensures SavedBlock(c, n.saved, ApplyMoves(w.gpu, w.cpu, SaveMoves(c, w.m, n, id)), w.toks, id', g, j)
    {
      if id' == id { SaveViewOwn(c, p, w, n, id, g, j); } else { SaveViewOther(c, p, w, n, id, id', g, j); }
    }
  }

  lemma LiveTokens(c: Config, p: CpuConfig, w: World, id: int)
    requires WorldInv(c, p, w)
    ensures id in w.m.kv.lens ==> id in w.toks && |w.toks[id]| == w.m.kv.lens[id]
    ensures id in w.m.saved ==> id in w.toks && |w.toks[id]| == w.m.saved[id].length
  {
    hide ManagerInv, NoCpuLeak, GpuView, CpuView;
  }

  /** The restored sequence's tables have the shape of its CPU tables, on blocks of its own. */
  lemma RestoreShape(c: Config, p: CpuConfig, m: Manager, n: Manager, id: int)
    requires ManagerInv(c, p, m) && RestoreStep(c, m, n, id) && Inv(c, n.kv)
    ensures id in n.kv.evicted && n.kv.evicted[id] == WholeBlocks(c, m.saved[id].evictedTokens)
    ensures id in n.kv.lens && n.kv.lens[id] == m.saved[id].length
    ensures |m.saved[id].tables| == Groups(c)
    ensures SameShape(m.saved[id].tables, RetainedTables(c, n.kv, id))
    ensures forall g :: 0 <= g < Groups(c) ==> NoDup(RetainedTable(c, n.kv, id, g))
  {
    hide Inv, NumBlocks, WholeBlocks, Aligned, RetainedTable;
    forall g | 0 <= g < Groups(c)
      ensures |m.saved[id].tables[g]| == |RetainedTable(c, n.kv, id, g)| && NoDup(RetainedTable(c, n.kv, id, g))
    {
      RetainedLength(c, n.kv, id, g);
      FreshTable(c, m.kv, n.kv, id, m.saved[id].length, WholeBlocks(c, m.saved[id].evictedTokens), g);
    }
  }

  lemma FreshTable(c: Config, s: State, t: State, id: int, n: nat, q: nat, g: nat)
    requires Inv(c, s) && id !in s.lens && Inv(c, t) && Allocated(c, s, t, id, n, q) && g < Groups(c)
    ensures NoDup(RetainedTable(c, t, id, g))
  {
    hide Inv, Ledger, Allocated, RetainedTable, PermanentEntry;
    InvPools(c, t);
    NoKeys(c, s, id);
    AllocatedLens(c, s, t, id, n, q);
    var table := RetainedTable(c, t, id, g);
    forall i, j | 0 <= i < j < |table| ensures table[i] != table[j] {
      RetainedAt(c, t, id, g, i);
      RetainedAt(c, t, id, g, j);
      BlockIsFresh(c, s, t, id, n, q, Key(id, q + i, g));
      SoleHolder(c, t, Key(id, q + i, g), Key(id, q + j, g));
    }
  }

  lemma AllocatedLens(c: Config, s: State, t: State, id: int, n: nat, q: nat)
    requires Allocated(c, s, t, id, n, q)
    ensures t.lens == s.lens[id := n] && t.evicted == s.evicted[id := q]
  {
  }

  lemma BlockIsFresh(c: Config, s: State, t: State, id: int, n: nat, q: nat, k: Key)
    requires Allocated(c, s, t, id, n, q) && k in t.entries && k.seqId == id && k !in s.entries && Inv(c, t)
    ensures k.group < |t.refs| && t.entries[k].phys < |t.refs[k.group]| && t.refs[k.group][t.entries[k].phys] == 1
  {
    hide Inv, NumBlocks;
  }

  lemma RestoreViewOwn(c: Config, p: CpuConfig, w: World, n: Manager, id: int, k: Key)
    requires WorldInv(c, p, w) && RestoreStep(c, w.m, n, id) && Inv(c, n.kv)
    requires k in n.kv.entries && k.seqId == id
    ensures EntryView(n.kv, ApplyMoves(w.cpu, w.gpu, RestoreMoves(c, w.m, n, id)), w.toks, k)
  {
    hide Inv, Allocated, CpuDisjoint, NoCpuLeak, GpuView, WholeBlocks, NumBlocks, NumFilled, ApplyMoves, Moves;
    var t, saved := n.kv, w.m.saved[id];
    RestoreShape(c, p, w.m, n, id);
    InvPools(c, t);
    var g, j := k.group, k.block - t.evicted[id];
    CachedBlocks(c, t, id, g, k.block);
    assert k == Key(id, k.block, g);
    RetainedAt(c, t, id, g, j);
    assert SavedBlock(c, w.m.saved, w.cpu, w.toks, id, g, j);
    forall o: nat ensures ApplyMoves(w.cpu, w.gpu, RestoreMoves(c, w.m, n, id))(g, t.entries[k].phys, o)
                          == w.cpu(g, saved.tables[g][j], o)
    {
      MovesEffect(w.cpu, w.gpu, saved.tables, RetainedTables(c, t, id), Groups(c), g, t.entries[k].phys, o);
    }
  }

  lemma RestoreViewOther(c: Config, p: CpuConfig, w: World, n: Manager, id: int, k: Key)
    requires WorldInv(c, p, w) && RestoreStep(c, w.m, n, id) && Inv(c, n.kv)
    requires k in n.kv.entries && k.seqId != id
    ensures EntryView(n.kv, ApplyMoves(w.cpu, w.gpu, RestoreMoves(c, w.m, n, id)), w.toks, k)
  {
    hide Inv, Allocated, CpuDisjoint, NoCpuLeak, CpuView, WholeBlocks, NumBlocks, NumFilled, ApplyMoves, Moves, RetainedTable;
    var s, t, saved := w.m.kv, n.kv, w.m.saved[id];
    RestoreShape(c, p, w.m, n, id);
    InvPools(c, t);
    OldEntry(c, s, t, id, saved.length, WholeBlocks(c, saved.evictedTokens), k);
    assert EntryView(s, w.gpu, w.toks, k);
    var g, x := k.group, t.entries[k].phys;
    assert x !in RetainedTables(c, t, id)[g] by {
      NotRestoredBlock(c, s, t, id, saved.length, WholeBlocks(c, saved.evictedTokens), k);
    }
    forall o: nat ensures ApplyMoves(w.cpu, w.gpu, RestoreMoves(c, w.m, n, id))(g, x, o) == w.gpu(g, x, o) {
      MovesEffect(w.cpu, w.gpu, saved.tables, RetainedTables(c, t, id), Groups(c), g, x, o);
    }
  }

  lemma NotRestoredBlock(c: Config, s: State, t: State, id: int, n: nat, q: nat, k: Key)
    requires Inv(c, s) && id !in s.lens && Inv(c, t) && Allocated(c, s, t, id, n, q)
    requires k in s.entries && k in t.entries && k.seqId != id && k.group < Groups(c)
    ensures t.entries[k].phys !in RetainedTable(c, t, id, k.group)
  {
    hide Inv, Allocated, RetainedTable, PermanentEntry;
    AllocatedLens(c, s, t, id, n, q);
    var table := RetainedTable(c, t, id, k.group);
    forall j | 0 <= j < |table| ensures table[j] != t.entries[k].phys {
      RetainedAt(c, t, id, k.group, j);
      NewBlocksAreNew(c, s, t, id, n, q, k, Key(id, q + j, k.group));
    }
  }

  // ---------------------------------------------------------------- recompute

  /**
   A lease of a batch in one group: the recompute kernel writes every token of the
   evicted prefixes to its slot in the plan, and nothing else.
   */
  ghost predicate Recomputed(c: Config, t: State, ids: seq<int>, g: nat, toks: map<int, seq<Token>>,
                             mem: Memory, mem': Memory)
  {
    && (forall i, l: nat, o: nat :: 0 <= i < |ids| && l < EvictedOf(t, ids[i]) && o < c.blockSize
          && ids[i] in toks && l * c.blockSize + o < |toks[ids[i]]|
          ==> mem'(g, BlockAt(t, ids[i], l, g), o) == toks[ids[i]][l * c.blockSize + o])
    && (forall h: nat, b: nat, o :: h != g || (forall x: nat :: x in PlanOf(c, t, ids, g).recomputeSlots ==> x / c.blockSize != b)
          ==> mem'(h, b, o) == mem(h, b, o))
  }

  /** Recomputing disturbs no retained block of any sequence. */
  lemma RecomputeView(c: Config, s: State, t: State, ids: seq<int>, g: nat, toks: map<int, seq<Token>>,
                      mem: Memory, mem': Memory, k: Key)
    requires Inv(c, t) && LeasedTemps(c, s, t, ids, g) && GpuView(s, mem, toks)
    requires Recomputed(c, t, ids, g, toks, mem, mem') && k in s.entries
    ensures EntryView(s, mem', toks, k)
  {
    hide Inv, Fresh, LeaseKeys;
    assert EntryView(s, mem, toks, k);
    var b := s.entries[k].phys;
    if k.group == g {
      forall x: nat | x in PlanOf(c, t, ids, g).recomputeSlots ensures x / c.blockSize != b {
        RecomputeSlotsSpareRetained(c, s, t, ids, g, x, k);
      }
    }
  }

  /**
   During the lease, the decode table reads the whole sequence: the recomputed
   prefix from temporaries and the suffix from its retained blocks.
   */
  lemma LeaseReadsWholeSequence(c: Config, s: State, t: State, ids: seq<int>, g: nat, toks: map<int, seq<Token>>,
                                mem: Memory, mem': Memory, i: nat, l: nat, o: nat)
    requires Inv(c, s) && Inv(c, t) && LeasedTemps(c, s, t, ids, g) && GpuView(s, mem, toks)
    requires Recomputed(c, t, ids, g, toks, mem, mem')
    requires i < |ids| && ids[i] in t.lens && ids[i] in toks && |toks[ids[i]]| == t.lens[ids[i]]
    requires o < c.blockSize && l * c.blockSize + o < t.lens[ids[i]]
    ensures l < |DecodeTable(c, t, ids[i], g)|
    ensures mem'(g, DecodeTable(c, t, ids[i], g)[l], o) == toks[ids[i]][l * c.blockSize + o]
  {
    hide Inv, Fresh, LeaseKeys, NumBlocks, Recomputed, GpuView;
    var id, tau := ids[i], l * c.blockSize + o;
    LiveIds(c, t);
    DivUnique(tau, c.blockSize, l, o);
    TokenInBlock(c, t.lens[id], tau);
    CachedBlocks(c, t, id, g, l);
    if l < t.evicted[id] {
      RecomputedAt(c, t, ids, g, toks, mem, mem', i, l, o);
    } else {
      var k := Key(id, l, g);
      RetainedEntry(c, t, k);
      RecomputeView(c, s, t, ids, g, toks, mem, mem', k);
    }
  }

  lemma RecomputedAt(c: Config, t: State, ids: seq<int>, g: nat, toks: map<int, seq<Token>>,
                     mem: Memory, mem': Memory, i: nat, l: nat, o: nat)
    requires Recomputed(c, t, ids, g, toks, mem, mem') && i < |ids| && l < EvictedOf(t, ids[i]) && o < c.blockSize
    requires ids[i] in toks && l * c.blockSize + o < |toks[ids[i]]|
    ensures mem'(g, BlockAt(t, ids[i], l, g), o) == toks[ids[i]][l * c.blockSize + o]
  {
  }

  lemma RetainedEntry(c: Config, t: State, k: Key)
    requires Inv(c, t) && k in t.entries
    ensures k.seqId in t.lens && t.entries[k].tokenStart == k.block * c.blockSize
    ensures t.entries[k].numFilled == NumFilled(c, t.lens[k.seqId], k.block)
  {
    hide Ledger, TempsOk, NumBlocks, NumFilled;
  }

  // ---------------------------------------------------------------- runs

  /** The operations of the manager on one sequence, with the tokens they carry. */
  datatype Op =
    | Alloc(id: int, tokens: seq<Token>)
    | Append(id: int, token: Token)
    | Fork(parent: int, child: int)
    | Evict(id: int, numTokens: int)
    | Free(id: int)
    | Save(id: int)
    | Drop(id: int)
    | Restore(id: int)
    | Discard(id: int)
    | Recompute(ids: seq<int>, group: nat)
    | Raise

  /** Sequences as private token lists: no blocks, no sharing, no memory. */
  ghost function Reference(toks: map<int, seq<Token>>, op: Op): map<int, seq<Token>> {
    match op
    case Alloc(id, tokens) => toks[id := tokens]
    case Append(id, token) => if id in toks then toks[id := toks[id] + [token]] else toks
    case Fork(parent, child) => if parent in toks then toks[child := toks[parent]] else toks
    case Free(id) => toks - {id}
    case _ => toks
  }

  /**
   One operation of the manager and the memory traffic it causes. An operation that
   raised (Raise) has put everything back, up to the order of the free deques.
   Swapping out is Save for every sequence of a group, then Drop for every one;
   swapping in is Restore for every sequence, then Discard for every one.
   */
  ghost predicate Step(c: Config, w: World, w': World, op: Op) {
    && w'.toks == Reference(w.toks, op)
    && match op
       case Alloc(id, tokens) =>
         && id !in w.m.kv.lens && id !in w.m.saved && |tokens| > 0
         && w'.m == w.m.(kv := w'.m.kv) && w'.cpu == w.cpu
         && Inv(c, w'.m.kv) && Allocated(c, w.m.kv, w'.m.kv, id, |tokens|, 0)
         && PrefillWrites(w'.m.kv, id, tokens, w.gpu, w'.gpu)
       case Append(id, token) =>
         && id !in w.m.saved && TailRetained(c, w.m.kv, id)
         && w'.m == w.m.(kv := w'.m.kv) && w'.cpu == w.cpu && Inv(c, w'.m.kv)
         && exists copies :: Appended(c, w.m.kv, w'.m.kv, id, copies)
                             && w'.gpu == WriteToken(c, w'.m.kv, id, token, ApplyCopies(w.gpu, copies))
       case Fork(parent, child) =>
         && child !in w.m.kv.lens && child !in w.m.saved
         && w'.m == w.m.(kv := w'.m.kv) && w'.cpu == w.cpu && w'.gpu == w.gpu
         && Inv(c, w'.m.kv) && Forked(w.m.kv, w'.m.kv, parent, child)
       case Evict(id, numTokens) =>
         && CanEvict(c, w.m.kv, id, numTokens)
         && w'.m == w.m.(kv := w'.m.kv) && w'.cpu == w.cpu && w'.gpu == w.gpu
         && Inv(c, w'.m.kv) && Evicted(c, w.m.kv, w'.m.kv, id, ClampedBlocks(c, w.m.kv.lens[id], numTokens))
       case Free(id) =>
         id !in w.m.saved && DropStep(w.m, w'.m, id) && w'.cpu == w.cpu && w'.gpu == w.gpu && Inv(c, w'.m.kv)
       case Save(id) =>
         id !in w.m.saved && SaveStep(c, w.m, w'.m, id) && w'.gpu == w.gpu
         && w'.cpu == ApplyMoves(w.gpu, w.cpu, SaveMoves(c, w.m, w'.m, id))
       case Drop(id) =>
         id in w.m.saved && DropStep(w.m, w'.m, id) && w'.cpu == w.cpu && w'.gpu == w.gpu && Inv(c, w'.m.kv)
       case Restore(id) =>
         && RestoreStep(c, w.m, w'.m, id) && w'.cpu == w.cpu && Inv(c, w'.m.kv)
         && w'.gpu == ApplyMoves(w.cpu, w.gpu, RestoreMoves(c, w.m, w'.m, id))
       case Discard(id) =>
         id in w.m.kv.lens && DiscardStep(c, w.m, w'.m, id) && w'.cpu == w.cpu && w'.gpu == w.gpu
       case Recompute(ids, g) =>
         && w'.m == w.m.(kv := w'.m.kv) && w'.cpu == w.cpu
         && Inv(c, w'.m.kv) && Unchanged(w.m.kv, w'.m.kv)
         && exists t :: Inv(c, t) && LeasedTemps(c, w.m.kv, t, ids, g) && Recomputed(c, t, ids, g, w.toks, w.gpu, w'.gpu)
       case Raise =>
         && w'.gpu == w.gpu && w'.cpu == w.cpu && w'.m.saved == w.m.saved
         && Inv(c, w'.m.kv) && Unchanged(w.m.kv, w'.m.kv)
         && |w'.m.cpu| == |w.m.cpu|
         && forall g :: 0 <= g < |w.m.cpu| ==> multiset(w'.m.cpu[g]) == multiset(w.m.cpu[g])
  }

  lemma CpuViewFrame(c: Config, saved: map<int, Swapped>, mem: Memory, toks: map<int, seq<Token>>, toks': map<int, seq<Token>>)
    requires CpuView(c, saved, mem, toks)
    requires forall id :: id in saved && id in toks ==> id in toks' && toks'[id] == toks[id]
    ensures CpuView(c, saved, mem, toks')
  {
    hide SavedView;
    forall id, g, j | id in saved && 0 <= g < |saved[id].tables| && 0 <= j < |saved[id].tables[g]|
      ensures SavedBlock(c, saved, mem, toks', id, g, j)
    {
      assert SavedBlock(c, saved, mem, toks, id, g, j);
    }
  }

  lemma GpuViewFrame(s: State, t: State, mem: Memory, toks: map<int, seq<Token>>, toks': map<int, seq<Token>>)
    requires GpuView(s, mem, toks)
    requires forall k :: k in t.entries ==> k in s.entries && t.entries[k] == s.entries[k]
    requires forall k :: k in t.entries && k.seqId in toks ==> k.seqId in toks' && toks'[k.seqId] == toks[k.seqId]
    ensures GpuView(t, mem, toks')
  {
    forall k | k in t.entries ensures EntryView(t, mem, toks', k) {
      assert EntryView(s, mem, toks, k);
    }
  }

  /** Replacing the GPU side leaves the CPU side's invariants in place. */
  lemma CpuSideKept(c: Config, p: CpuConfig, m: Manager, t: State)
    requires ManagerInv(c, p, m) && NoCpuLeak(c, p, m) && Inv(c, t)
    ensures ManagerInv(c, p, m.(kv := t)) && NoCpuLeak(c, p, m.(kv := t))
  {
    hide Inv, SwappedOk, Owned;
  }

  lemma AllocKeeps(c: Config, p: CpuConfig, w: World, w': World, id: int, tokens: seq<Token>)
    requires WorldInv(c, p, w) && Step(c, w, w', Alloc(id, tokens))
    ensures WorldInv(c, p, w')
  {
    var s, t := w.m.kv, w'.m.kv;
    hide ManagerInv, NoCpuLeak, CpuView, GpuView, Inv, Allocated, PrefillWrites, EntryView;
    AllocatedLens(c, s, t, id, |tokens|, 0);
    CpuSideKept(c, p, w.m, t) by { InvOf(c, p, w); }
    CpuViewFrame(c, w.m.saved, w.cpu, w.toks, w'.toks);
    InvOf(c, p, w);
    forall k | k in t.entries ensures EntryView(t, w'.gpu, w'.toks, k) {
      AllocateView(c, s, t, id, |tokens|, 0, w.gpu, w'.gpu, w.toks, tokens, k);
    }
    GpuViewIntro(t, w'.gpu, w'.toks);
  }

  lemma InvOf(c: Config, p: CpuConfig, w: World)
    requires WorldInv(c, p, w)
    ensures Inv(c, w.m.kv) && CpuDisjoint(c, p, w.m)
  {
    hide NoCpuLeak, Lengths, GpuView, CpuView, Inv, CpuDisjoint;
  }

  lemma GpuViewIntro(t: State, mem: Memory, toks: map<int, seq<Token>>)
    requires forall k :: k in t.entries ==> EntryView(t, mem, toks, k)
    ensures GpuView(t, mem, toks)
  {
    hide EntryView;
  }

  lemma AppendKeeps(c: Config, p: CpuConfig, w: World, w': World, id: int, token: Token)
    requires WorldInv(c, p, w) && Step(c, w, w', Append(id, token))
    ensures WorldInv(c, p, w')
  {
    hide ManagerInv, NoCpuLeak, CpuView, GpuView, Inv, Appended, EntryView, WriteToken, ApplyCopies;
    var s, t := w.m.kv, w'.m.kv;
    var copies :| Appended(c, s, t, id, copies) && w'.gpu == WriteToken(c, t, id, token, ApplyCopies(w.gpu, copies));
    AppendedLens(c, s, t, id, copies);
    InvOf(c, p, w);
    CpuSideKept(c, p, w.m, t);
    LiveTokens(c, p, w, id);
    CpuViewFrame(c, w.m.saved, w.cpu, w.toks, w'.toks);
    forall k | k in t.entries ensures EntryView(t, w'.gpu, w'.toks, k) {
      AppendView(c, s, t, id, copies, w.gpu, w.toks, token, k);
    }
    GpuViewIntro(t, w'.gpu, w'.toks);
  }

  lemma AppendedLens(c: Config, s: State, t: State, id: int, copies: seq<Copy>)
    requires Appended(c, s, t, id, copies)
    ensures id in s.lens && t.lens == s.lens[id := s.lens[id] + 1]
  {
    hide CopyList, TailPlaced;
  }

  lemma ForkKeeps(c: Config, p: CpuConfig, w: World, w': World, parent: int, child: int)
    requires WorldInv(c, p, w) && Step(c, w, w', Fork(parent, child))
    ensures WorldInv(c, p, w')
  {
    hide ManagerInv, NoCpuLeak, CpuView, GpuView, Inv, EntryView, EntriesForked, KeysOf;
    var s, t := w.m.kv, w'.m.kv;
    InvOf(c, p, w);
    CpuSideKept(c, p, w.m, t);
    LiveTokens(c, p, w, parent);
    NoKeysOf(c, s, child);
    CpuViewFrame(c, w.m.saved, w.cpu, w.toks, w'.toks);
    forall k | k in t.entries ensures EntryView(t, w'.gpu, w'.toks, k) {
      ForkView(s, t, parent, child, w.gpu, w.toks, k);
    }
    GpuViewIntro(t, w'.gpu, w'.toks);
  }

  /** Evicting, freeing and dropping only remove entries. */
  lemma ShrinkKeeps(c: Config, p: CpuConfig, w: World, w': World, op: Op)
    requires WorldInv(c, p, w) && Step(c, w, w', op) && (op.Evict? || op.Free? || op.Drop?)
    ensures WorldInv(c, p, w')
  {
    hide ManagerInv, NoCpuLeak, CpuView, GpuView, Inv, EntryView, Span, ClampedBlocks;
    var s, t := w.m.kv, w'.m.kv;
    InvOf(c, p, w);
    assert w'.m == w.m.(kv := t);
    CpuSideKept(c, p, w.m, t);
    CpuViewFrame(c, w.m.saved, w.cpu, w.toks, w'.toks);
    assert forall k :: k in t.entries ==> k in s.entries && t.entries[k] == s.entries[k];
    assert forall k :: k in t.entries && k.seqId in w.toks ==> k.seqId in w'.toks && w'.toks[k.seqId] == w.toks[k.seqId];
    GpuViewFrame(s, t, w.gpu, w.toks, w'.toks);
  }

  lemma SaveKeeps(c: Config, p: CpuConfig, w: World, w': World, id: int)
    requires WorldInv(c, p, w) && Step(c, w, w', Save(id))
    ensures WorldInv(c, p, w')
  {
    assert ManagerInv(c, p, w.m) && NoCpuLeak(c, p, w.m) && Lengths(w.m, w.toks);
    SaveView(c, p, w, w'.m, id);
    SaveKeepsInv(c, p, w.m, w'.m, id);
    SaveKeepsBlocks(c, p, w.m, w'.m, id);
    LiveTokens(c, p, w, id);
    hide ManagerInv, NoCpuLeak, CpuView, GpuView, ApplyMoves, RetainedTable;
  }

  lemma RestoreKeeps(c: Config, p: CpuConfig, w: World, w': World, id: int)
    requires WorldInv(c, p, w) && Step(c, w, w', Restore(id))
    ensures WorldInv(c, p, w')
  {
    hide ManagerInv, NoCpuLeak, CpuView, GpuView, Inv, EntryView, Allocated, RestoreMoves, ApplyMoves, SameShape;
    var s, t := w.m.kv, w'.m.kv;
    InvOf(c, p, w);
    assert w'.m == w.m.(kv := t);
    CpuSideKept(c, p, w.m, t);
    LiveTokens(c, p, w, id);
    AllocatedLens(c, s, t, id, w.m.saved[id].length, WholeBlocks(c, w.m.saved[id].evictedTokens));
    forall k | k in t.entries ensures EntryView(t, w'.gpu, w'.toks, k) {
      if k.seqId == id { RestoreViewOwn(c, p, w, w'.m, id, k); } else { RestoreViewOther(c, p, w, w'.m, id, k); }
    }
    GpuViewIntro(t, w'.gpu, w'.toks);
  }

  lemma DiscardKeeps(c: Config, p: CpuConfig, w: World, w': World, id: int)
    requires WorldInv(c, p, w) && Step(c, w, w', Discard(id))
    ensures WorldInv(c, p, w')
  {
    DiscardKeepsInv(c, p, w.m, w'.m, id);
    DiscardKeepsBlocks(c, p, w.m, w'.m, id);
    DiscardView(c, p, w, w', id);
    hide ManagerInv, NoCpuLeak, CpuView, GpuView;
  }

  lemma DiscardView(c: Config, p: CpuConfig, w: World, w': World, id: int)
    requires WorldInv(c, p, w) && Step(c, w, w', Discard(id))
    ensures CpuView(c, w'.m.saved, w'.cpu, w'.toks)
  {
    hide SavedView, ManagerInv, NoCpuLeak, GpuView;
    forall i, g, j | i in w'.m.saved && 0 <= g < |w'.m.saved[i].tables| && 0 <= j < |w'.m.saved[i].tables[g]|
      ensures SavedBlock(c, w'.m.saved, w'.cpu, w'.toks, i, g, j)
    {
      assert SavedBlock(c, w.m.saved, w.cpu, w.toks, i, g, j);
    }
  }

  lemma RecomputeKeeps(c: Config, p: CpuConfig, w: World, w': World, ids: seq<int>, g: nat)
    requires WorldInv(c, p, w) && Step(c, w, w', Recompute(ids, g))
    ensures WorldInv(c, p, w')
  {
    hide ManagerInv, NoCpuLeak, CpuView, GpuView, Inv, EntryView, LeasedTemps, Recomputed;
    var s, s' := w.m.kv, w'.m.kv;
    var t :| Inv(c, t) && LeasedTemps(c, s, t, ids, g) && Recomputed(c, t, ids, g, w.toks, w.gpu, w'.gpu);
    InvOf(c, p, w);
    CpuSideKept(c, p, w.m, s');
    forall k | k in s.entries ensures EntryView(s, w'.gpu, w.toks, k) {
      RecomputeView(c, s, t, ids, g, w.toks, w.gpu, w'.gpu, k);
    }
    GpuViewIntro(s, w'.gpu, w.toks);
    GpuViewFrame(s, s', w'.gpu, w.toks, w'.toks);
  }

  lemma RaiseKeeps(c: Config, p: CpuConfig, w: World, w': World)
    requires WorldInv(c, p, w) && Step(c, w, w', Raise)
    ensures WorldInv(c, p, w')
  {
    hide Inv, SwappedOk, CpuView, GpuView;
    forall g | 0 <= g < |w.m.cpu|
      ensures NoDup(w'.m.cpu[g]) && forall x :: x in w.m.cpu[g] <==> x in w'.m.cpu[g]
    {
      SameMultiset(w.m.cpu[g], w'.m.cpu[g]);
    }
    GpuViewFrame(w.m.kv, w'.m.kv, w.gpu, w.toks, w'.toks);
  }

  /**
   Copy-on-write refines private sequences: whatever operation runs, every live
   sequence still reads its own token list through its block tables, every swapped
   one through its CPU tables, and the tokens change as the reference says.
   */
  lemma StepRefines(c: Config, p: CpuConfig, w: World, w': World, op: Op)
    requires WorldInv(c, p, w) && Step(c, w, w', op)
    ensures WorldInv(c, p, w') && w'.toks == Reference(w.toks, op)
  {
    hide WorldInv;
    assert w'.toks == Reference(w.toks, op);
    hide Step, Reference;
    match op
    case Alloc(id, tokens) => AllocKeeps(c, p, w, w', id, tokens);
    case Append(id, token) => AppendKeeps(c, p, w, w', id, token);
    case Fork(parent, child) => ForkKeeps(c, p, w, w', parent, child);
    case Evict(_, _) => ShrinkKeeps(c, p, w, w', op);
    case Free(_) => ShrinkKeeps(c, p, w, w', op);
    case Save(id) => SaveKeeps(c, p, w, w', id);
    case Drop(_) => ShrinkKeeps(c, p, w, w', op);
    case Restore(id) => RestoreKeeps(c, p, w, w', id);
    case Discard(id) => DiscardKeeps(c, p, w, w', id);
    case Recompute(ids, g) => RecomputeKeeps(c, p, w, w', ids, g);
    case Raise => RaiseKeeps(c, p, w, w');
  }

  ghost predicate IsRun(c: Config, ws: seq<World>, ops: seq<Op>) {
    |ws| == |ops| + 1 && forall i :: 0 <= i < |ops| ==> Step(c, ws[i], ws[i + 1], ops[i])
  }

  /** Everything free, nothing stored. */
  ghost predicate Initial(c: Config, p: CpuConfig, w: World) {
    && Inv(c, w.m.kv) && w.m.kv.lens == map[] && w.m.kv.entries == map[] && w.m.saved == map[] && w.toks == map[]
    && |w.m.cpu| == Groups(c)
    && forall g :: 0 <= g < Groups(c) ==> w.m.cpu[g] == seq<nat>(p, i => i)
  }

  ghost function ReferenceRun(ops: seq<Op>): map<int, seq<Token>> {
    if ops == [] then map[] else Reference(ReferenceRun(ops[..|ops| - 1]), ops[|ops| - 1])
  }

  lemma InitialInv(c: Config, p: CpuConfig, w: World)
    requires Initial(c, p, w)
    ensures WorldInv(c, p, w)
  {
    hide Inv;
    forall g, b | 0 <= g < Groups(c) && 0 <= b < p ensures b in w.m.cpu[g] {
      assert w.m.cpu[g][b] == b;
    }
  }

  /** Along every run from the empty cache, at every point, all sequences read their own tokens. */
  lemma {:induction false} RunRefines(c: Config, p: CpuConfig, ws: seq<World>, ops: seq<Op>, n: nat)
    requires IsRun(c, ws, ops) && Initial(c, p, ws[0]) && n <= |ops|
    ensures WorldInv(c, p, ws[n]) && ws[n].toks == ReferenceRun(ops[..n])
  {
    hide Step, WorldInv, Reference;
    if n == 0 {
      InitialInv(c, p, ws[0]);
    } else {
      RunRefines(c, p, ws, ops, n - 1);
      StepRefines(c, p, ws[n - 1], ws[n], ops[n - 1]);
      assert ops[..n][..n - 1] == ops[..n - 1];
    }
  }

  /** What the kernels read: token tau of a live sequence, through the retained table of any group. */
  lemma ReadsOwnTokens(c: Config, p: CpuConfig, w: World, id: int, g: nat, tau: nat)
    requires WorldInv(c, p, w) && id in w.m.kv.lens && id in w.m.kv.evicted && g < Groups(c)
    requires w.m.kv.evicted[id] * c.blockSize <= tau < w.m.kv.lens[id]
    ensures id in w.toks && |w.toks[id]| == w.m.kv.lens[id]
    ensures w.m.kv.evicted[id] <= tau / c.blockSize
    ensures var table, j := RetainedTable(c, w.m.kv, id, g), tau / c.blockSize - w.m.kv.evicted[id];
            && j < |table| && w.gpu(g, table[j], tau % c.blockSize) == w.toks[id][tau]
  {
    hide WorldInv, Inv, NumBlocks, NumFilled;
    InvOf(c, p, w);
    LiveTokens(c, p, w, id);
    var s := w.m.kv;
    TokenInBlock(c, s.lens[id], tau);
    var l := tau / c.blockSize;
    if l < s.evicted[id] { MulMono(l + 1, s.evicted[id], c.blockSize); }
    RetainedLength(c, s, id, g);
    hide RetainedTable;
    RetainedAt(c, s, id, g, l - s.evicted[id]);
    ViewOf(c, p, w, Key(id, l, g));
  }

  lemma ViewOf(c: Config, p: CpuConfig, w: World, k: Key)
    requires WorldInv(c, p, w) && k in w.m.kv.entries
    ensures EntryView(w.m.kv, w.gpu, w.toks, k)
  {
    hide ManagerInv, NoCpuLeak, CpuView, EntryView;
  }

  /**
   Swap round trip: restoring a saved sequence gives back its length, its evicted
   prefix and the shape of its tables, and the composed block moves carry every
   retained block's contents back to the GPU.
   */
  lemma SwapRoundTrip(c: Config, p: CpuConfig, m0: Manager, m1: Manager, m2: Manager, m3: Manager, id: int,
                      gpu0: Memory, cpu0: Memory, cpu2: Memory, gpu2: Memory, g: nat, j: nat, o: int)
    requires ManagerInv(c, p, m0) && SaveStep(c, m0, m1, id)
    requires ManagerInv(c, p, m2) && RestoreStep(c, m2, m3, id) && Inv(c, m3.kv)
    requires id in m2.saved && id in m1.saved && m2.saved[id] == m1.saved[id]
    requires g < Groups(c) == |m2.saved[id].tables| && j < |RetainedTable(c, m0.kv, id, g)| && j < |m2.saved[id].tables[g]|
    requires forall b, x :: b in m2.saved[id].tables[g] ==> cpu2(g, b, x) == ApplyMoves(gpu0, cpu0, SaveMoves(c, m0, m1, id))(g, b, x)
    ensures id in m3.kv.lens && m3.kv.lens[id] == m0.kv.lens[id]
    ensures id in m3.kv.evicted && m3.kv.evicted[id] == m0.kv.evicted[id]
    ensures |RetainedTable(c, m3.kv, id, g)| == |RetainedTable(c, m0.kv, id, g)|
    ensures ApplyMoves(cpu2, gpu2, RestoreMoves(c, m2, m3, id))(g, RetainedTable(c, m3.kv, id, g)[j], o)
            == gpu0(g, RetainedTable(c, m0.kv, id, g)[j], o)
  {
    hide Inv, CpuDisjoint, Aligned, WholeBlocks, NumBlocks, ApplyMoves, Moves, RetainedTable;
    SaveShape(c, p, m0, m1, id);
    RestoreShape(c, p, m2, m3, id);
    AlignedProduct(c, m0.kv.evicted[id]);
    var x := m1.saved[id].tables[g][j];
    var y := RetainedTable(c, m3.kv, id, g)[j];
    MovesEffect(gpu0, cpu0, RetainedTables(c, m0.kv, id), m1.saved[id].tables, Groups(c), g, x, o);
    MovesEffect(cpu2, gpu2, m2.saved[id].tables, RetainedTables(c, m3.kv, id), Groups(c), g, y, o);
  }
}
