/** Forking, prefix eviction and freeing of sequences in the KV block store. */
module KVSharing {
  import opened Arithmetic
  import opened KVState
  import opened KVSpec

  // ---------------------------------------------------------------- fork

  /** The child owns a copy of every parent entry in done, naming the same block. */
  ghost predicate EntriesForked(s: map<Key, Entry>, t: map<Key, Entry>, parent: int, child: int, done: set<Key>) {
    && (forall k :: k in t <==> k in s || (k.seqId == child && Key(parent, k.block, k.group) in done))
    && (forall k :: k in s ==> t[k] == s[k])
    && (forall k :: k in done ==>
          k in s && k.seqId == parent && Key(child, k.block, k.group) in t
          && t[Key(child, k.block, k.group)] == s[k].(seqId := child))
  }

  ghost function KeysOf(m: map<Key, Entry>, id: int): set<Key> {
    set k | k in m && k.seqId == id
  }

  ghost predicate CanFork(s: State, parent: int, child: int) {
    parent in s.lens && child !in s.lens && KeysOf(s.temps, parent) == {}
  }

  ghost predicate Forked(s: State, t: State, parent: int, child: int) {
    && parent in s.lens && parent in s.evicted
    && EntriesForked(s.entries, t.entries, parent, child, KeysOf(s.entries, parent))
    && t.lens == s.lens[child := s.lens[parent]] && t.evicted == s.evicted[child := s.evicted[parent]]
    && t.temps == s.temps && t.free == s.free
  }

  lemma ForkStep(s: map<Key, Entry>, t: map<Key, Entry>, parent: int, child: int, done: set<Key>, k: Key)
    requires EntriesForked(s, t, parent, child, done) && parent != child
    requires k in s && k.seqId == parent && k !in done && KeysOf(s, child) == {}
    ensures k in t && t[k] == s[k] && Key(child, k.block, k.group) !in t
    ensures EntriesForked(s, t[Key(child, k.block, k.group) := s[k].(seqId := child)], parent, child, done + {k})
  {
    var k' := Key(child, k.block, k.group);
    assert k' in s ==> k' in KeysOf(s, child);
  }

  lemma NothingForked(s: map<Key, Entry>, parent: int, child: int)
    ensures EntriesForked(s, s, parent, child, KeysOf(s, parent) - KeysOf(s, parent))
  {
  }

  lemma SomeKey(m: map<Key, Entry>, id: int)
    requires exists k :: k in m && k.seqId == id
    ensures KeysOf(m, id) != {}
  {
    var k :| k in m && k.seqId == id;
    assert k in KeysOf(m, id);
  }

  lemma NoKeyOf(m: map<Key, Entry>, id: int)
    requires !exists k :: k in m && k.seqId == id
    ensures KeysOf(m, id) == {}
  {
  }

  lemma NoKeysOf(c: Config, s: State, id: int)
    requires Inv(c, s) && id !in s.lens
    ensures KeysOf(s.entries, id) == {}
  {
    NoKeys(c, s, id);
    hide Inv;
  }

  lemma ForkedTables(c: Config, s: State, t: State, parent: int, child: int)
    requires TablesOk(c, s) && child !in s.lens && Forked(s, t, parent, child)
    ensures TablesOk(c, t)
  {
    hide NumBlocks, NumFilled;
    forall k ensures k in t.entries <==> Retained(c, t, k) {
      var p := Key(parent, k.block, k.group);
      assert k in s.entries <==> Retained(c, s, k);
      assert p in s.entries <==> Retained(c, s, p);
      assert p in KeysOf(s.entries, parent) <==> p in s.entries;
    }
    forall k | k in t.entries
      ensures t.entries[k] == PermanentEntry(c, k, t.lens[k.seqId], t.entries[k].phys)
    {
      var p := Key(parent, k.block, k.group);
      if k !in s.entries { assert p in KeysOf(s.entries, parent); }
    }
  }

  lemma ForkedInv(c: Config, s: State, t: State, parent: int, child: int)
    requires Inv(c, s) && child !in s.lens && Forked(s, t, parent, child) && Ledger(c, t, multiset{})
    ensures Inv(c, t)
  {
    hide Ledger, EntriesForked;
    ForkedTables(c, s, t, parent, child);
    LiveTemps(c, s);
    hide TablesOk;
  }

  /** Temporaries belong to live sequences. */
  lemma LiveTemps(c: Config, s: State)
    requires Inv(c, s)
    ensures s.lens.Keys == s.evicted.Keys
    ensures forall k :: k in s.temps ==> k.seqId in s.lens
  {
    hide Ledger;
  }

  // ---------------------------------------------------------------- evict

  ghost function ClampedBlocks(c: Config, len: nat, numTokens: int): nat {
    WholeBlocks(c, if numTokens < 0 then 0 else if numTokens < len then numTokens else len)
  }

  /** The most tokens in whole blocks that are neither more than asked for nor more than there are. */
  ghost predicate MostWholeBlocks(c: Config, len: nat, numTokens: int, tokens: nat) {
    && tokens <= len && (tokens > 0 ==> tokens <= numTokens)
    && (len < tokens + c.blockSize || numTokens < tokens + c.blockSize)
  }

  lemma ClampedIsMost(c: Config, len: nat, numTokens: int)
    ensures (ClampedBlocks(c, len, numTokens) * c.blockSize) % c.blockSize == 0
    ensures MostWholeBlocks(c, len, numTokens, ClampedBlocks(c, len, numTokens) * c.blockSize)
  {
    var m: nat := if numTokens < 0 then 0 else if numTokens < len then numTokens else len;
    assert m == (m / c.blockSize) * c.blockSize + m % c.blockSize;
    DivUnique((m / c.blockSize) * c.blockSize, c.blockSize, m / c.blockSize, 0);
  }

  /** evict_prefix returns in exactly these states. */
  ghost predicate CanEvict(c: Config, s: State, id: int, numTokens: int) {
    && s.temps == map[] && id in s.lens && id in s.evicted
    && s.evicted[id] <= ClampedBlocks(c, s.lens[id], numTokens)
  }

  /** The blocks below q of one sequence are gone from every group; nothing else changed. */
  ghost predicate Evicted(c: Config, s: State, t: State, id: int, q: nat) {
    && id in s.evicted
    && t.entries == s.entries - Span(c, id, s.evicted[id], q)
    && t.evicted == s.evicted[id := q] && t.lens == s.lens && t.temps == s.temps
  }

  lemma WholeBlocksFit(c: Config, n: nat, m: nat)
    requires m <= n
    ensures WholeBlocks(c, m) <= WholeBlocks(c, n) <= NumBlocks(c, n)
  {
    var b := c.blockSize;
    assert m == (m / b) * b + m % b && n == (n / b) * b + n % b;
    assert (n / b + 1) * b == (n / b) * b + b;
    if m / b > n / b { MulMono(n / b + 1, m / b, b); }
    BlocksOnAppend(c, n);
  }

  lemma EvictedInv(c: Config, s: State, t: State, id: int, q: nat)
    requires Inv(c, s) && Evicted(c, s, t, id, q) && s.temps == map[] && id in s.lens
    requires s.evicted[id] <= q <= NumBlocks(c, s.lens[id]) && Ledger(c, t, multiset{})
    ensures Inv(c, t)
  {
    hide Ledger, NumBlocks, NumFilled;
    forall k ensures k in t.entries <==> Retained(c, t, k) {
      assert k in s.entries <==> Retained(c, s, k);
      assert k in Span(c, id, s.evicted[id], q) <==>
             k.seqId == id && s.evicted[id] <= k.block < q && k.group < Groups(c);
    }
  }

  lemma EvictKeyStored(c: Config, s: State, id: int, l: nat, g: nat)
    requires Inv(c, s) && id in s.lens && id in s.evicted && s.evicted[id] <= l < NumBlocks(c, s.lens[id]) && g < Groups(c)
    ensures Key(id, l, g) in s.entries
  {
    hide Ledger, TempsOk, NumBlocks;
    assert Retained(c, s, Key(id, l, g));
  }

  lemma SpanJoin(c: Config, id: int, lo: nat, l: nat)
    requires lo <= l
    ensures Cells(id, lo, l + 1, 0, Groups(c)) == Span(c, id, lo, l + 1)
    ensures Span(c, id, lo, l) + Span(c, id, l, l + 1) == Span(c, id, lo, l + 1)
  {
    assert forall k :: k in Span(c, id, lo, l + 1) ==> k in Span(c, id, lo, l) || k in Span(c, id, l, l + 1);
  }

  // ---------------------------------------------------------------- free

  ghost predicate Freed(s: State, t: State, id: int) {
    && t.entries == s.entries - KeysOf(s.entries, id)
    && t.temps == s.temps - KeysOf(s.temps, id)
    && t.lens == s.lens - {id} && t.evicted == s.evicted - {id}
  }

  lemma FreedInv(c: Config, s: State, t: State, id: int)
    requires Inv(c, s) && Freed(s, t, id) && Ledger(c, t, multiset{})
    ensures Inv(c, t)
  {
    hide Ledger, NumBlocks, NumFilled;
    forall k ensures k in t.entries <==> Retained(c, t, k) {
      assert k in s.entries <==> Retained(c, s, k);
    }
  }
}
