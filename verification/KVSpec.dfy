/**
 What each operation of the KV block store does to its state, and the ledger
 lemmas that carry a single pool step through the invariant.
 */
module KVSpec {
  import opened KVState

  // ---------------------------------------------------------------- pool steps

  /** The head of group g's deque is taken and referenced once. */
  ghost function Popped(s: State, g: nat): State
    requires g < |s.free| && g < |s.refs| && s.free[g] != [] && s.free[g][0] < |s.refs[g]|
  {
    s.(free := s.free[g := s.free[g][1..]], refs := s.refs[g := s.refs[g][s.free[g][0] := 1]])
  }

  /** One reference to a block is dropped; the last one returns it to the deque's tail. */
  ghost function Released(s: State, g: nat, b: nat): State
    requires g < |s.free| && g < |s.refs| && b < |s.refs[g]| && s.refs[g][b] > 0
  {
    var refs := s.refs[g := s.refs[g][b := s.refs[g][b] - 1]];
    if s.refs[g][b] > 1 then s.(refs := refs) else s.(refs := refs, free := s.free[g := s.free[g] + [b]])
  }

  ghost function Shared(s: State, g: nat, b: nat): State
    requires g < |s.refs| && b < |s.refs[g]|
  {
    s.(refs := s.refs[g := s.refs[g][b := s.refs[g][b] + 1]])
  }

  lemma LedgerPop(c: Config, s: State, x: multiset<(nat, nat)>, g: nat)
    requires Ledger(c, s, x) && g < Groups(c) && s.free[g] != []
    ensures s.free[g][0] < c.numBlocks && s.refs[g][s.free[g][0]] == 0
    ensures Ledger(c, Popped(s, g), x + multiset{(g, s.free[g][0])})
  {
    var b, f := s.free[g][0], s.free[g];
    assert PoolOk(f, s.refs[g], c.numBlocks) && b in f;
    var t := Popped(s, g);
    assert PoolOk(t.free[g], t.refs[g], c.numBlocks) by {
      forall d | d in f[1..] ensures d < c.numBlocks && t.refs[g][d] == 0 {
        var i :| 0 <= i < |f[1..]| && f[1..][i] == d;
        assert d == f[i + 1] && d in f;
      }
      forall d | 0 <= d < c.numBlocks && t.refs[g][d] == 0 ensures d in f[1..] { assert d in f; }
    }
    var y := x + multiset{(g, b)};
    forall h, d | 0 <= h < Groups(c) && 0 <= d < c.numBlocks
      ensures t.refs[h][d] == |Holders(t.entries, h, d)| + |Holders(t.temps, h, d)| + y[(h, d)]
    {}
    forall h | 0 <= h < Groups(c) ensures PoolOk(t.free[h], t.refs[h], c.numBlocks) {}
  }

  lemma LedgerRelease(c: Config, s: State, x: multiset<(nat, nat)>, g: nat, b: nat)
    requires g < Groups(c) && b < c.numBlocks && Ledger(c, s, x + multiset{(g, b)})
    ensures s.refs[g][b] > 0 && Ledger(c, Released(s, g, b), x)
  {
    var y := x + multiset{(g, b)};
    assert y[(g, b)] == x[(g, b)] + 1;
    assert PoolOk(s.free[g], s.refs[g], c.numBlocks);
    var t := Released(s, g, b);
    assert PoolOk(t.free[g], t.refs[g], c.numBlocks) by {
      assert b !in s.free[g];
      forall d | 0 <= d < c.numBlocks && t.refs[g][d] == 0 ensures d in t.free[g] {}
    }
    forall h, d | 0 <= h < Groups(c) && 0 <= d < c.numBlocks
      ensures t.refs[h][d] == |Holders(t.entries, h, d)| + |Holders(t.temps, h, d)| + x[(h, d)]
    {}
    forall h | 0 <= h < Groups(c) ensures PoolOk(t.free[h], t.refs[h], c.numBlocks) {}
  }

  lemma LedgerShare(c: Config, s: State, x: multiset<(nat, nat)>, g: nat, b: nat)
    requires Ledger(c, s, x) && g < Groups(c) && b < c.numBlocks && s.refs[g][b] > 0
    ensures Ledger(c, Shared(s, g, b), x + multiset{(g, b)})
  {
    var t, y := Shared(s, g, b), x + multiset{(g, b)};
    forall h, d | 0 <= h < Groups(c) && 0 <= d < c.numBlocks
      ensures t.refs[h][d] == |Holders(t.entries, h, d)| + |Holders(t.temps, h, d)| + y[(h, d)]
    {}
    forall h | 0 <= h < Groups(c) ensures PoolOk(t.free[h], t.refs[h], c.numBlocks) {
      assert PoolOk(s.free[h], s.refs[h], c.numBlocks);
    }
  }

  /** Moving entry k to a held block releases the block it named. */
  lemma LedgerMove(c: Config, s: State, x: multiset<(nat, nat)>, k: Key, e: Entry)
    requires k in s.entries && k.group < Groups(c) && e.phys < c.numBlocks
    requires Ledger(c, s, x + multiset{(k.group, e.phys)})
    ensures s.refs[k.group][s.entries[k].phys] > 0
    ensures Ledger(c, Released(s, k.group, s.entries[k].phys).(entries := s.entries[k := e]), x)
  {
    hide Ledger, Groups;
    var g, b := k.group, s.entries[k].phys;
    var y := x + multiset{(g, e.phys)};
    HeldBlock(c, s, y, k);
    Detach(c, s, y, k);
    var u := s.(entries := s.entries - {k});
    LedgerRelease(c, u, y, g, b);
    Attach(c, Released(u, g, b), x, k, e);
    assert (s.entries - {k})[k := e] == s.entries[k := e];
    assert Released(u, g, b).(entries := s.entries[k := e]) == Released(s, g, b).(entries := s.entries[k := e]);
  }

  /** Rewriting entry k in place changes no count. */
  lemma LedgerRewrite(c: Config, s: State, x: multiset<(nat, nat)>, k: Key, e: Entry)
    requires k in s.entries && Ledger(c, s, x) && e.phys == s.entries[k].phys && k.group < Groups(c)
    ensures Ledger(c, s.(entries := s.entries[k := e]), x)
  {
    hide Ledger, Groups;
    HeldBlock(c, s, x, k);
    Detach(c, s, x, k);
    Attach(c, s.(entries := s.entries - {k}), x, k, e);
    assert (s.entries - {k})[k := e] == s.entries[k := e];
  }

  // ---------------------------------------------------------------- allocation

  ghost function KeySet(keys: seq<Key>): set<Key> {
    set k | k in keys
  }

  /** The keys of blocks lo..hi of one sequence, in every group. */
  ghost function Span(c: Config, id: int, lo: nat, hi: nat): set<Key> {
    Cells(id, lo, hi, 0, Groups(c))
  }

  /** Blocks lo..hi of one sequence in groups from..to. */
  ghost function Cells(id: int, lo: nat, hi: nat, from: nat, to: nat): set<Key> {
    set l, g | lo <= l < hi && from <= g < to :: Key(id, l, g)
  }

  lemma NoKeysTaken(id: int, lo: nat, hi: nat)
    ensures NoDup<Key>([]) && KeySet([]) == Cells(id, lo, hi, 0, 0) == {}
  {
  }

  lemma CellsJoin(id: int, lo: nat, hi: nat, g: nat)
    ensures Cells(id, lo, hi, 0, g) + Cells(id, lo, hi, g, g + 1) == Cells(id, lo, hi, 0, g + 1)
  {
  }

  lemma AppendKey(keys: seq<Key>, k: Key)
    requires NoDup(keys) && k !in KeySet(keys)
    ensures NoDup(keys + [k]) && KeySet(keys + [k]) == KeySet(keys) + {k}
  {
    forall i | 0 <= i < |keys| ensures keys[i] != k { assert keys[i] in KeySet(keys); }
  }

  /** The keys are new, and no other entry changed. */
  ghost predicate EntriesGrown(c: Config, s: State, t: State, keys: set<Key>, n: nat) {
    && t.temps == s.temps && t.lens == s.lens && t.evicted == s.evicted
    && t.entries.Keys == s.entries.Keys + keys
    && keys !! s.entries.Keys
    && (forall k :: k in s.entries ==> t.entries[k] == s.entries[k])
    && (forall k :: k in keys ==> k in t.entries && t.entries[k] == PermanentEntry(c, k, n, t.entries[k].phys))
  }

  ghost predicate PoolSizes(c: Config, s: State) {
    && |s.free| == |s.refs| == Groups(c)
    && (forall g :: 0 <= g < Groups(c) ==> |s.refs[g]| == c.numBlocks)
  }

  /** The blocks behind the keys were free in s and are referenced once in t. */
  ghost predicate Fresh(c: Config, s: State, t: State, m: map<Key, Entry>, keys: set<Key>) {
    && PoolSizes(c, s) && PoolSizes(c, t)
    && (forall k :: k in keys ==>
          && k.group < Groups(c) && k in m && m[k].phys < c.numBlocks
          && s.refs[k.group][m[k].phys] == 0 && t.refs[k.group][m[k].phys] == 1)
    && (forall g, b :: 0 <= g < Groups(c) && 0 <= b < c.numBlocks && s.refs[g][b] > 0 ==> t.refs[g][b] == s.refs[g][b])
  }

  /** The keys were given blocks that were free and are now referenced once; no other entry changed. */
  ghost predicate GrownBy(c: Config, s: State, t: State, keys: set<Key>, n: nat) {
    EntriesGrown(c, s, t, keys, n) && Fresh(c, s, t, t.entries, keys)
  }

  lemma FreshStep(c: Config, s: State, t: State, m: map<Key, Entry>, keys: set<Key>, k: Key, e: Entry)
    requires PoolSizes(c, t) && k.group < Groups(c) && k !in keys
    requires t.free[k.group] != [] && e.phys == t.free[k.group][0] < c.numBlocks && t.refs[k.group][e.phys] == 0
    requires Fresh(c, s, t, m, keys)
    ensures Fresh(c, s, Popped(t, k.group), m[k := e], keys + {k})
  {
    var u, m', keys' := Popped(t, k.group), m[k := e], keys + {k};
    assert PoolSizes(c, u);
    forall h | h in keys'
      ensures h.group < Groups(c) && h in m' && m'[h].phys < c.numBlocks
      ensures s.refs[h.group][m'[h].phys] == 0 && u.refs[h.group][m'[h].phys] == 1
    {
      if h == k { assert s.refs[k.group][e.phys] == 0; }
    }
  }

  /** t after group g's next free block is recorded under key k. */
  ghost function Recorded(c: Config, t: State, k: Key, n: nat): State
    requires k.group < |t.free| && k.group < |t.refs| && t.free[k.group] != [] && t.free[k.group][0] < |t.refs[k.group]|
  {
    Popped(t, k.group).(entries := t.entries[k := PermanentEntry(c, k, n, t.free[k.group][0])])
  }

  lemma RecordLedger(c: Config, t: State, n: nat, k: Key)
    requires Ledger(c, t, multiset{}) && k !in t.entries && k.group < Groups(c) && t.free[k.group] != []
    ensures PoolSizes(c, t) && t.free[k.group][0] < c.numBlocks && t.refs[k.group][t.free[k.group][0]] == 0
    ensures Ledger(c, Recorded(c, t, k, n), multiset{})
  {
    assert PoolSizes(c, t);
    LedgerPop(c, t, multiset{}, k.group);
    assert Ledger(c, Recorded(c, t, k, n), multiset{}) by {
      hide Ledger;
      Attach(c, Popped(t, k.group), multiset{}, k, PermanentEntry(c, k, n, t.free[k.group][0]));
    }
  }

  lemma RecordGrown(c: Config, s: State, t: State, keys: set<Key>, n: nat, k: Key)
    requires PoolSizes(c, t) && k !in t.entries && k.group < Groups(c) && t.free[k.group] != []
    requires t.free[k.group][0] < c.numBlocks && t.refs[k.group][t.free[k.group][0]] == 0
    requires GrownBy(c, s, t, keys, n)
    ensures GrownBy(c, s, Recorded(c, t, k, n), keys + {k}, n)
  {
    assert Fresh(c, s, Recorded(c, t, k, n), Recorded(c, t, k, n).entries, keys + {k}) by {
      FreshStep(c, s, t, t.entries, keys, k, PermanentEntry(c, k, n, t.free[k.group][0]));
    }
    hide Fresh;
  }

  /** One more key: pop a block, record it. */
  lemma GrowStep(c: Config, s: State, t: State, keys: set<Key>, n: nat, k: Key)
    requires |t.free| == Groups(c)
    requires Ledger(c, t, multiset{}) && GrownBy(c, s, t, keys, n)
    requires k !in t.entries && k.group < Groups(c) && t.free[k.group] != []
    ensures PoolSizes(c, t) && t.free[k.group][0] < c.numBlocks
    ensures Ledger(c, Recorded(c, t, k, n), multiset{}) && GrownBy(c, s, Recorded(c, t, k, n), keys + {k}, n)
  {
    RecordLedger(c, t, n, k);
    hide Ledger, GrownBy;
    RecordGrown(c, s, t, keys, n, k);
  }

  lemma NothingGrown(c: Config, s: State, n: nat)
    requires Ledger(c, s, multiset{})
    ensures GrownBy(c, s, s, KeySet([]), n)
  {
    assert KeySet([]) == {};
  }

  /** Popping the recorded keys gives the old entries back. */
  lemma GrownKeys(c: Config, s: State, t: State, keys: seq<Key>, n: nat)
    requires GrownBy(c, s, t, KeySet(keys), n)
    ensures t.entries - KeySet(keys) == s.entries
    ensures t.temps == s.temps && t.lens == s.lens && t.evicted == s.evicted
  {
    hide Fresh;
  }

  lemma LedgerGroups(c: Config, s: State, x: multiset<(nat, nat)>)
    requires Ledger(c, s, x)
    ensures |s.free| == |s.refs| == Groups(c)
  {
  }

  lemma UnchangedSelf(s: State)
    ensures Unchanged(s, s)
  {
  }

  /** With the maps back in place the pools are too. */
  lemma RolledBack(c: Config, s: State, t: State)
    requires Ledger(c, s, multiset{}) && Ledger(c, t, multiset{})
    requires t.entries == s.entries && t.temps == s.temps && t.lens == s.lens && t.evicted == s.evicted
    ensures Unchanged(s, t)
  {
    MapsDeterminePools(c, s, t);
    assert PoolSizes(c, s) && PoolSizes(c, t);
    hide Ledger;
  }

  lemma InvPools(c: Config, s: State)
    requires Inv(c, s)
    ensures Ledger(c, s, multiset{})
    ensures PoolSizes(c, s) && InRange(c, s.entries) && InRange(c, s.temps)
  {
    hide TablesOk, TempsOk;
  }

  /** A sequence that is not live owns no entry of either kind. */
  lemma NoKeys(c: Config, s: State, id: int)
    requires Inv(c, s) && id !in s.lens
    ensures forall k :: k in s.entries || k in s.temps ==> k.seqId != id
  {
    hide Ledger;
  }

  /** The invariant reads the tables, and the pools only through the ledger. */
  lemma UnchangedInv(c: Config, s: State, t: State)
    requires Inv(c, s) && Ledger(c, t, multiset{}) && Unchanged(s, t)
    ensures Inv(c, t)
  {
    hide Ledger;
  }

  /** The arguments allocate_sequence_with_evicted_prefix accepts. */
  ghost predicate AllocArgsOk(c: Config, s: State, id: int, numTokens: int, numEvicted: int) {
    && id !in s.lens && numTokens > 0
    && numEvicted >= 0 && Aligned(c, numEvicted)
    && WholeBlocks(c, numEvicted) <= NumBlocks(c, numTokens)
  }

  ghost predicate CanAllocate(c: Config, s: State, id: int, numTokens: int, numEvicted: int)
    requires |s.free| == Groups(c)
  {
    && AllocArgsOk(c, s, id, numTokens, numEvicted)
    && forall g :: 0 <= g < Groups(c) ==> |s.free[g]| >= NumBlocks(c, numTokens) - WholeBlocks(c, numEvicted)
  }

  /** Sequence id now has n tokens, its first p blocks evicted and the others on fresh blocks. */
  ghost predicate Allocated(c: Config, s: State, t: State, id: int, n: nat, p: nat) {
    && t.lens == s.lens[id := n] && t.evicted == s.evicted[id := p]
    && GrownBy(c, s, t.(lens := s.lens, evicted := s.evicted), Span(c, id, p, NumBlocks(c, n)), n)
    && |s.free| == |t.free| == Groups(c)
    && forall g :: 0 <= g < Groups(c) ==> NumBlocks(c, n) - p <= |s.free[g]| && p <= NumBlocks(c, n)
                                          && t.free[g] == s.free[g][NumBlocks(c, n) - p..]
  }

  lemma AllocatedTables(c: Config, s: State, t: State, id: int, n: nat, p: nat)
    requires TablesOk(c, s) && id !in s.lens && n > 0 && p <= NumBlocks(c, n)
    requires t.lens == s.lens[id := n] && t.evicted == s.evicted[id := p]
    requires EntriesGrown(c, s, t.(lens := s.lens, evicted := s.evicted), Span(c, id, p, NumBlocks(c, n)), n)
    ensures TablesOk(c, t)
  {
    var span := Span(c, id, p, NumBlocks(c, n));
    forall k ensures k in t.entries <==> Retained(c, t, k) {
      assert k in span <==> k.seqId == id && p <= k.block < NumBlocks(c, n) && k.group < Groups(c);
      assert k in s.entries <==> Retained(c, s, k);
    }
  }

  lemma AllocatedInv(c: Config, s: State, u: State, id: int, n: nat, p: nat)
    requires Inv(c, s) && id !in s.lens && n > 0 && p <= NumBlocks(c, n)
    requires GrownBy(c, s, u, Span(c, id, p, NumBlocks(c, n)), n) && Ledger(c, u, multiset{})
    requires |s.free| == |u.free| == Groups(c)
    requires forall g :: 0 <= g < Groups(c) ==>
               |s.free[g]| >= NumBlocks(c, n) - p && u.free[g] == s.free[g][NumBlocks(c, n) - p..]
    ensures var t := u.(lens := s.lens[id := n], evicted := s.evicted[id := p]);
            Inv(c, t) && Allocated(c, s, t, id, n, p)
  {
    var t := u.(lens := s.lens[id := n], evicted := s.evicted[id := p]);
    assert Allocated(c, s, t, id, n, p) by {
      hide Inv, Ledger, GrownBy, NumBlocks, Groups, Span;
      assert GrownBy(c, s, u, Span(c, id, p, NumBlocks(c, n)), n) && u.lens == s.lens && u.evicted == s.evicted by {
        GrownFrame(c, s, u, Span(c, id, p, NumBlocks(c, n)), n);
      }
      assert t.(lens := s.lens, evicted := s.evicted) == u;
    }
    assert Inv(c, t) by {
      hide Allocated;
      AllocatedKeepsInv(c, s, u, id, n, p);
    }
  }

  lemma GrownFrame(c: Config, s: State, t: State, keys: set<Key>, n: nat)
    requires GrownBy(c, s, t, keys, n)
    ensures t.lens == s.lens && t.evicted == s.evicted
  {
    hide Fresh;
  }

  lemma AllocatedKeepsInv(c: Config, s: State, u: State, id: int, n: nat, p: nat)
    requires Inv(c, s) && id !in s.lens && n > 0 && p <= NumBlocks(c, n)
    requires GrownBy(c, s, u, Span(c, id, p, NumBlocks(c, n)), n) && Ledger(c, u, multiset{})
    ensures Inv(c, u.(lens := s.lens[id := n], evicted := s.evicted[id := p]))
  {
    var t := u.(lens := s.lens[id := n], evicted := s.evicted[id := p]);
    assert t.(lens := s.lens, evicted := s.evicted) == u by { GrownFrame(c, s, u, Span(c, id, p, NumBlocks(c, n)), n); }
    hide Ledger, Fresh;
    LedgerFrame(c, u, multiset{}, t.lens, t.evicted);
    AllocatedTables(c, s, t, id, n, p) by { hide TempsOk; }
    assert TempsOk(c, t) by { hide TablesOk; assert s.lens.Keys == s.evicted.Keys by { assert TablesOk(c, s); } }
  }
}
