/**
 Temporary prefix blocks, block tables and slot mappings: what one layer group
 sees while its evicted prefixes are recomputed.
 */
module KVRecompute {
  import opened KVState
  import opened KVSpec
  import opened KVAppend
  import opened KVSharing

  datatype Plan = Plan(recomputeSlots: seq<nat>, decodeSlots: seq<nat>, decodeTables: seq<seq<nat>>)

  // ---------------------------------------------------------------- leases

  /** The whole evicted prefix of one sequence now sits on fresh temporary blocks of one group. */
  ghost predicate Leased(c: Config, s: State, t: State, id: int, g: nat) {
    && id in s.evicted && g < Groups(c)
    && t.entries == s.entries && t.lens == s.lens && t.evicted == s.evicted
    && TempsGrown(c, s, t, id, g, s.evicted[id])
    && |s.free| == |t.free| == Groups(c)
    && s.evicted[id] <= |s.free[g]|
    && t.free == s.free[g := s.free[g][s.evicted[id]..]]
  }

  /** The first n prefix blocks are recorded as temporaries; older temporaries are untouched. */
  ghost predicate TempsGrown(c: Config, s: State, t: State, id: int, g: nat, n: nat) {
    && t.temps.Keys == s.temps.Keys + Cells(id, 0, n, g, g + 1)
    && s.temps.Keys !! Cells(id, 0, n, g, g + 1)
    && (forall k :: k in s.temps ==> t.temps[k] == s.temps[k])
    && (forall k :: k in Cells(id, 0, n, g, g + 1) ==>
          k in t.temps && t.temps[k] == TemporaryEntry(c, k, t.temps[k].phys))
    && Fresh(c, s, t, t.temps, Cells(id, 0, n, g, g + 1))
  }

  /** begin_recompute returns, rather than raising, exactly in these states. */
  ghost predicate CanBegin(c: Config, s: State, id: int, g: int) {
    && 0 <= g < Groups(c) && id in s.evicted && |s.free| == Groups(c)
    && (s.evicted[id] > 0 ==> KeysOf(s.temps, id) == {} && |s.free[g]| >= s.evicted[id])
  }

  ghost function RecordedTemp(c: Config, t: State, k: Key): State
    requires k.group < |t.free| && k.group < |t.refs| && t.free[k.group] != [] && t.free[k.group][0] < |t.refs[k.group]|
  {
    Popped(t, k.group).(temps := t.temps[k := TemporaryEntry(c, k, t.free[k.group][0])])
  }

  lemma NoTempsGrown(c: Config, s: State, id: int, g: nat)
    requires Ledger(c, s, multiset{})
    ensures TempsGrown(c, s, s, id, g, 0)
  {
    assert Cells(id, 0, 0, g, g + 1) == {};
  }

  lemma TempStep(c: Config, s: State, t: State, id: int, g: nat, n: nat)
    requires |t.free| == Groups(c) && Ledger(c, t, multiset{}) && TempsGrown(c, s, t, id, g, n)
    requires g < Groups(c) && Key(id, n, g) !in s.temps && t.free[g] != []
    ensures PoolSizes(c, t) && t.free[g][0] < c.numBlocks
    ensures Ledger(c, RecordedTemp(c, t, Key(id, n, g)), multiset{})
    ensures TempsGrown(c, s, RecordedTemp(c, t, Key(id, n, g)), id, g, n + 1)
  {
    hide TempsGrown, Ledger;
    TempLedger(c, s, t, id, g, n);
    TempGrow(c, s, t, id, g, n);
  }

  lemma TempLedger(c: Config, s: State, t: State, id: int, g: nat, n: nat)
    requires |t.free| == Groups(c) && Ledger(c, t, multiset{}) && TempsGrown(c, s, t, id, g, n)
    requires g < Groups(c) && Key(id, n, g) !in s.temps && t.free[g] != []
    ensures PoolSizes(c, t) && t.free[g][0] < c.numBlocks && t.refs[g][t.free[g][0]] == 0
    ensures Ledger(c, RecordedTemp(c, t, Key(id, n, g)), multiset{})
  {
    var k := Key(id, n, g);
    hide Ledger, Fresh;
    assert k !in t.temps;
    LedgerSizes(c, t, multiset{});
    LedgerPop(c, t, multiset{}, g);
    AttachTemp(c, Popped(t, g), multiset{}, k, TemporaryEntry(c, k, t.free[g][0]));
  }

  lemma LedgerSizes(c: Config, s: State, x: multiset<(nat, nat)>)
    requires Ledger(c, s, x)
    ensures PoolSizes(c, s)
  {
  }

  lemma TempGrow(c: Config, s: State, t: State, id: int, g: nat, n: nat)
    requires PoolSizes(c, t) && TempsGrown(c, s, t, id, g, n) && g < Groups(c) && Key(id, n, g) !in s.temps
    requires t.free[g] != [] && t.free[g][0] < c.numBlocks && t.refs[g][t.free[g][0]] == 0
    ensures TempsGrown(c, s, RecordedTemp(c, t, Key(id, n, g)), id, g, n + 1)
  {
    var k, e := Key(id, n, g), TemporaryEntry(c, Key(id, n, g), t.free[g][0]);
    CellsColumn(id, n, g);
    FreshStep(c, s, t, t.temps, Cells(id, 0, n, g, g + 1), k, e);
    hide Fresh, PoolSizes;
  }

  lemma CellsColumn(id: int, n: nat, g: nat)
    ensures Cells(id, 0, n + 1, g, g + 1) == Cells(id, 0, n, g, g + 1) + {Key(id, n, g)}
    ensures Key(id, n, g) !in Cells(id, 0, n, g, g + 1)
  {
  }

  lemma LeasedInv(c: Config, s: State, t: State, id: int, g: nat)
    requires Inv(c, s) && Leased(c, s, t, id, g) && Ledger(c, t, multiset{})
    requires s.evicted[id] > 0 ==> KeysOf(s.temps, id) == {}
    ensures Inv(c, t)
  {
    hide Ledger, Fresh, NumBlocks, NumFilled, TablesOk;
    assert TablesOk(c, t) by { TablesFrame(c, s, t); }
    var n := s.evicted[id];
    forall k | k in t.temps
      ensures k.seqId in t.evicted && k.block < t.evicted[k.seqId]
      ensures t.temps[k] == TemporaryEntry(c, k, t.temps[k].phys)
    {
      assert k in s.temps || k in Cells(id, 0, n, g, g + 1);
    }
    forall k, l: nat | k in t.temps && l < t.evicted[k.seqId] ensures Key(k.seqId, l, k.group) in t.temps {
      assert Key(k.seqId, l, k.group) in Cells(id, 0, n, g, g + 1) || k in s.temps;
    }
    forall k, k' | k in t.temps && k' in t.temps && k.seqId == k'.seqId ensures k.group == k'.group {
      assert k.seqId == id && k in s.temps ==> k in KeysOf(s.temps, id);
      assert k'.seqId == id && k' in s.temps ==> k' in KeysOf(s.temps, id);
    }
  }

  lemma TablesFrame(c: Config, s: State, t: State)
    requires TablesOk(c, s) && t.entries == s.entries && t.lens == s.lens && t.evicted == s.evicted
    ensures TablesOk(c, t)
  {
    forall k ensures k in t.entries <==> Retained(c, t, k) {
      assert k in s.entries <==> Retained(c, s, k);
    }
  }

  /** Popping the leased keys gives the old temporaries back. */
  lemma TempsReturned(c: Config, s: State, t: State, id: int, g: nat, n: nat)
    requires TempsGrown(c, s, t, id, g, n)
    ensures t.temps - Cells(id, 0, n, g, g + 1) == s.temps
    ensures Cells(id, 0, n, g, g + 1) <= t.temps.Keys
  {
    hide Fresh;
  }

  ghost function GroupKeysOf(m: map<Key, Entry>, id: int, g: nat): set<Key> {
    set k | k in m && k.seqId == id && k.group == g
  }

  ghost predicate Ended(s: State, t: State, id: int, g: nat) {
    && t.temps == s.temps - GroupKeysOf(s.temps, id, g)
    && t.entries == s.entries && t.lens == s.lens && t.evicted == s.evicted
  }

  lemma EndedInv(c: Config, s: State, t: State, id: int, g: nat)
    requires Inv(c, s) && Ended(s, t, id, g) && Ledger(c, t, multiset{})
    ensures Inv(c, t)
  {
    hide Ledger, NumBlocks, NumFilled, TablesOk;
    TablesFrame(c, s, t);
  }

  // ---------------------------------------------------------------- tables and slots

  /** The physical block that holds a logical block of a sequence in one group. */
  ghost function BlockAt(s: State, id: int, l: nat, g: nat): nat {
    var k := Key(id, l, g);
    if k in s.temps then s.temps[k].phys else if k in s.entries then s.entries[k].phys else 0
  }

  ghost predicate Cached(s: State, id: int, l: nat, g: nat) {
    Key(id, l, g) in s.entries || Key(id, l, g) in s.temps
  }

  /** Blocks lo..hi of a sequence in one group. */
  ghost function Blocks(s: State, id: int, g: nat, lo: nat, hi: nat): seq<nat>
    requires lo <= hi
  {
    seq<nat>(hi - lo, i requires 0 <= i < hi - lo => BlockAt(s, id, lo + i, g))
  }

  ghost function DecodeTable(c: Config, s: State, id: int, g: nat): seq<nat> {
    if id in s.lens then Blocks(s, id, g, 0, NumBlocks(c, s.lens[id])) else []
  }

  /** The slots of consecutive blocks, token by token. */
  ghost function SlotsOf(c: Config, blocks: seq<nat>): seq<nat> {
    if blocks == [] then [] else SlotsOf(c, blocks[..|blocks| - 1]) + BlockSlots(c, blocks[|blocks| - 1])
  }

  function BlockSlots(c: Config, b: nat): seq<nat> {
    seq<nat>(c.blockSize, i requires 0 <= i < c.blockSize => b * c.blockSize + i)
  }

  /** Token o of the i-th block sits at the slot paged attention computes for it. */
  lemma {:induction false} SlotOfToken(c: Config, blocks: seq<nat>, i: nat, o: nat)
    requires i < |blocks| && o < c.blockSize
    ensures i * c.blockSize + o < |SlotsOf(c, blocks)|
    ensures SlotsOf(c, blocks)[i * c.blockSize + o] == blocks[i] * c.blockSize + o
  {
    var n := |blocks| - 1;
    SlotCount(c, blocks[..n]);
    if i < n {
      SlotOfToken(c, blocks[..n], i, o);
    } else {
      assert SlotsOf(c, blocks)[n * c.blockSize + o] == BlockSlots(c, blocks[n])[o];
    }
  }

  lemma {:induction false} SlotCount(c: Config, blocks: seq<nat>)
    ensures |SlotsOf(c, blocks)| == |blocks| * c.blockSize
  {
    if blocks != [] {
      var n := |blocks| - 1;
      SlotCount(c, blocks[..n]);
      assert |blocks| * c.blockSize == n * c.blockSize + c.blockSize;
    }
  }

  /** The slot of the newest token. */
  ghost function DecodeSlot(c: Config, s: State, id: int, g: nat): nat {
    if id in s.lens && s.lens[id] > 0
    then BlockAt(s, id, (s.lens[id] - 1) / c.blockSize, g) * c.blockSize + (s.lens[id] - 1) % c.blockSize
    else 0
  }

  /** The newest token's block is still a permanent entry. */
  ghost predicate NewestRetained(c: Config, s: State, id: int) {
    id in s.lens && id in s.evicted && s.lens[id] > 0 && s.evicted[id] <= (s.lens[id] - 1) / c.blockSize
  }

  lemma NewestStored(c: Config, s: State, id: int, g: nat)
    requires Inv(c, s) && id in s.lens && g < Groups(c)
    ensures s.lens[id] > 0
    ensures NewestRetained(c, s, id) <==> Key(id, (s.lens[id] - 1) / c.blockSize, g) in s.entries
  {
    hide Ledger, TempsOk, NumBlocks;
    assert s.lens[id] > 0;
    TokenInBlock(c, s.lens[id], s.lens[id] - 1);
    assert Key(id, (s.lens[id] - 1) / c.blockSize, g) in s.entries <==>
           Retained(c, s, Key(id, (s.lens[id] - 1) / c.blockSize, g));
  }

  /** Which logical blocks a live sequence has cached in a group. */
  lemma CachedBlocks(c: Config, s: State, id: int, g: nat, l: nat)
    requires Inv(c, s) && id in s.lens && id in s.evicted && g < Groups(c)
    ensures s.evicted[id] <= NumBlocks(c, s.lens[id])
    ensures Key(id, l, g) in s.entries <==> s.evicted[id] <= l < NumBlocks(c, s.lens[id])
    ensures Key(id, l, g) in s.temps ==> l < s.evicted[id] && forall i: nat :: i < s.evicted[id] ==> Key(id, i, g) in s.temps
  {
    hide Ledger, NumBlocks;
    assert Key(id, l, g) in s.entries <==> Retained(c, s, Key(id, l, g));
  }

  /** The retained blocks of a sequence, or nothing for an unknown one. */
  ghost function RetainedTable(c: Config, s: State, id: int, g: nat): seq<nat> {
    if id in s.lens && id in s.evicted && s.evicted[id] <= NumBlocks(c, s.lens[id])
    then Blocks(s, id, g, s.evicted[id], NumBlocks(c, s.lens[id])) else []
  }

  /** The keys of one sequence in one group are a contiguous range. */
  lemma RetainedRange(c: Config, s: State, id: int, g: nat) returns (lo: nat, hi: nat)
    requires Inv(c, s) && g < Groups(c)
    ensures lo <= hi && GroupKeysOf(s.entries, id, g) == Cells(id, lo, hi, g, g + 1)
    ensures RetainedTable(c, s, id, g) == Blocks(s, id, g, lo, hi)
    ensures forall l :: lo <= l < hi ==> Key(id, l, g) !in s.temps
  {
    hide Ledger, NumBlocks;
    LiveIds(c, s);
    if id in s.lens {
      lo, hi := s.evicted[id], NumBlocks(c, s.lens[id]);
      assert lo <= hi;
    } else {
      lo, hi := 0, 0;
    }
    forall k ensures k in GroupKeysOf(s.entries, id, g) <==> k in Cells(id, lo, hi, g, g + 1) {
      assert k in s.entries <==> Retained(c, s, k);
    }
  }

  /** The lowest cell of a range, and what remains without it. */
  lemma LowestCell(id: int, lo: nat, hi: nat, g: nat)
    requires Cells(id, lo, hi, g, g + 1) != {}
    ensures lo < hi && Key(id, lo, g) in Cells(id, lo, hi, g, g + 1)
    ensures forall k :: k in Cells(id, lo, hi, g, g + 1) ==> lo <= k.block && k == Key(id, k.block, g)
    ensures Cells(id, lo, hi, g, g + 1) - {Key(id, lo, g)} == Cells(id, lo + 1, hi, g, g + 1)
  {
    var k :| k in Cells(id, lo, hi, g, g + 1);
  }

  lemma BlocksSnoc(s: State, id: int, g: nat, lo: nat, hi: nat)
    requires lo <= hi
    ensures Blocks(s, id, g, lo, hi + 1) == Blocks(s, id, g, lo, hi) + [BlockAt(s, id, hi, g)]
  {
  }

  lemma NewestNotTemporary(c: Config, s: State, id: int, g: nat)
    requires Inv(c, s) && NewestRetained(c, s, id) && g < Groups(c)
    ensures Key(id, (s.lens[id] - 1) / c.blockSize, g) in s.entries
    ensures Key(id, (s.lens[id] - 1) / c.blockSize, g) !in s.temps
  {
    NewestStored(c, s, id, g);
    hide Inv, NumBlocks;
    CachedBlocks(c, s, id, g, (s.lens[id] - 1) / c.blockSize);
  }

  lemma SlotsSnoc(c: Config, blocks: seq<nat>, b: nat)
    ensures SlotsOf(c, blocks + [b]) == SlotsOf(c, blocks) + BlockSlots(c, b)
  {
    assert (blocks + [b])[..|blocks|] == blocks;
  }

  lemma NotAmongKeys(m: map<Key, Entry>, id: int, l: nat, g: nat)
    requires KeysOf(m, id) == {}
    ensures Key(id, l, g) !in m
  {
    assert forall k :: k in m && k.seqId == id ==> k in KeysOf(m, id);
  }

  lemma NoBlocks(s: State, id: int, g: nat, lo: nat)
    ensures Blocks(s, id, g, lo, lo) == []
  {
  }

  lemma NoCells(id: int, lo: nat, hi: nat, g: nat)
    ensures lo >= hi ==> Cells(id, lo, hi, g, g + 1) == {}
    ensures Cells(id, lo, hi, g, g + 1) == {} ==> lo >= hi
  {
    if lo < hi { assert Key(id, lo, g) in Cells(id, lo, hi, g, g + 1); }
  }

  lemma CellIn(id: int, l: nat, n: nat, g: nat)
    requires l < n
    ensures Key(id, l, g) in Cells(id, 0, n, g, g + 1)
  {
  }

  lemma NoSlots(c: Config, s: State, id: int, g: nat)
    ensures SlotsOf(c, Blocks(s, id, g, 0, 0)) == []
  {
  }

  /** With nothing evicted the retained table is the whole table. */
  lemma NothingToLease(c: Config, s: State, id: int, g: nat)
    requires Inv(c, s) && id in s.lens && id in s.evicted && s.evicted[id] == 0 && g < Groups(c)
    ensures RetainedTable(c, s, id, g) == DecodeTable(c, s, id, g)
    ensures Leased(c, s, s, id, g)
  {
    InvPools(c, s);
    NoTempsGrown(c, s, id, g);
    hide Inv, Ledger, TempsGrown;
  }

  lemma LeasedByPrefix(c: Config, s: State, t: State, id: int, g: nat)
    requires id in s.evicted && g < Groups(c) && |s.free| == Groups(c)
    requires TempsGrown(c, s, t, id, g, s.evicted[id]) && |s.free[g]| >= s.evicted[id]
    requires t.free == s.free[g := s.free[g][s.evicted[id]..]]
    requires t.entries == s.entries && t.lens == s.lens && t.evicted == s.evicted
    ensures Leased(c, s, t, id, g)
  {
    hide TempsGrown;
  }

  lemma LeasedCaches(c: Config, s: State, t: State, id: int, g: nat)
    requires Inv(c, t) && Leased(c, s, t, id, g) && id in t.lens
    ensures forall l :: 0 <= l < NumBlocks(c, t.lens[id]) ==> Cached(t, id, l, g)
  {
    forall l | 0 <= l < NumBlocks(c, t.lens[id]) ensures Cached(t, id, l, g) {
      LeasedCachesAt(c, s, t, id, g, l);
    }
  }

  lemma LeasedCachesAt(c: Config, s: State, t: State, id: int, g: nat, l: nat)
    requires Inv(c, t) && Leased(c, s, t, id, g) && id in t.lens && l < NumBlocks(c, t.lens[id])
    ensures Cached(t, id, l, g)
  {
    hide Inv, Fresh, NumBlocks;
    LiveIds(c, t);
    CachedBlocks(c, t, id, g, l);
    if l < t.evicted[id] { CellIn(id, l, t.evicted[id], g); }
  }
}
