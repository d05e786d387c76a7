/** Appending one token: a new block, the tail block in place, or a copy-on-write of a shared tail. */
module KVAppend {
  import opened KVState
  import opened KVSpec

  /** Block src of a layer group must be copied to block dst before the next write. */
  datatype Copy = Copy(group: nat, src: nat, dst: nat)

  /** The logical block that receives the next token of a live sequence. */
  ghost function Tail(c: Config, s: State, id: int): nat
    requires id in s.lens
  {
    WholeBlocks(c, s.lens[id])
  }

  ghost function TailKey(c: Config, s: State, id: int, g: nat): Key
    requires id in s.lens
  {
    Key(id, Tail(c, s, id), g)
  }

  /** Appending takes a free block in group g: the tail is full, or other sequences share it. */
  ghost predicate NeedsBlock(c: Config, s: State, id: int, g: nat)
    requires id in s.lens && g < Groups(c) && PoolSizes(c, s) && InRange(c, s.entries)
  {
    || Aligned(c, s.lens[id])
    || (TailKey(c, s, id, g) in s.entries && s.refs[g][s.entries[TailKey(c, s, id, g)].phys] > 1)
  }

  /** The partly filled tail block is still cached, or there is none. */
  ghost predicate TailRetained(c: Config, s: State, id: int) {
    && id in s.lens && id in s.evicted
    && (Aligned(c, s.lens[id]) || s.evicted[id] <= Tail(c, s, id))
  }

  /** append_token returns, rather than raising, exactly in these states. */
  ghost predicate CanAppend(c: Config, s: State, id: int) {
    && TailRetained(c, s, id)
    && PoolSizes(c, s) && InRange(c, s.entries)
    && forall g :: 0 <= g < Groups(c) && NeedsBlock(c, s, id, g) ==> s.free[g] != []
  }

  /** The moves between s and t of one logical block's entries, in group order. */
  ghost function CopyList(s: map<Key, Entry>, t: map<Key, Entry>, id: int, block: nat, g: nat): seq<Copy> {
    if g == 0 then [] else
    var k := Key(id, block, g - 1);
    CopyList(s, t, id, block, g - 1)
    + (if k in s && k in t && s[k].phys != t[k].phys then [Copy(g - 1, s[k].phys, t[k].phys)] else [])
  }

  /** One sequence is a token longer; only its tail entries changed. */
  ghost predicate TailGrown(c: Config, s: State, t: State, id: int)
    requires id in s.lens
  {
    var tail := Tail(c, s, id);
    && t.lens == s.lens[id := s.lens[id] + 1] && t.evicted == s.evicted && t.temps == s.temps
    && t.entries.Keys == s.entries.Keys + Span(c, id, tail, tail + 1)
    && (forall k :: k in s.entries && k !in Span(c, id, tail, tail + 1) ==> t.entries[k] == s.entries[k])
    && (forall k :: k in Span(c, id, tail, tail + 1) ==>
          k in t.entries && t.entries[k] == PermanentEntry(c, k, s.lens[id] + 1, t.entries[k].phys))
  }

  /** Where a block was needed it came off the free deque; elsewhere the tail stayed in place. */
  ghost predicate TailPlaced(c: Config, s: State, t: State, id: int, g: nat)
    requires id in s.lens && PoolSizes(c, s) && InRange(c, s.entries) && PoolSizes(c, t) && InRange(c, t.entries)
    requires g < Groups(c)
  {
    var k := TailKey(c, s, id, g);
    && k in t.entries
    && (if NeedsBlock(c, s, id, g) then
          s.free[g] != [] && t.free[g] == s.free[g][1..]
          && s.refs[g][t.entries[k].phys] == 0 && t.refs[g][t.entries[k].phys] == 1
        else
          k in s.entries && t.entries[k].phys == s.entries[k].phys && t.free[g] == s.free[g])
  }

  ghost predicate Appended(c: Config, s: State, t: State, id: int, copies: seq<Copy>) {
    && id in s.lens && PoolSizes(c, s) && InRange(c, s.entries) && PoolSizes(c, t) && InRange(c, t.entries)
    && TailGrown(c, s, t, id)
    && (forall g :: 0 <= g < Groups(c) ==> TailPlaced(c, s, t, id, g))
    && copies == CopyList(s.entries, t.entries, id, Tail(c, s, id), Groups(c))
  }

  // ---------------------------------------------------------------- the invariant after an append

  lemma TailGrownTables(c: Config, s: State, t: State, id: int)
    requires TablesOk(c, s) && id in s.lens && TailRetained(c, s, id) && TailGrown(c, s, t, id)
    ensures TablesOk(c, t)
  {
    hide NumBlocks, WholeBlocks, Aligned, NumFilled;
    var n, tail := s.lens[id], Tail(c, s, id);
    BlocksOnAppend(c, n);
    forall k ensures k in t.entries <==> Retained(c, t, k) {
      assert k in Span(c, id, tail, tail + 1) <==> k.seqId == id && k.block == tail && k.group < Groups(c);
      assert k in s.entries <==> Retained(c, s, k);
    }
    forall k | k in t.entries
      ensures t.entries[k] == PermanentEntry(c, k, t.lens[k.seqId], t.entries[k].phys)
    {
      if k in s.entries && k.seqId == id { FillOnAppend(c, n, k.block); }
    }
  }

  lemma AppendKeepsInv(c: Config, s: State, t: State, id: int)
    requires Inv(c, s) && id in s.lens && TailRetained(c, s, id) && TailGrown(c, s, t, id)
    requires Ledger(c, t, multiset{})
    ensures Inv(c, t)
  {
    hide Ledger;
    TailGrownTables(c, s, t, id) by { hide TempsOk; }
    hide TablesOk;
  }

  lemma LiveIds(c: Config, s: State)
    requires Inv(c, s)
    ensures s.lens.Keys == s.evicted.Keys
  {
    hide Ledger, TempsOk;
  }

  lemma NotLive(c: Config, s: State, id: int)
    requires id !in s.lens
    ensures !CanAppend(c, s, id) && !TailRetained(c, s, id)
  {
  }

  // ---------------------------------------------------------------- opening a block

  /** With a full tail every stored block of the sequence precedes the new one. */
  lemma OwnBlocks(c: Config, s: State, id: int)
    requires Inv(c, s) && id in s.lens && Aligned(c, s.lens[id])
    ensures forall k :: k in s.entries && k.seqId == id ==> k.block < Tail(c, s, id)
  {
    hide Ledger, TempsOk, NumBlocks, WholeBlocks, Aligned;
    BlocksOnAppend(c, s.lens[id]);
  }

  lemma OpeningNeedsAll(c: Config, s: State, id: int)
    requires Inv(c, s) && id in s.lens && id in s.evicted && PoolSizes(c, s) && InRange(c, s.entries)
    requires Aligned(c, s.lens[id])
    ensures TailRetained(c, s, id)
    ensures CanAppend(c, s, id) <==> forall g :: 0 <= g < Groups(c) ==> |s.free[g]| >= 1
  {
    hide Inv;
    assert forall g :: 0 <= g < Groups(c) ==> NeedsBlock(c, s, id, g);
  }

  /** A full tail: the new block is a plain allocation. */
  lemma OpenedBlock(c: Config, s: State, u: State, id: int)
    requires Inv(c, s) && Ledger(c, u, multiset{})
    requires id in s.lens && Aligned(c, s.lens[id])
    requires GrownBy(c, s, u, Span(c, id, Tail(c, s, id), Tail(c, s, id) + 1), s.lens[id] + 1)
    requires |s.free| == |u.free| == Groups(c)
    requires forall g :: 0 <= g < Groups(c) ==> s.free[g] != [] && u.free[g] == s.free[g][1..]
    ensures var t := u.(lens := s.lens[id := s.lens[id] + 1]);
            Inv(c, t) && Appended(c, s, t, id, [])
  {
    var n, tail := s.lens[id], Tail(c, s, id);
    var t := u.(lens := s.lens[id := n + 1]);
    OpenedInv(c, s, u, id);
    hide Inv, Ledger, GrownBy, TailGrown, Aligned, WholeBlocks;
    forall g | 0 <= g < Groups(c) ensures TailPlaced(c, s, t, id, g) { OpenedPlace(c, s, u, id, g); }
    hide TailPlaced;
    forall g | 0 <= g < Groups(c) ensures Key(id, tail, g) !in s.entries { FullTailNotStored(c, s, id, g); }
    NoCopies(c, s.entries, t.entries, id, tail, Groups(c));
  }

  lemma OpenedInv(c: Config, s: State, u: State, id: int)
    requires Inv(c, s) && Ledger(c, u, multiset{})
    requires id in s.lens && Aligned(c, s.lens[id])
    requires GrownBy(c, s, u, Span(c, id, Tail(c, s, id), Tail(c, s, id) + 1), s.lens[id] + 1)
    ensures var t := u.(lens := s.lens[id := s.lens[id] + 1]);
            && TailGrown(c, s, t, id) && Inv(c, t)
            && PoolSizes(c, s) && PoolSizes(c, t) && InRange(c, s.entries) && InRange(c, t.entries)
  {
    hide NumBlocks, WholeBlocks, Aligned, NumFilled;
    var t := u.(lens := s.lens[id := s.lens[id] + 1]);
    assert TailGrown(c, s, t, id) by { hide Fresh, Inv, Ledger; }
    hide GrownBy, TailGrown, Ledger, Inv;
    assert t == u.(lens := t.lens, evicted := u.evicted);
    LedgerFrame(c, u, multiset{}, t.lens, u.evicted);
    AppendKeepsInv(c, s, t, id);
    InvPools(c, s);
    InvPools(c, t);
  }

  lemma FullTailNotStored(c: Config, s: State, id: int, g: nat)
    requires Inv(c, s) && id in s.lens && Aligned(c, s.lens[id])
    ensures TailKey(c, s, id, g) !in s.entries
  {
    hide Ledger, TempsOk, NumBlocks, WholeBlocks, Aligned;
    BlocksOnAppend(c, s.lens[id]);
  }

  lemma OpenedPlace(c: Config, s: State, u: State, id: int, g: nat)
    requires id in s.lens && Aligned(c, s.lens[id]) && g < Groups(c)
    requires PoolSizes(c, s) && PoolSizes(c, u) && InRange(c, s.entries) && InRange(c, u.entries)
    requires GrownBy(c, s, u, Span(c, id, Tail(c, s, id), Tail(c, s, id) + 1), s.lens[id] + 1)
    requires s.free[g] != [] && u.free[g] == s.free[g][1..]
    ensures TailPlaced(c, s, u.(lens := s.lens[id := s.lens[id] + 1]), id, g)
  {
    hide EntriesGrown;
    assert TailKey(c, s, id, g) in Span(c, id, Tail(c, s, id), Tail(c, s, id) + 1);
  }

  lemma {:induction false} NoCopies(c: Config, s: map<Key, Entry>, t: map<Key, Entry>, id: int, block: nat, g: nat)
    requires forall h :: 0 <= h < g ==> Key(id, block, h) !in s
    ensures CopyList(s, t, id, block, g) == []
  {
    if g > 0 { NoCopies(c, s, t, id, block, g - 1); }
  }

  // ---------------------------------------------------------------- copy-on-write

  /** The blocks taken for copies and not yet recorded in an entry. */
  ghost function Pairs(cow: map<nat, nat>): set<(nat, nat)> {
    set g | g in cow :: (g, cow[g])
  }

  ghost function Held(cow: map<nat, nat>): multiset<(nat, nat)> {
    multiset(Pairs(cow))
  }

  lemma InPairs(cow: map<nat, nat>, p: (nat, nat))
    ensures p in Pairs(cow) <==> p.0 in cow && p.1 == cow[p.0]
  {
  }

  lemma HeldAdd(cow: map<nat, nat>, g: nat, b: nat)
    requires g !in cow
    ensures Held(cow[g := b]) == Held(cow) + multiset{(g, b)}
  {
    assert Pairs(cow[g := b]) == Pairs(cow) + {(g, b)} by {
      forall p ensures p in Pairs(cow[g := b]) <==> p in Pairs(cow) + {(g, b)} {
        InPairs(cow[g := b], p);
        InPairs(cow, p);
      }
    }
    InPairs(cow, (g, b));
    hide Pairs;
  }

  lemma HeldRemove(cow: map<nat, nat>, g: nat)
    requires g in cow
    ensures Held(cow) == Held(cow - {g}) + multiset{(g, cow[g])}
  {
    HeldAdd(cow - {g}, g, cow[g]);
    assert (cow - {g})[g := cow[g]] == cow;
  }

  /** t is s with the head of each of cow's groups taken. */
  ghost predicate CowTaken(c: Config, s: State, t: State, cow: map<nat, nat>) {
    && PoolSizes(c, s) && PoolSizes(c, t)
    && t.entries == s.entries && t.temps == s.temps && t.lens == s.lens && t.evicted == s.evicted
    && (forall g :: g in cow ==> g < Groups(c))
    && (forall g :: 0 <= g < Groups(c) ==>
          if g in cow then
            && s.free[g] != [] && cow[g] == s.free[g][0] < c.numBlocks && s.refs[g][cow[g]] == 0
            && t.free[g] == s.free[g][1..] && t.refs[g] == s.refs[g][cow[g] := 1]
          else t.free[g] == s.free[g] && t.refs[g] == s.refs[g])
  }

  lemma CowTakenStep(c: Config, s: State, t: State, cow: map<nat, nat>, g: nat)
    requires CowTaken(c, s, t, cow) && g !in cow && g < Groups(c)
    requires t.free[g] != [] && t.free[g][0] < c.numBlocks && t.refs[g][t.free[g][0]] == 0
    ensures CowTaken(c, s, Popped(t, g), cow[g := t.free[g][0]])
  {
    var u := Popped(t, g);
    assert PoolSizes(c, u);
  }

  /** Entry e after its tail gained a token, moved if its group took a copy. */
  ghost function Bumped(e: Entry, cow: map<nat, nat>, g: nat): Entry {
    e.(phys := if g in cow then cow[g] else e.phys, numFilled := e.numFilled + 1)
  }

  /** The entries when the groups below g have been committed. */
  ghost predicate Committed(s: map<Key, Entry>, t: map<Key, Entry>, cow: map<nat, nat>, id: int, block: nat, g: nat) {
    && t.Keys == s.Keys
    && forall k :: k in s ==>
         t[k] == if k.seqId == id && k.block == block && k.group < g then Bumped(s[k], cow, k.group) else s[k]
  }

  ghost function CowCopies(s: map<Key, Entry>, cow: map<nat, nat>, id: int, block: nat, g: nat): seq<Copy> {
    if g == 0 then [] else
    var k := Key(id, block, g - 1);
    CowCopies(s, cow, id, block, g - 1)
    + (if k in s && g - 1 in cow then [Copy(g - 1, s[k].phys, cow[g - 1])] else [])
  }

  lemma {:induction false} CowCopiesAreMoves(s: map<Key, Entry>, t: map<Key, Entry>, cow: map<nat, nat>,
                                             id: int, block: nat, top: nat, g: nat)
    requires Committed(s, t, cow, id, block, top) && g <= top
    requires forall h :: h in cow && Key(id, block, h) in s ==> cow[h] != s[Key(id, block, h)].phys
    ensures CowCopies(s, cow, id, block, g) == CopyList(s, t, id, block, g)
  {
    if g > 0 { CowCopiesAreMoves(s, t, cow, id, block, top, g - 1); }
  }

  /** Which groups copy: those whose tail block has a second reference. */
  ghost predicate CowGroups(c: Config, s: State, cow: map<nat, nat>, id: int, block: nat, g: nat)
    requires PoolSizes(c, s) && InRange(c, s.entries)
  {
    forall h :: 0 <= h < g && h < Groups(c) ==>
      && Key(id, block, h) in s.entries
      && (h in cow <==> s.refs[h][s.entries[Key(id, block, h)].phys] > 1)
  }

  lemma InSpan(c: Config, id: int, block: nat, k: Key)
    ensures k in Span(c, id, block, block + 1) <==> k.seqId == id && k.block == block && k.group < Groups(c)
  {
  }

  lemma CommittedTail(c: Config, s: State, t: State, cow: map<nat, nat>, id: int)
    requires TablesOk(c, s) && id in s.lens && !Aligned(c, s.lens[id]) && TailRetained(c, s, id)
    requires Committed(s.entries, t.entries, cow, id, Tail(c, s, id), Groups(c))
    requires t.lens == s.lens[id := s.lens[id] + 1] && t.evicted == s.evicted && t.temps == s.temps
    ensures TailGrown(c, s, t, id)
  {
    hide NumBlocks, WholeBlocks, Aligned, NumFilled;
    var n, tail := s.lens[id], Tail(c, s, id);
    BlocksOnAppend(c, n);
    FillOnAppend(c, n, tail);
    forall k | k in Span(c, id, tail, tail + 1)
      ensures k in s.entries && t.entries[k] == PermanentEntry(c, k, n + 1, t.entries[k].phys)
    {
      assert Retained(c, s, k);
    }
    assert Span(c, id, tail, tail + 1) <= s.entries.Keys;
    forall k | k in s.entries && k !in Span(c, id, tail, tail + 1) ensures t.entries[k] == s.entries[k] {
      assert Retained(c, s, k);
      InSpan(c, id, tail, k);
    }
  }

  lemma HeldNothing()
    ensures Held(map[]) == multiset{}
  {
    assert Pairs(map[]) == {} by { forall p ensures p !in Pairs(map[]) { InPairs(map[], p); } }
  }

  lemma NothingTaken(c: Config, s: State, id: int, block: nat)
    requires PoolSizes(c, s) && InRange(c, s.entries) && Ledger(c, s, multiset{})
    ensures CowTaken(c, s, s, map[]) && CowGroups(c, s, map[], id, block, 0) && Ledger(c, s, Held(map[]))
  {
    HeldNothing();
    hide Ledger, Held;
  }

  lemma NothingCommitted(s: map<Key, Entry>, cow: map<nat, nat>, id: int, block: nat)
    ensures Committed(s, s, cow, id, block, 0)
  {
  }

  /** Copy-on-write cannot take its block in the key's group. */
  ghost predicate CowStuck(c: Config, s: State, k: Key)
    requires PoolSizes(c, s) && InRange(c, s.entries) && k.group < Groups(c)
  {
    k !in s.entries || (s.refs[k.group][s.entries[k].phys] > 1 && s.free[k.group] == [])
  }

  lemma InRangeAt(c: Config, m: map<Key, Entry>, k: Key)
    requires InRange(c, m) && k in m
    ensures k.group < Groups(c) && m[k].phys < c.numBlocks
  {
  }

  /** Taking blocks changes nothing but the pools. */
  lemma CowFrame(c: Config, s: State, t: State, cow: map<nat, nat>)
    requires CowTaken(c, s, t, cow)
    ensures PoolSizes(c, t)
    ensures t.entries == s.entries && t.temps == s.temps && t.lens == s.lens && t.evicted == s.evicted
    ensures forall g :: g in cow ==> g < Groups(c) && cow[g] < c.numBlocks
  {
  }

  lemma CowFrameAt(c: Config, s: State, t: State, cow: map<nat, nat>, g: nat)
    requires CowTaken(c, s, t, cow) && g < Groups(c)
    ensures PoolSizes(c, s) && PoolSizes(c, t)
    ensures g !in cow ==> t.free[g] == s.free[g] && t.refs[g] == s.refs[g]
    ensures g in cow ==> cow[g] < c.numBlocks && s.refs[g][cow[g]] == 0 && t.refs[g] == s.refs[g][cow[g] := 1]
  {
  }

  lemma PoppedWasFree(c: Config, s: State, x: multiset<(nat, nat)>, g: nat)
    requires Ledger(c, s, x) && g < Groups(c) && s.free[g] != []
    ensures s.free[g][0] < c.numBlocks && s.refs[g][s.free[g][0]] == 0
  {
    LedgerPop(c, s, x, g);
  }

  lemma CowGroupsStep(c: Config, s: State, cow: map<nat, nat>, cow': map<nat, nat>, id: int, block: nat, g: nat)
    requires PoolSizes(c, s) && InRange(c, s.entries) && g < Groups(c)
    requires CowGroups(c, s, cow, id, block, g) && Key(id, block, g) in s.entries
    requires forall h :: h != g ==> (h in cow' <==> h in cow)
    requires g in cow' <==> s.refs[g][s.entries[Key(id, block, g)].phys] > 1
    ensures CowGroups(c, s, cow', id, block, g + 1)
  {
  }

  lemma CowGroupsAt(c: Config, s: State, cow: map<nat, nat>, id: int, block: nat, g: nat)
    requires PoolSizes(c, s) && InRange(c, s.entries) && g < Groups(c)
    requires CowGroups(c, s, cow, id, block, Groups(c))
    ensures Key(id, block, g) in s.entries && s.entries[Key(id, block, g)].phys < c.numBlocks
    ensures g in cow <==> s.refs[g][s.entries[Key(id, block, g)].phys] > 1
  {
  }

  lemma CommittedAt(s: map<Key, Entry>, t: map<Key, Entry>, cow: map<nat, nat>, id: int, block: nat, g: nat)
    requires Committed(s, t, cow, id, block, g) && Key(id, block, g) in s
    ensures Key(id, block, g) in t && t[Key(id, block, g)] == s[Key(id, block, g)]
  {
  }

  lemma CommittedStep(s: map<Key, Entry>, t: map<Key, Entry>, cow: map<nat, nat>, id: int, block: nat, g: nat)
    requires Committed(s, t, cow, id, block, g) && Key(id, block, g) in s
    ensures Committed(s, t[Key(id, block, g) := Bumped(s[Key(id, block, g)], cow, g)], cow, id, block, g + 1)
  {
  }

  /** A group in which the tail is gone, or shared with no block to spare, stops the append. */
  lemma CannotAppendTail(c: Config, s: State, id: int, cow: map<nat, nat>, g: nat)
    requires Inv(c, s) && PoolSizes(c, s) && InRange(c, s.entries) && id in s.lens && id in s.evicted
    requires !Aligned(c, s.lens[id]) && g < Groups(c) && CowStuck(c, s, TailKey(c, s, id, g))
    ensures !CanAppend(c, s, id)
    ensures TailRetained(c, s, id) <==> TailKey(c, s, id, g) in s.entries
  {
    TailStored(c, s, id, g);
    hide Inv;
  }

  lemma TailStored(c: Config, s: State, id: int, g: nat)
    requires Inv(c, s) && id in s.lens && id in s.evicted && !Aligned(c, s.lens[id]) && g < Groups(c)
    ensures TailRetained(c, s, id) <==> TailKey(c, s, id, g) in s.entries
  {
    hide Ledger, TempsOk, NumBlocks, WholeBlocks, Aligned;
    BlocksOnAppend(c, s.lens[id]);
  }

  lemma AllCowTaken(c: Config, s: State, t: State, id: int, cow: map<nat, nat>)
    requires Inv(c, s) && PoolSizes(c, s) && InRange(c, s.entries) && id in s.lens && id in s.evicted
    requires !Aligned(c, s.lens[id]) && CowTaken(c, s, t, cow)
    requires CowGroups(c, s, cow, id, Tail(c, s, id), Groups(c))
    ensures CanAppend(c, s, id) && TailRetained(c, s, id)
  {
    CeilDivBounds(c.numLayers, c.groupSize);
    TailStored(c, s, id, 0);
    hide Inv, Groups;
  }

  /** u after taking, t after committing: the append happened. */
  lemma CowAppended(c: Config, s: State, u: State, t: State, cow: map<nat, nat>, id: int)
    requires Inv(c, s) && Ledger(c, t, multiset{}) && PoolSizes(c, s) && InRange(c, s.entries)
    requires id in s.lens && !Aligned(c, s.lens[id]) && TailRetained(c, s, id)
    requires CowTaken(c, s, u, cow) && CowGroups(c, s, cow, id, Tail(c, s, id), Groups(c))
    requires Committed(s.entries, t.entries, cow, id, Tail(c, s, id), Groups(c))
    requires t.lens == s.lens[id := s.lens[id] + 1] && t.evicted == s.evicted && t.temps == s.temps
    requires t.free == u.free && PoolSizes(c, t)
    requires forall g :: g in cow && g < Groups(c) ==> cow[g] < c.numBlocks && t.refs[g][cow[g]] == 1
    ensures Inv(c, t)
    ensures Appended(c, s, t, id, CowCopies(s.entries, cow, id, Tail(c, s, id), Groups(c)))
  {
    var tail := Tail(c, s, id);
    CommittedTail(c, s, t, cow, id) by { hide Ledger, TempsOk, CowTaken, CowGroups, Committed; }
    AppendKeepsInv(c, s, t, id) by { hide Ledger, TablesOk, TempsOk, CowTaken, CowGroups, Committed, TailGrown; }
    assert InRange(c, t.entries) by { hide Inv, CowTaken, CowGroups, Committed, TailGrown; }
    hide Inv, Ledger, TailGrown;
    forall g | 0 <= g < Groups(c) ensures TailPlaced(c, s, t, id, g) {
      hide *;
      TailPlacedByCow(c, s, u, t, cow, id, g);
    }
    assert forall h :: h in cow && Key(id, tail, h) in s.entries ==> cow[h] != s.entries[Key(id, tail, h)].phys;
    hide CowTaken, CowGroups, TailPlaced;
    CowCopiesAreMoves(s.entries, t.entries, cow, id, tail, Groups(c), Groups(c));
  }

  lemma TailPlacedByCow(c: Config, s: State, u: State, t: State, cow: map<nat, nat>, id: int, g: nat)
    requires PoolSizes(c, s) && InRange(c, s.entries) && PoolSizes(c, t) && InRange(c, t.entries) && g < Groups(c)
    requires id in s.lens && !Aligned(c, s.lens[id])
    requires CowTaken(c, s, u, cow) && CowGroups(c, s, cow, id, Tail(c, s, id), Groups(c))
    requires Committed(s.entries, t.entries, cow, id, Tail(c, s, id), Groups(c))
    requires t.free == u.free
    requires g in cow ==> cow[g] < c.numBlocks && t.refs[g][cow[g]] == 1
    ensures TailPlaced(c, s, t, id, g)
  {
    var k := TailKey(c, s, id, g);
    assert k in s.entries && k in t.entries;
    assert t.entries[k] == Bumped(s.entries[k], cow, g);
  }
}
