/**
 The hash-indexed block allocator with its least-recently-used evictor. A block object is
 its entry in the allocator's list of created blocks, and a reference to it is its number.
 */
module CachedAllocator {
  import opened Results
  import opened Evictors

  datatype Block = Block(blockHash: int, numHashedTokens: int, refCount: nat, lastAccessed: real, computed: bool)

  const DEFAULT_LAST_ACCESSED_TIME := -1.0

  /** The created blocks, the cached ones by hash, and the free ones by hash in insertion order. */
  datatype Pool = Pool(blocks: seq<Block>, cached: map<int, nat>, order: seq<int>, free: map<int, nat>)

  /** A block is referenced and cached, or unreferenced and with the evictor, under its own hash. */
  ghost predicate Placed(p: Pool, b: nat)
    requires b < |p.blocks|
  {
    var h := p.blocks[b].blockHash;
    if p.blocks[b].refCount > 0 then h in p.cached && p.cached[h] == b else h in p.free && p.free[h] == b
  }

  ghost predicate CachedOk(p: Pool) {
    forall h :: h in p.cached ==>
      p.cached[h] < |p.blocks| && p.blocks[p.cached[h]].blockHash == h && p.blocks[p.cached[h]].refCount > 0
  }

  ghost predicate FreeOk(p: Pool) {
    forall h :: h in p.free ==>
      p.free[h] < |p.blocks| && p.blocks[p.free[h]].blockHash == h && p.blocks[p.free[h]].refCount == 0
  }

  /** Every created block is in exactly one of the two tables, keyed by its own hash; the keys are disjoint. */
  ghost predicate PoolOk(p: Pool) {
    && (forall b :: 0 <= b < |p.blocks| ==> Placed(p, b))
    && CachedOk(p) && FreeOk(p) && OrderedKeys(p.order, p.free)
    && p.cached.Keys !! p.free.Keys
    && |p.cached| + |p.order| == |p.blocks|
  }

  ghost predicate Held(p: Pool, h: int) {
    h in p.cached || h in p.free
  }

  ghost function Metas(blocks: seq<Block>, order: seq<int>, free: map<int, nat>): seq<Meta> {
    seq(|order|, i requires 0 <= i < |order| =>
      if order[i] in free && free[order[i]] < |blocks|
      then Meta(blocks[free[order[i]]].lastAccessed, blocks[free[order[i]]].numHashedTokens) else Meta(0.0, 0))
  }

  /** The order of an ordered dictionary without its v-th key. */
  function Dropped(order: seq<int>, v: nat): seq<int>
    requires v < |order|
  {
    order[..v] + order[v + 1..]
  }

  // ---------------------------------------------------------------- what each operation does

  /** A freed block comes back. */
  ghost predicate Revived(p: Pool, q: Pool, h: int) {
    && h in p.free && p.free[h] < |p.blocks|
    && q.blocks == p.blocks[p.free[h] := p.blocks[p.free[h]].(refCount := p.blocks[p.free[h]].refCount + 1)]
    && q.cached == p.cached[h := p.free[h]] && q.free == p.free - {h}
    && exists v :: 0 <= v < |p.order| && p.order[v] == h && q.order == Dropped(p.order, v)
  }

  /** A cached block gets one more reference. */
  ghost predicate SharedBlock(p: Pool, q: Pool, h: int) {
    && h in p.cached && p.cached[h] < |p.blocks|
    && q == p.(blocks := p.blocks[p.cached[h] := p.blocks[p.cached[h]].(refCount := p.blocks[p.cached[h]].refCount + 1)])
  }

  /** A block that was never used, for a new hash. */
  ghost predicate Created(p: Pool, q: Pool, h: int, tokens: int) {
    && q == p.(blocks := p.blocks + [Block(h, tokens, 1, DEFAULT_LAST_ACCESSED_TIME, false)], cached := p.cached[h := |p.blocks|])
  }

  /** The evictor's victim, under its new hash. */
  ghost predicate Recycled(p: Pool, q: Pool, h: int, tokens: int) {
    && p.order != []
    && var v := EarlyScan(Metas(p.blocks, p.order, p.free), 1, 0);
       && p.order[v] in p.free && p.free[p.order[v]] < |p.blocks|
       && var b := p.free[p.order[v]];
          && q.blocks == p.blocks[b := p.blocks[b].(blockHash := h, numHashedTokens := tokens, refCount := p.blocks[b].refCount + 1, computed := false)]
          && q.cached == p.cached[h := b] && q.order == Dropped(p.order, v) && q.free == p.free - {p.order[v]}
  }

  /** The last reference of a block was dropped. */
  ghost predicate Retired(p: Pool, q: Pool, b: nat)
    requires b < |p.blocks|
  {
    var h := p.blocks[b].blockHash;
    && q.blocks == p.blocks[b := p.blocks[b].(refCount := 0)] && q.cached == p.cached - {h}
    && q.order == p.order + [h] && q.free == p.free[h := b]
  }

  /** A referenced block moves to another hash. */
  ghost predicate Rehashed(p: Pool, q: Pool, b: nat, h: int)
    requires b < |p.blocks|
  {
    q == p.(blocks := p.blocks[b := p.blocks[b].(blockHash := h)], cached := (p.cached - {p.blocks[b].blockHash})[h := b])
  }

  /** Block b, possibly a new one, has one more reference than before; all others are as they were. */
  ghost predicate OneReferenceMore(before: seq<Block>, now: seq<Block>, b: nat) {
    && b < |now| && |before| <= |now| <= |before| + 1 && (|now| > |before| ==> b == |before|)
    && now[b].refCount == (if b < |before| then before[b].refCount else 0) + 1
    && forall d :: 0 <= d < |before| && d != b ==> now[d] == before[d]
  }

  /** Each of the four ways to a block takes just one reference to it. */
  lemma TakesOneReference(p: Pool, q: Pool, h: int, tokens: int, n: nat)
    requires PoolOk(p) && |p.blocks| <= n
    requires h in p.free ==> Revived(p, q, h)
    requires h in p.cached ==> SharedBlock(p, q, h)
    requires !Held(p, h) ==> if |p.blocks| < n then Created(p, q, h, tokens) else Recycled(p, q, h, tokens)
    ensures h in q.cached && OneReferenceMore(p.blocks, q.blocks, q.cached[h])
  {
    hide OrderedKeys, EarlyScan, Dropped, Metas;
  }

  lemma DroppedKey(order: seq<int>, free: map<int, nat>, v: nat)
    requires OrderedKeys(order, free) && v < |order|
    ensures order[v] in free && OrderedKeys(Dropped(order, v), free - {order[v]}) && |Dropped(order, v)| == |order| - 1
  {
    Without(order, v);
  }

  lemma AddedKey(order: seq<int>, free: map<int, nat>, h: int, b: nat)
    requires OrderedKeys(order, free) && h !in free
    ensures OrderedKeys(order + [h], free[h := b])
  {
  }

  lemma KeyPlace(order: seq<int>, free: map<int, nat>, h: int)
    requires OrderedKeys(order, free) && h in free
    ensures exists v :: 0 <= v < |order| && order[v] == h
  {
    assert h in order;
  }

  lemma ReviveKeepsPool(p: Pool, q: Pool, h: int)
    requires PoolOk(p) && Revived(p, q, h)
    ensures PoolOk(q) && h in q.cached && q.blocks[q.cached[h]].refCount == 1
  {
    hide OrderedKeys, Dropped;
    var v :| 0 <= v < |p.order| && p.order[v] == h && q.order == Dropped(p.order, v);
    DroppedKey(p.order, p.free, v);
    var b := p.free[h];
    assert p.blocks[b].blockHash == h && p.blocks[b].refCount == 0 && h !in p.cached;
    forall d | 0 <= d < |q.blocks| ensures Placed(q, d) { assert Placed(p, d); }
    assert |q.cached| == |p.cached| + 1;
  }

  lemma ShareKeepsPool(p: Pool, q: Pool, h: int)
    requires PoolOk(p) && SharedBlock(p, q, h)
    ensures PoolOk(q)
  {
    hide OrderedKeys;
    forall b | 0 <= b < |q.blocks| ensures Placed(q, b) { assert Placed(p, b); }
  }

  lemma CreateKeepsPool(p: Pool, q: Pool, h: int, tokens: int)
    requires PoolOk(p) && Created(p, q, h, tokens) && !Held(p, h)
    ensures PoolOk(q)
  {
    hide OrderedKeys;
    forall b | 0 <= b < |q.blocks| ensures Placed(q, b) { assert b < |p.blocks| ==> Placed(p, b); }
  }

  lemma FreeAt(p: Pool, v: nat)
    requires PoolOk(p) && v < |p.order|
    ensures p.order[v] in p.free && p.free[p.order[v]] < |p.blocks| && p.blocks[p.free[p.order[v]]].refCount == 0
  {
    var h := p.order[v];
    assert h in p.free;
  }

  /** A free block that goes straight to another hash. */
  lemma MovedToCached(p: Pool, q: Pool, v: nat, b: nat, h: int, block: Block)
    requires PoolOk(p) && !Held(p, h) && v < |p.order| && p.order[v] in p.free && p.free[p.order[v]] == b < |p.blocks|
    requires block.blockHash == h && block.refCount > 0
    requires q.blocks == p.blocks[b := block] && q.cached == p.cached[h := b]
    requires q.order == Dropped(p.order, v) && q.free == p.free - {p.order[v]}
    ensures PoolOk(q)
  {
    FreeAt(p, v);
    DroppedKey(p.order, p.free, v);
    hide OrderedKeys;
    var k := p.order[v];
    assert k in p.free && p.free[k] == b && q.free == p.free - {k};
    forall c | 0 <= c < |q.blocks| ensures Placed(q, c) { assert Placed(p, c); }
    assert |q.cached| == |p.cached| + 1;
  }

  lemma RecycleKeepsPool(p: Pool, q: Pool, h: int, tokens: int)
    requires PoolOk(p) && Recycled(p, q, h, tokens) && !Held(p, h)
    ensures PoolOk(q) && h in q.cached && q.cached[h] < |q.blocks|
    ensures q.blocks[q.cached[h]].refCount == 1 && !q.blocks[q.cached[h]].computed
  {
    var v := EarlyScan(Metas(p.blocks, p.order, p.free), 1, 0);
    var b := p.free[p.order[v]];
    FreeAt(p, v);
    hide PoolOk, EarlyScan, Dropped, Metas;
    MovedToCached(p, q, v, b, h, q.blocks[b]);
  }

  lemma RetireKeepsPool(p: Pool, q: Pool, b: nat)
    requires PoolOk(p) && b < |p.blocks| && p.blocks[b].refCount == 1 && Retired(p, q, b)
    ensures PoolOk(q) && p.blocks[b].blockHash !in p.free
  {
    assert Placed(p, b);
    AddedKey(p.order, p.free, p.blocks[b].blockHash, b);
    hide OrderedKeys;
    forall c | 0 <= c < |q.blocks| ensures Placed(q, c) { assert Placed(p, c); }
    assert |q.cached| == |p.cached| - 1;
    assert CachedOk(q) && FreeOk(q);
  }

  lemma RehashKeepsPool(p: Pool, q: Pool, b: nat, h: int)
    requires PoolOk(p) && b < |p.blocks| && p.blocks[b].refCount > 0 && !Held(p, h) && Rehashed(p, q, b, h)
    ensures PoolOk(q) && p.blocks[b].blockHash in p.cached && p.cached[p.blocks[b].blockHash] == b
  {
    assert Placed(p, b);
    hide OrderedKeys;
    forall c | 0 <= c < |q.blocks| ensures Placed(q, c) { assert Placed(p, c); }
  }

  ghost predicate OwnHashes(blocks: seq<Block>, free: map<int, nat>) {
    forall h :: h in free ==> free[h] < |blocks| && blocks[free[h]].blockHash == h
  }

  lemma OwnHashAt(blocks: seq<Block>, order: seq<int>, free: map<int, nat>, i: nat)
    requires OrderedKeys(order, free) && OwnHashes(blocks, free) && i < |order|
    ensures order[i] in free && free[order[i]] < |blocks| && blocks[free[order[i]]].blockHash == order[i]
  {
    var h := order[i];
    assert h in free;
  }

  /** The evictor: free blocks by hash, in insertion order. */
  class LRUEvictor {
    var order: seq<int>
    var freeTable: map<int, nat>

    constructor ()
      ensures order == [] && freeTable == map[]
    {
      order, freeTable := [], map[];
    }

    /** The early-break scan; the victim is exact when the least recently used blocks come first. */
    method Evict(blocks: seq<Block>) returns (r: Result<nat>)
      requires OrderedKeys(order, freeTable) && OwnHashes(blocks, freeTable)
      modifies this
      ensures OrderedKeys(order, freeTable)
      ensures r.Ok? <==> old(order) != []
      ensures r.Err? ==> r.error == ValueError && order == old(order) && freeTable == old(freeTable)
      ensures r.Ok? ==> var metas := Metas(blocks, old(order), old(freeTable));
                        var v := EarlyScan(metas, 1, 0);
                        && old(order)[v] in old(freeTable) && r.value == old(freeTable)[old(order)[v]]
                        && order == Dropped(old(order), v) && freeTable == old(freeTable) - {old(order)[v]}
                        && (LowestFirst(Times(metas)) ==> IsVictim(metas, |metas|, v))
    {
      if |order| == 0 {
        return Err(ValueError);
      }
      ghost var metas := Metas(blocks, order, freeTable);
      var best, i := 0, 1;
      while i < |order|
        invariant order == old(order) && freeTable == old(freeTable) && |metas| == |order|
        invariant best < i <= |order|
        invariant EarlyScan(metas, 1, 0) == EarlyScan(metas, i, best)
      {
        OwnHashAt(blocks, order, freeTable, best);
        OwnHashAt(blocks, order, freeTable, i);
        var candidate, block := blocks[freeTable[order[best]]], blocks[freeTable[order[i]]];
        assert metas[i] == Meta(block.lastAccessed, block.numHashedTokens);
        assert metas[best] == Meta(candidate.lastAccessed, candidate.numHashedTokens);
        if candidate.lastAccessed < block.lastAccessed {
          break;
        }
        if candidate.numHashedTokens < block.numHashedTokens {
          best := i;
        }
        i := i + 1;
      }
      if LowestFirst(Times(metas)) { SameVictim(metas); }
      OwnHashAt(blocks, order, freeTable, best);
      var evicted := freeTable[order[best]];
      DroppedKey(order, freeTable, best);
      hide OrderedKeys;
      order, freeTable := Dropped(order, best), freeTable - {blocks[evicted].blockHash};
      return Ok(evicted);
    }

    /** Inserts at the end; a hash that is there already gets the new block where it stands. */
    method Add(hash: int, b: nat)
      requires OrderedKeys(order, freeTable)
      modifies this
      ensures OrderedKeys(order, freeTable) && freeTable == old(freeTable)[hash := b]
      ensures order == if hash in old(freeTable) then old(order) else old(order) + [hash]
    {
      if hash !in freeTable {
        AddedKey(order, freeTable, hash, b);
        order := order + [hash];
      }
      freeTable := freeTable[hash := b];
    }

    method Remove(hash: int) returns (r: Result<nat>)
      requires OrderedKeys(order, freeTable)
      modifies this
      ensures r.Ok? <==> hash in old(freeTable)
      ensures r.Ok? ==> r.value == old(freeTable)[hash] && freeTable == old(freeTable) - {hash}
                        && exists v :: 0 <= v < |old(order)| && old(order)[v] == hash && order == Dropped(old(order), v)
      ensures r.Err? ==> r.error == ValueError && order == old(order) && freeTable == old(freeTable)
    {
      if hash !in freeTable {
        return Err(ValueError);
      }
      KeyPlace(order, freeTable, hash);
      var v :| 0 <= v < |order| && order[v] == hash;
      r := Ok(freeTable[hash]);
      order, freeTable := Dropped(order, v), freeTable - {hash};
    }
  }

  class CachedBlockAllocator {
    const numBlocks: nat
    const evictor: LRUEvictor
    var blocks: seq<Block>
    var cachedBlocks: map<int, nat>
    var defaultHashCtr: nat

    ghost function P(): Pool
      reads this, evictor
    {
      Pool(blocks, cachedBlocks, evictor.order, evictor.freeTable)
    }

    ghost predicate Valid()
      reads this, evictor
    {
      PoolOk(P()) && |blocks| <= numBlocks
    }

    constructor (n: nat)
      ensures Valid() && numBlocks == n && P() == Pool([], map[], [], map[]) && defaultHashCtr == 0 && fresh(evictor)
    {
      numBlocks := n;
      evictor := new LRUEvictor();
      blocks, cachedBlocks, defaultHashCtr := [], map[], 0;
    }

    /** The two tables together know every created block by its hash. */
    method ContainsBlock(hash: int) returns (held: bool)
      ensures held <==> Held(P(), hash)
      ensures Valid() ==> (held <==> exists b :: 0 <= b < |blocks| && blocks[b].blockHash == hash)
      ensures Valid() ==> forall b, b' :: 0 <= b < b' < |blocks| ==> blocks[b].blockHash != blocks[b'].blockHash
    {
      if Valid() { OneBlockPerHash(P(), hash); }
      held := hash in cachedBlocks || hash in evictor.freeTable;
    }

    /** Free blocks and cached blocks make up the whole pool. */
    method GetNumFreeBlocks() returns (n: int)
      requires Valid()
      ensures n + |cachedBlocks| == numBlocks && 0 <= n <= numBlocks
      ensures n == 0 <==> |blocks| == numBlocks && evictor.order == []
    {
      n := numBlocks - |blocks| + |evictor.order|;
    }

    /** A block for a new hash: one that was never used, or the evictor's victim under its new hash. */
    method AllocateBlock(hash: int, numHashedTokens: int) returns (r: Result<nat>)
      requires Valid()
      modifies this`blocks, evictor
      ensures r.Ok? <==> old(|blocks|) < numBlocks || old(evictor.order) != []
      ensures r.Err? ==> r.error == ValueError && P() == old(P())
      ensures r.Ok? && old(|blocks|) < numBlocks ==>
                r.value == old(|blocks|) && evictor.order == old(evictor.order) && evictor.freeTable == old(evictor.freeTable)
                && blocks == old(blocks) + [Block(hash, numHashedTokens, 0, -1.0, false)]
      ensures r.Ok? && old(|blocks|) == numBlocks ==>
                var v := EarlyScan(Metas(old(blocks), old(evictor.order), old(evictor.freeTable)), 1, 0);
                && old(evictor.order)[v] in old(evictor.freeTable) && r.value == old(evictor.freeTable)[old(evictor.order)[v]]
                && r.value < |old(blocks)|
                && evictor.order == Dropped(old(evictor.order), v)
                && evictor.freeTable == old(evictor.freeTable) - {old(evictor.order)[v]}
                && blocks == old(blocks)[r.value := old(blocks)[r.value].(blockHash := hash, numHashedTokens := numHashedTokens, computed := false)]
    {
      hide EarlyScan, Dropped, Metas;
      PoolHashes(P());
      hide PoolOk, OrderedKeys, OwnHashes;
      if |blocks| == numBlocks {
        r := evictor.Evict(blocks);
        if r.Err? {
          return;
        }
        var b := r.value;
        blocks := blocks[b := blocks[b].(computed := false)];
        blocks := blocks[b := blocks[b].(blockHash := hash)];
        blocks := blocks[b := blocks[b].(numHashedTokens := numHashedTokens)];
        return;
      }
      r := Ok(|blocks|);
      blocks := blocks + [Block(hash, numHashedTokens, 0, DEFAULT_LAST_ACCESSED_TIME, false)];
    }

    /**
     A referenced block for a hash: the cached one, the one the evictor still holds, or one
     for a hash not held before, which is never marked as computed.
     */
    method Allocate(blockHash: Option<int>, numHashedTokens: int) returns (r: Result<nat>)
      requires Valid()
      modifies this, evictor
      ensures Valid() && defaultHashCtr == old(defaultHashCtr) + if blockHash == None then 1 else 0
      ensures var h := if blockHash == None then old(defaultHashCtr) else blockHash.value;
              && (r.Ok? <==> Held(old(P()), h) || old(|blocks|) < numBlocks || old(evictor.order) != [])
              && (r.Ok? ==>
                    && r.value < |blocks| && blocks[r.value].blockHash == h && h in cachedBlocks && cachedBlocks[h] == r.value
                    && (h in old(evictor.freeTable) ==> Revived(old(P()), P(), h))
                    && (h in old(cachedBlocks) ==> SharedBlock(old(P()), P(), h))
                    && (!Held(old(P()), h) ==>
                          && !blocks[r.value].computed && blocks[r.value].refCount == 1
                          && if old(|blocks|) < numBlocks then Created(old(P()), P(), h, numHashedTokens)
                             else Recycled(old(P()), P(), h, numHashedTokens)))
      ensures r.Ok? ==> OneReferenceMore(old(blocks), blocks, r.value)
      ensures r.Err? ==> r.error == ValueError && P() == old(P())
    {
      hide PoolOk, OrderedKeys, EarlyScan, Dropped, Metas, Revived, SharedBlock, Created, Recycled;
      var h;
      if blockHash == None {
        h := defaultHashCtr;
        defaultHashCtr := defaultHashCtr + 1;
      } else {
        h := blockHash.value;
      }
      DisjointKeys(P());
      ghost var p := P();
      if h in evictor.freeTable {
        var b := Revive(h);
        TakesOneReference(p, P(), h, numHashedTokens, numBlocks);
        return Ok(b);
      }
      r := Reference(h, numHashedTokens);
      if r.Ok? { TakesOneReference(p, P(), h, numHashedTokens, numBlocks); }
    }

    /** Brings back a block that was freed but not evicted yet. */
    method Revive(h: int) returns (b: nat)
      requires Valid() && h in evictor.freeTable
      modifies this`cachedBlocks, this`blocks, evictor
      ensures Valid() && Revived(old(P()), P(), h)
      ensures b < |blocks| && blocks[b].blockHash == h && h in cachedBlocks && cachedBlocks[h] == b
    {
      hide OrderedKeys, Dropped;
      ghost var p := P();
      assert h !in cachedBlocks;
      var e := evictor.Remove(h);
      b := e.value;
      assert blocks[b].refCount == 0;
      cachedBlocks := cachedBlocks[h := b];
      blocks := blocks[b := blocks[b].(refCount := blocks[b].refCount + 1)];
      assert blocks[b].blockHash == h;
      ReviveKeepsPool(p, P(), h);
    }

    /** One more reference to the block of a hash, which is created or recycled first if nothing holds it. */
    method Reference(h: int, numHashedTokens: int) returns (r: Result<nat>)
      requires Valid() && h !in evictor.freeTable
      modifies this`cachedBlocks, this`blocks, evictor
      ensures Valid()
      ensures r.Ok? <==> h in old(cachedBlocks) || old(|blocks|) < numBlocks || old(evictor.order) != []
      ensures r.Ok? ==> r.value < |blocks| && blocks[r.value].blockHash == h && h in cachedBlocks && cachedBlocks[h] == r.value
      ensures r.Ok? && h in old(cachedBlocks) ==> SharedBlock(old(P()), P(), h)
      ensures r.Ok? && h !in old(cachedBlocks) ==>
                && !blocks[r.value].computed && blocks[r.value].refCount == 1
                && if old(|blocks|) < numBlocks then Created(old(P()), P(), h, numHashedTokens)
                   else Recycled(old(P()), P(), h, numHashedTokens)
      ensures r.Err? ==> r.error == ValueError && P() == old(P())
    {
      hide OrderedKeys, EarlyScan, Dropped, Metas;
      ghost var p := P();
      assert OrderedKeys(p.order, p.free);
      if h !in cachedBlocks {
        r := AllocateBlock(h, numHashedTokens);
        if r.Err? {
          return;
        }
        cachedBlocks := cachedBlocks[h := r.value];
      }
      var b := cachedBlocks[h];
      assert blocks[b].blockHash == h;
      blocks := blocks[b := blocks[b].(refCount := blocks[b].refCount + 1)];
      r := Ok(b);
      Referenced(p, P(), h, numHashedTokens, numBlocks);
    }

    /** Drops a reference; the last one hands the block to the evictor, under its own hash. */
    method Free(b: nat) returns (r: Result<()>)
      requires Valid() && b < |blocks|
      modifies this, evictor
      ensures Valid() && defaultHashCtr == old(defaultHashCtr)
      ensures r.Ok? <==> old(blocks[b].refCount) > 0
      ensures r.Err? ==> r.error == ValueError && P() == old(P())
      ensures r.Ok? ==> if old(blocks[b].refCount) == 1 then Retired(old(P()), P(), b)
                        else P() == old(P()).(blocks := old(blocks)[b := old(blocks)[b].(refCount := old(blocks)[b].refCount - 1)])
      ensures r.Ok? ==> OneReferenceMore(blocks, old(blocks), b)
    {
      hide OrderedKeys;
      ghost var p := P();
      assert Placed(p, b);
      if blocks[b].refCount == 0 {
        return Err(ValueError);
      }
      blocks := blocks[b := blocks[b].(refCount := blocks[b].refCount - 1)];
      if blocks[b].refCount == 0 {
        assert blocks[b].blockHash !in evictor.freeTable;
        evictor.Add(blocks[b].blockHash, b);
        cachedBlocks := cachedBlocks - {blocks[b].blockHash};
        RetireKeepsPool(p, P(), b);
      } else {
        UnshareKeepsPool(p, P(), b);
      }
      return Ok(());
    }

    /**
     Moves a referenced block to a hash that nothing holds. An unreferenced block raises a
     KeyError, but only after its hash was changed under the evictor's feet.
     */
    method UpdateHash(hash: int, b: nat) returns (r: Result<()>)
      requires Valid() && b < |blocks|
      modifies this
      ensures defaultHashCtr == old(defaultHashCtr)
      ensures Valid() <==> r != Err(KeyError)
      ensures r.Ok? <==> !Held(old(P()), hash) && old(blocks[b].refCount) > 0
      ensures r.Ok? ==> Rehashed(old(P()), P(), b, hash)
      ensures r.Err? ==> r.error == if Held(old(P()), hash) then AssertionError else KeyError
      ensures r == Err(AssertionError) ==> P() == old(P())
      ensures r == Err(KeyError) ==> P() == old(P()).(blocks := old(blocks)[b := old(blocks)[b].(blockHash := hash)])
    {
      hide OrderedKeys;
      ghost var p := P();
      var held := ContainsBlock(hash);
      if held {
        return Err(AssertionError);
      }
      var oldHash := blocks[b].blockHash;
      blocks := blocks[b := blocks[b].(blockHash := hash)];
      assert Placed(p, b);
      if oldHash !in cachedBlocks {
        Misplaced(p, P(), b, hash);
        return Err(KeyError);
      }
      cachedBlocks := cachedBlocks - {oldHash};
      cachedBlocks := cachedBlocks[hash := b];
      RehashKeepsPool(p, P(), b, hash);
      return Ok(());
    }
  }

  lemma OneBlockPerHash(p: Pool, h: int)
    requires PoolOk(p)
    ensures Held(p, h) <==> exists b :: 0 <= b < |p.blocks| && p.blocks[b].blockHash == h
    ensures forall b, b' :: 0 <= b < b' < |p.blocks| ==> p.blocks[b].blockHash != p.blocks[b'].blockHash
  {
    hide OrderedKeys;
    forall b | 0 <= b < |p.blocks| ensures Placed(p, b) && Held(p, p.blocks[b].blockHash) {}
    if h in p.cached { assert p.blocks[p.cached[h]].blockHash == h; }
    if h in p.free { assert p.blocks[p.free[h]].blockHash == h; }
    forall b, b' | 0 <= b < b' < |p.blocks| ensures p.blocks[b].blockHash != p.blocks[b'].blockHash {
      assert Placed(p, b) && Placed(p, b');
    }
  }

  /** A free block whose hash changed is no longer where the evictor looks for it. */
  lemma Misplaced(p: Pool, q: Pool, b: nat, h: int)
    requires PoolOk(p) && b < |p.blocks| && p.blocks[b].blockHash !in p.cached && !Held(p, h)
    requires q == p.(blocks := p.blocks[b := p.blocks[b].(blockHash := h)])
    ensures p.blocks[b].refCount == 0 && !PoolOk(q)
  {
    hide OrderedKeys;
    assert Placed(p, b);
    var old' := p.blocks[b].blockHash;
    assert old' in q.free && q.free[old'] == b && q.blocks[b].blockHash == h != old';
    assert !FreeOk(q);
  }

  /** The reference taken at the end of an allocation. */
  lemma Referenced(p: Pool, q: Pool, h: int, tokens: int, numBlocks: nat)
    requires PoolOk(p) && h !in p.free && |p.blocks| <= numBlocks
    requires h in p.cached ==> SharedBlock(p, q, h)
    requires h !in p.cached ==> if |p.blocks| < numBlocks then Created(p, q, h, tokens) else Recycled(p, q, h, tokens)
    ensures PoolOk(q)
    ensures h !in p.cached ==> h in q.cached && q.cached[h] < |q.blocks| && q.blocks[q.cached[h]].refCount == 1
                               && !q.blocks[q.cached[h]].computed
  {
    hide PoolOk, EarlyScan, Dropped;
    if h in p.cached {
      ShareKeepsPool(p, q, h);
    } else if |p.blocks| < numBlocks {
      CreateKeepsPool(p, q, h, tokens);
    } else {
      RecycleKeepsPool(p, q, h, tokens);
    }
  }

  lemma PoolHashes(p: Pool)
    requires PoolOk(p)
    ensures OrderedKeys(p.order, p.free) && OwnHashes(p.blocks, p.free)
    ensures p.order != [] ==> EarlyScan(Metas(p.blocks, p.order, p.free), 1, 0) < |p.order|
    ensures p.order != [] ==>
              var h := p.order[EarlyScan(Metas(p.blocks, p.order, p.free), 1, 0)]; h in p.free && p.free[h] < |p.blocks|
  {
    if p.order != [] { FreeAt(p, EarlyScan(Metas(p.blocks, p.order, p.free), 1, 0)); }
  }

  lemma DisjointKeys(p: Pool)
    requires PoolOk(p)
    ensures forall h :: h in p.free ==> h !in p.cached
  {
  }

  lemma UnshareKeepsPool(p: Pool, q: Pool, b: nat)
    requires PoolOk(p) && b < |p.blocks| && p.blocks[b].refCount > 1
    requires q == p.(blocks := p.blocks[b := p.blocks[b].(refCount := p.blocks[b].refCount - 1)])
    ensures PoolOk(q)
  {
    hide OrderedKeys;
    forall c | 0 <= c < |q.blocks| ensures Placed(q, c) { assert Placed(p, c); }
  }
}
