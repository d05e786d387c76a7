/** eLLM's KV block store: free deques, reference counts and entry maps, changed in place. */
module TokenLayerCache {
  import opened Results
  import opened KVState
  import opened KVSpec
  import opened KVAppend
  import opened KVSharing
  import opened KVRecompute
  import opened KVPlans

  class TokenLayerKVMap {
    const cfg: Config
    var freeBlocks: seq<seq<nat>>
    var refCounts: seq<seq<nat>>
    var entries: map<Key, Entry>
    var temporaryEntries: map<Key, Entry>
    var sequenceLengths: map<int, nat>
    var evictedPrefixBlocks: map<int, nat>

    ghost function S(): State
      reads this
    {
      State(freeBlocks, refCounts, entries, temporaryEntries, sequenceLengths, evictedPrefixBlocks)
    }

    ghost predicate Valid()
      reads this
    {
      Inv(cfg, S())
    }

    constructor (c: Config)
      ensures cfg == c && Valid()
      ensures entries == map[] && temporaryEntries == map[] && sequenceLengths == map[]
      ensures PartitionsLayers(c, |freeBlocks|)
      ensures forall g :: 0 <= g < |freeBlocks| ==> |freeBlocks[g]| == c.numBlocks
    {
      GroupsPartition(c);
      cfg := c;
      freeBlocks := seq(Groups(c), g => seq(c.numBlocks, i => i));
      refCounts := seq(Groups(c), g => seq(c.numBlocks, i => 0));
      entries := map[];
      temporaryEntries := map[];
      sequenceLengths := map[];
      evictedPrefixBlocks := map[];
      new;
      forall g | 0 <= g < Groups(c) ensures PoolOk(freeBlocks[g], refCounts[g], c.numBlocks) {
        forall b | 0 <= b < c.numBlocks ensures b in freeBlocks[g] { assert freeBlocks[g][b] == b; }
      }
      forall g, b | 0 <= g < Groups(c) && 0 <= b < c.numBlocks
        ensures |Holders(entries, g, b)| == 0
      {
        assert Holders(entries, g, b) == {};
      }
    }

    /** The store, unless a dimension is not positive. */
    static method Create(numLayers: int, blockSize: int, numBlocks: int, groupSize: int)
      returns (r: Result<TokenLayerKVMap>)
      ensures r.Ok? <==> numLayers > 0 && blockSize > 0 && numBlocks > 0 && groupSize > 0
      ensures r.Err? ==> r.error == ValueError
      ensures r.Ok? ==> fresh(r.value) && r.value.Valid() && r.value.sequenceLengths == map[]
                        && r.value.cfg == RawConfig(numLayers, blockSize, numBlocks, groupSize)
    {
      if numLayers <= 0 || blockSize <= 0 || numBlocks <= 0 || groupSize <= 0 {
        return Err(ValueError);
      }
      var m := new TokenLayerKVMap(RawConfig(numLayers, blockSize, numBlocks, groupSize));
      return Ok(m);
    }

    /** The group of a layer: the one whose layers include it. */
    method GetLayerGroup(layer: int) returns (r: Result<nat>)
      ensures r.Ok? <==> 0 <= layer < cfg.numLayers
      ensures r.Err? ==> r.error == ValueError
      ensures r.Ok? ==> r.value < Groups(cfg) && r.value * cfg.groupSize <= layer < r.value * cfg.groupSize + cfg.groupSize
    {
      if layer < 0 || layer >= cfg.numLayers {
        return Err(ValueError);
      }
      GroupsPartition(cfg);
      LayerInGroup(cfg, Groups(cfg), layer);
      return Ok(layer / cfg.groupSize);
    }

    method AllocateBlock(g: nat, ghost x: multiset<(nat, nat)>) returns (r: Result<nat>)
      requires Ledger(cfg, S(), x) && g < Groups(cfg)
      modifies this
      ensures r.Ok? <==> old(freeBlocks[g]) != []
      ensures r.Err? ==> r.error == RuntimeError && S() == old(S())
      ensures r.Ok? ==> r.value == old(freeBlocks[g][0]) < |old(refCounts)[g]| && S() == Popped(old(S()), g)
      ensures r.Ok? ==> old(freeBlocks[g]) == [r.value] + freeBlocks[g] && refCounts[g] == old(refCounts[g])[r.value := 1]
      ensures r.Ok? ==> r.value < cfg.numBlocks && Ledger(cfg, S(), x + multiset{(g, r.value)})
    {
      if freeBlocks[g] == [] {
        return Err(RuntimeError);
      }
      LedgerPop(cfg, S(), x, g);
      var b := freeBlocks[g][0];
      freeBlocks := freeBlocks[g := freeBlocks[g][1..]];
      if refCounts[g][b] != 0 {
        assert false;
      }
      refCounts := refCounts[g := refCounts[g][b := 1]];
      return Ok(b);
    }

    method RetainBlock(g: nat, b: nat, ghost x: multiset<(nat, nat)>) returns (r: Result<()>)
      requires Ledger(cfg, S(), x) && g < Groups(cfg) && b < cfg.numBlocks
      modifies this
      ensures r.Ok? <==> old(refCounts[g][b]) > 0
      ensures r.Err? ==> r.error == ValueError && S() == old(S())
      ensures r.Ok? ==> S() == Shared(old(S()), g, b) && Ledger(cfg, S(), x + multiset{(g, b)})
    {
      if refCounts[g][b] == 0 {
        return Err(ValueError);
      }
      LedgerShare(cfg, S(), x, g, b);
      refCounts := refCounts[g := refCounts[g][b := refCounts[g][b] + 1]];
      return Ok(());
    }

    /** Raises on a block that nobody references: a double free. */
    method FreeBlock(g: nat, b: nat) returns (r: Result<()>)
      requires |freeBlocks| == |refCounts| && g < |refCounts| && b < |refCounts[g]|
      modifies this
      ensures r.Ok? <==> old(refCounts[g][b]) > 0
      ensures r.Err? ==> r.error == ValueError && S() == old(S())
      ensures r.Ok? ==> S() == Released(old(S()), g, b)
      ensures r.Ok? ==> freeBlocks[g] == old(freeBlocks[g]) + (if old(refCounts[g][b]) == 1 then [b] else [])
                        && refCounts[g] == old(refCounts[g])[b := old(refCounts[g][b]) - 1]
    {
      if refCounts[g][b] == 0 {
        return Err(ValueError);
      }
      refCounts := refCounts[g := refCounts[g][b := refCounts[g][b] - 1]];
      if refCounts[g][b] > 0 {
        return Ok(());
      }
      freeBlocks := freeBlocks[g := freeBlocks[g] + [b]];
      return Ok(());
    }

    /** Pops a permanent entry and drops its reference. */
    method PopEntry(k: Key)
      requires Ledger(cfg, S(), multiset{}) && k in entries
      modifies this
      ensures Ledger(cfg, S(), multiset{})
      ensures entries == old(entries) - {k} && temporaryEntries == old(temporaryEntries)
      ensures sequenceLengths == old(sequenceLengths) && evictedPrefixBlocks == old(evictedPrefixBlocks)
    {
      HeldBlock(cfg, S(), multiset{}, k);
      Detach(cfg, S(), multiset{}, k);
      var entry := entries[k];
      entries := entries - {k};
      LedgerRelease(cfg, S(), multiset{}, k.group, entry.phys);
      var _ := FreeBlock(k.group, entry.phys);
    }

    method PopTemporary(k: Key)
      requires Ledger(cfg, S(), multiset{}) && k in temporaryEntries
      modifies this
      ensures Ledger(cfg, S(), multiset{})
      ensures entries == old(entries) && temporaryEntries == old(temporaryEntries) - {k}
      ensures sequenceLengths == old(sequenceLengths) && evictedPrefixBlocks == old(evictedPrefixBlocks)
    {
      DetachTemp(cfg, S(), multiset{}, k);
      var entry := temporaryEntries[k];
      temporaryEntries := temporaryEntries - {k};
      LedgerRelease(cfg, S(), multiset{}, k.group, entry.phys);
      var _ := FreeBlock(k.group, entry.phys);
    }

    /** The hand-written rollback: pop and free every key recorded so far. */
    method RollBack(keys: seq<Key>)
      requires Ledger(cfg, S(), multiset{}) && NoDup(keys)
      requires KeySet(keys) <= entries.Keys
      modifies this
      ensures Ledger(cfg, S(), multiset{})
      ensures entries == old(entries) - KeySet(keys) && temporaryEntries == old(temporaryEntries)
      ensures sequenceLengths == old(sequenceLengths) && evictedPrefixBlocks == old(evictedPrefixBlocks)
    {
      for i := 0 to |keys|
        invariant Ledger(cfg, S(), multiset{})
        invariant entries == old(entries) - KeySet(keys[..i]) && temporaryEntries == old(temporaryEntries)
        invariant sequenceLengths == old(sequenceLengths) && evictedPrefixBlocks == old(evictedPrefixBlocks)
      {
        assert keys[i] !in keys[..i];
        PopEntry(keys[i]);
        assert keys[..i + 1] == keys[..i] + [keys[i]];
      }
      assert keys[..|keys|] == keys;
    }

    method AllocateSequence(id: int, numTokens: int) returns (r: Result<()>)
      requires Valid()
      modifies this
      ensures Valid()
      ensures r.Ok? <==> old(CanAllocate(cfg, S(), id, numTokens, 0))
      ensures r.Ok? ==> Allocated(cfg, old(S()), S(), id, numTokens, 0)
      ensures r.Err? ==> Unchanged(old(S()), S())
      ensures r.Err? ==> r.error == if old(AllocArgsOk(cfg, S(), id, numTokens, 0)) then RuntimeError else ValueError
    {
      r := AllocateSequenceWithEvictedPrefix(id, numTokens, 0);
    }

    /** Allocates the retained suffix only. */
    method AllocateSequenceWithEvictedPrefix(id: int, numTokens: int, numEvicted: int) returns (r: Result<()>)
      requires Valid()
      modifies this
      ensures Valid()
      ensures r.Ok? <==> old(CanAllocate(cfg, S(), id, numTokens, numEvicted))
      ensures r.Ok? ==> Allocated(cfg, old(S()), S(), id, numTokens, WholeBlocks(cfg, numEvicted))
      ensures r.Err? ==> Unchanged(old(S()), S())
      ensures r.Err? ==> r.error == if old(AllocArgsOk(cfg, S(), id, numTokens, numEvicted)) then RuntimeError else ValueError
    {
      hide Inv, GrownBy, Unchanged, Groups, NumBlocks, Span, Allocated, Aligned, WholeBlocks;
      ghost var s := S();
      InvPools(cfg, s);
      if id !in sequenceLengths { NoKeys(cfg, s, id); }
      UnchangedSelf(s);
      if id in sequenceLengths || numTokens <= 0 || numEvicted < 0 || !Aligned(cfg, numEvicted)
         || WholeBlocks(cfg, numEvicted) > NumBlocks(cfg, numTokens) {
        return Err(ValueError);
      }
      var prefix, total := WholeBlocks(cfg, numEvicted), NumBlocks(cfg, numTokens);
      r := AllocateRows(id, prefix, total, numTokens);
      if r.Ok? {
        GrownFrame(cfg, s, S(), Span(cfg, id, prefix, total), numTokens);
        AllocatedInv(cfg, s, S(), id, numTokens, prefix);
        sequenceLengths := sequenceLengths[id := numTokens];
        evictedPrefixBlocks := evictedPrefixBlocks[id := prefix];
      } else {
        UnchangedInv(cfg, s, S());
      }
    }

    /** Blocks lo..hi of a new sequence in every group, or nothing at all. */
    method AllocateRows(id: int, lo: nat, hi: nat, numTokens: nat) returns (r: Result<()>)
      requires Ledger(cfg, S(), multiset{}) && lo <= hi && |freeBlocks| == Groups(cfg)
      requires forall k :: k in entries && k.seqId == id ==> k.block < lo
      modifies this
      ensures Ledger(cfg, S(), multiset{}) && |freeBlocks| == Groups(cfg)
      ensures r.Ok? <==> forall g :: 0 <= g < Groups(cfg) ==> old(|freeBlocks[g]|) >= hi - lo
      ensures r.Ok? ==> GrownBy(cfg, old(S()), S(), Span(cfg, id, lo, hi), numTokens)
      ensures r.Ok? ==> forall g :: 0 <= g < Groups(cfg) ==> freeBlocks[g] == old(freeBlocks[g])[hi - lo..]
      ensures r.Err? ==> r.error == RuntimeError && Unchanged(old(S()), S())
    {
      hide Ledger, GrownBy, NoDup, KeySet, Cells, Unchanged;
      var taken: seq<Key> := [];
      ghost var s := S();
      NothingGrown(cfg, s, numTokens);
      NoKeysTaken(id, lo, hi);
      for g := 0 to Groups(cfg)
        invariant Ledger(cfg, S(), multiset{}) && |freeBlocks| == Groups(cfg)
        invariant NoDup(taken) && KeySet(taken) <= entries.Keys && GrownBy(cfg, s, S(), KeySet(taken), numTokens)
        invariant KeySet(taken) == Cells(id, lo, hi, 0, g)
        invariant forall k :: k in entries && k.seqId == id ==> k.block < lo || k.group < g
        invariant forall h :: 0 <= h < g ==> |s.free[h]| >= hi - lo && freeBlocks[h] == s.free[h][hi - lo..]
        invariant forall h :: g <= h < Groups(cfg) ==> freeBlocks[h] == s.free[h]
      {
        var ok;
        taken, ok := AllocateRow(id, g, lo, hi, numTokens, taken, s);
        if !ok {
          GrownKeys(cfg, s, S(), taken, numTokens);
          RollBack(taken);
          RolledBack(cfg, s, S());
          return Err(RuntimeError);
        }
        CellsJoin(id, lo, hi, g);
      }
      return Ok(());
    }

    /** Takes the next free block of the key's group and records it. */
    method RecordFresh(key: Key, numTokens: nat, ghost s: State, ghost keys: set<Key>) returns (ok: bool)
      requires Ledger(cfg, S(), multiset{}) && GrownBy(cfg, s, S(), keys, numTokens)
      requires |freeBlocks| == Groups(cfg) && key !in entries && key.group < Groups(cfg)
      modifies this
      ensures Ledger(cfg, S(), multiset{}) && |freeBlocks| == Groups(cfg)
      ensures ok <==> old(freeBlocks[key.group]) != []
      ensures !ok ==> S() == old(S())
      ensures ok ==> GrownBy(cfg, s, S(), keys + {key}, numTokens)
      ensures ok ==> freeBlocks == old(freeBlocks)[key.group := old(freeBlocks[key.group])[1..]]
      ensures ok ==> entries.Keys == old(entries).Keys + {key}
    {
      ghost var t := S();
      hide Ledger, GrownBy;
      var b := AllocateBlock(key.group, multiset{});
      if b.Err? {
        return false;
      }
      GrowStep(cfg, s, t, keys, numTokens, key);
      entries := entries[key := PermanentEntry(cfg, key, numTokens, b.value)];
      assert S() == Recorded(cfg, t, key, numTokens);
      return true;
    }

    /** One group's share of an allocation: records blocks lo..hi until the deque runs dry. */
    method AllocateRow(id: int, g: nat, lo: nat, hi: nat, numTokens: nat, before: seq<Key>, ghost s: State)
      returns (taken: seq<Key>, ok: bool)
      requires Ledger(cfg, S(), multiset{}) && |freeBlocks| == Groups(cfg)
      requires g < Groups(cfg) && lo <= hi && NoDup(before)
      requires GrownBy(cfg, s, S(), KeySet(before), numTokens) && KeySet(before) <= entries.Keys
      requires forall k :: k in entries && k.seqId == id ==> k.block < lo || k.group < g
      modifies this
      ensures Ledger(cfg, S(), multiset{}) && |freeBlocks| == Groups(cfg)
      ensures NoDup(taken) && KeySet(taken) <= entries.Keys && GrownBy(cfg, s, S(), KeySet(taken), numTokens)
      ensures ok <==> old(|freeBlocks[g]|) >= hi - lo
      ensures ok ==> freeBlocks == old(freeBlocks)[g := old(freeBlocks[g])[hi - lo..]]
      ensures ok ==> KeySet(taken) == KeySet(before) + Cells(id, lo, hi, g, g + 1)
      ensures forall k :: k in entries && k.seqId == id ==> k.block < lo || k.group <= g
    {
      hide Ledger, GrownBy, NoDup, KeySet;
      taken, ok := before, true;
      ghost var f := freeBlocks;
      for l := lo to hi
        invariant Ledger(cfg, S(), multiset{}) && |freeBlocks| == Groups(cfg)
        invariant NoDup(taken) && KeySet(taken) <= entries.Keys && GrownBy(cfg, s, S(), KeySet(taken), numTokens)
        invariant |f[g]| >= l - lo && freeBlocks == f[g := f[g][l - lo..]]
        invariant KeySet(taken) == KeySet(before) + Cells(id, lo, l, g, g + 1)
        invariant forall k :: k in entries && k.seqId == id ==> k.block < lo || k.group < g || (k.group == g && k.block < l)
      {
        var key := Key(id, l, g);
        ok := RecordFresh(key, numTokens, s, KeySet(taken));
        if !ok {
          return;
        }
        AppendKey(taken, key);
        taken := taken + [key];
      }
    }

    // -------------------------------------------------------------- append

    /** Makes room for one more token of a sequence; returns the block copies to perform first. */
    method AppendToken(id: int) returns (r: Result<seq<Copy>>)
      requires Valid()
      modifies this
      ensures Valid()
      ensures r.Ok? <==> old(CanAppend(cfg, S(), id))
      ensures r.Ok? ==> Appended(cfg, old(S()), S(), id, r.value)
      ensures r.Err? ==> Unchanged(old(S()), S())
      ensures r.Err? ==> r.error ==
                         if old(TailRetained(cfg, S(), id)) then RuntimeError else KeyError
    {
      hide Inv, Unchanged, Appended, CanAppend, TailRetained, NumBlocks, WholeBlocks, Aligned;
      LiveIds(cfg, S());
      UnchangedSelf(S());
      if id !in sequenceLengths {
        NotLive(cfg, S(), id);
        return Err(KeyError);
      }
      var oldBlocks, newBlocks := NumBlocks(cfg, sequenceLengths[id]), NumBlocks(cfg, sequenceLengths[id] + 1);
      BlocksOnAppend(cfg, sequenceLengths[id]);
      if newBlocks > oldBlocks {
        r := AppendNewBlock(id, newBlocks - 1);
      } else {
        r := AppendToTail(id, newBlocks - 1);
      }
    }

    method AppendNewBlock(id: int, block: nat) returns (r: Result<seq<Copy>>)
      requires Valid() && id in sequenceLengths && id in evictedPrefixBlocks
      requires Aligned(cfg, sequenceLengths[id]) && block == Tail(cfg, S(), id)
      modifies this
      ensures Valid()
      ensures r.Ok? <==> old(CanAppend(cfg, S(), id))
      ensures r.Ok? ==> Appended(cfg, old(S()), S(), id, r.value)
      ensures r.Err? ==> Unchanged(old(S()), S()) && r.error == RuntimeError && old(TailRetained(cfg, S(), id))
    {
      hide Inv, Ledger, GrownBy, Unchanged, Appended, CanAppend, TailRetained, WholeBlocks, Aligned, Span, Groups, InRange;
      ghost var s := S();
      InvPools(cfg, s);
      OwnBlocks(cfg, s, id);
      var n := sequenceLengths[id];
      OpeningNeedsAll(cfg, s, id);
      var a := AllocateRows(id, block, block + 1, n + 1);
      if a.Err? {
        UnchangedInv(cfg, s, S());
        return Err(a.error);
      }
      GrownFrame(cfg, s, S(), Span(cfg, id, block, block + 1), n + 1);
      OpenedBlock(cfg, s, S(), id);
      sequenceLengths := sequenceLengths[id := n + 1];
      return Ok([]);
    }

    /** The tail block has room: keep it if it is private, move to a copy if it is shared. */
    method AppendToTail(id: int, block: nat) returns (r: Result<seq<Copy>>)
      requires Valid() && id in sequenceLengths && id in evictedPrefixBlocks
      requires !Aligned(cfg, sequenceLengths[id]) && block == Tail(cfg, S(), id)
      modifies this
      ensures Valid()
      ensures r.Ok? <==> old(CanAppend(cfg, S(), id))
      ensures r.Ok? ==> Appended(cfg, old(S()), S(), id, r.value)
      ensures r.Err? ==> Unchanged(old(S()), S())
      ensures r.Err? ==> r.error == if old(TailRetained(cfg, S(), id)) then RuntimeError else KeyError
    {
      hide Inv, Ledger, Unchanged, Appended, CanAppend, TailRetained, WholeBlocks, Aligned, Groups, InRange,
           CowTaken, CowGroups, Committed;
      ghost var s := S();
      InvPools(cfg, s);
      var c := TakeCowBlocks(id, block);
      if c.Err? {
        return Err(c.error);
      }
      ghost var u := S();
      var copies := CommitTail(id, block, c.value, s);
      ghost var t := S();
      sequenceLengths := sequenceLengths[id := sequenceLengths[id] + 1];
      LedgerFrame(cfg, t, multiset{}, sequenceLengths, evictedPrefixBlocks);
      CowAppended(cfg, s, u, S(), c.value, id);
      return Ok(copies);
    }

    /** Takes a block for every group whose tail is shared, or none. */
    method TakeCowBlocks(id: int, block: nat) returns (r: Result<map<nat, nat>>)
      requires Valid() && id in sequenceLengths && id in evictedPrefixBlocks
      requires !Aligned(cfg, sequenceLengths[id]) && block == Tail(cfg, S(), id)
      requires PoolSizes(cfg, S()) && InRange(cfg, entries)
      modifies this
      ensures r.Ok? <==> old(CanAppend(cfg, S(), id))
      ensures r.Ok? ==> CowTaken(cfg, old(S()), S(), r.value) && Ledger(cfg, S(), Held(r.value))
      ensures r.Ok? ==> CowGroups(cfg, old(S()), r.value, id, block, Groups(cfg)) && old(TailRetained(cfg, S(), id))
      ensures r.Err? ==> Unchanged(old(S()), S()) && Valid()
      ensures r.Err? ==> r.error == if old(TailRetained(cfg, S(), id)) then RuntimeError else KeyError
    {
      hide Inv, Ledger, Unchanged, CanAppend, TailRetained, WholeBlocks, Aligned, Groups, PoolSizes, InRange,
           CowTaken, CowGroups, Held;
      ghost var s := S();
      InvPools(cfg, s);
      NothingTaken(cfg, s, id, block);
      var cow: map<nat, nat> := map[];
      for g := 0 to Groups(cfg)
        invariant CowTaken(cfg, s, S(), cow) && Ledger(cfg, S(), Held(cow))
        invariant CowGroups(cfg, s, cow, id, block, g) && forall h :: h in cow ==> h < g
      {
        var step := TakeCow(id, block, g, cow, s);
        if step.Err? {
          CannotAppendTail(cfg, s, id, cow, g);
          CowFrame(cfg, s, S(), cow);
          ReturnCowBlocks(cow, g);
          RolledBack(cfg, s, S());
          UnchangedInv(cfg, s, S());
          return step;
        }
        cow := step.value;
      }
      AllCowTaken(cfg, s, S(), id, cow);
      return Ok(cow);
    }

    method TakeCow(id: int, block: nat, g: nat, cow: map<nat, nat>, ghost s: State) returns (r: Result<map<nat, nat>>)
      requires g < Groups(cfg) && g !in cow && PoolSizes(cfg, s) && InRange(cfg, s.entries)
      requires CowTaken(cfg, s, S(), cow) && Ledger(cfg, S(), Held(cow))
      requires CowGroups(cfg, s, cow, id, block, g) && forall h :: h in cow ==> h < g
      modifies this
      ensures r.Ok? ==> CowTaken(cfg, s, S(), r.value) && Ledger(cfg, S(), Held(r.value))
      ensures r.Ok? ==> CowGroups(cfg, s, r.value, id, block, g + 1) && forall h :: h in r.value ==> h < g + 1
      ensures r.Err? ==> S() == old(S())
      ensures r.Err? <==> CowStuck(cfg, s, Key(id, block, g))
      ensures r.Err? ==> r.error == if Key(id, block, g) in s.entries then RuntimeError else KeyError
    {
      hide Ledger, CowTaken, CowGroups, Groups, Held, InRange;
      CowFrame(cfg, s, S(), cow);
      CowFrameAt(cfg, s, S(), cow, g);
      ghost var before := S();
      var key := Key(id, block, g);
      if key !in entries {
        return Err(KeyError);
      }
      InRangeAt(cfg, s.entries, key);
      if refCounts[g][entries[key].phys] > 1 {
        var b := AllocateBlock(g, Held(cow));
        if b.Err? {
          return Err(RuntimeError);
        }
        HeldAdd(cow, g, b.value);
        PoppedWasFree(cfg, before, Held(cow), g);
        CowTakenStep(cfg, s, before, cow, g);
        CowGroupsStep(cfg, s, cow, cow[g := b.value], id, block, g);
        return Ok(cow[g := b.value]);
      }
      CowGroupsStep(cfg, s, cow, cow, id, block, g);
      return Ok(cow);
    }

    /** The rollback of a failed copy-on-write. */
    method ReturnCowBlocks(cow: map<nat, nat>, upTo: nat)
      requires Ledger(cfg, S(), Held(cow)) && upTo <= Groups(cfg)
      requires forall g :: g in cow ==> g < upTo && cow[g] < cfg.numBlocks
      requires PoolSizes(cfg, S())
      modifies this
      ensures Ledger(cfg, S(), multiset{}) && PoolSizes(cfg, S())
      ensures entries == old(entries) && temporaryEntries == old(temporaryEntries)
      ensures sequenceLengths == old(sequenceLengths) && evictedPrefixBlocks == old(evictedPrefixBlocks)
    {
      hide Ledger, Held, Groups;
      ghost var rest: map<nat, nat> := cow;
      for g := 0 to upTo
        invariant Ledger(cfg, S(), Held(rest)) && PoolSizes(cfg, S())
        invariant forall h :: h in rest <==> h in cow && g <= h
        invariant forall h :: h in rest ==> rest[h] == cow[h]
        invariant entries == old(entries) && temporaryEntries == old(temporaryEntries)
        invariant sequenceLengths == old(sequenceLengths) && evictedPrefixBlocks == old(evictedPrefixBlocks)
      {
        if g in cow {
          HeldRemove(rest, g);
          LedgerRelease(cfg, S(), Held(rest - {g}), g, cow[g]);
          var _ := FreeBlock(g, cow[g]);
          rest := rest - {g};
        }
      }
      assert rest.Keys == {} && rest == map[];
      HeldNothing();
    }

    /** Records the longer tail in every group and lists the copies. */
    method CommitTail(id: int, block: nat, cow: map<nat, nat>, ghost s: State) returns (copies: seq<Copy>)
      requires PoolSizes(cfg, s) && InRange(cfg, s.entries)
      requires CowTaken(cfg, s, S(), cow) && Ledger(cfg, S(), Held(cow))
      requires CowGroups(cfg, s, cow, id, block, Groups(cfg))
      modifies this
      ensures Ledger(cfg, S(), multiset{}) && PoolSizes(cfg, S())
      ensures Committed(s.entries, entries, cow, id, block, Groups(cfg))
      ensures freeBlocks == old(freeBlocks) && temporaryEntries == s.temps
      ensures sequenceLengths == s.lens && evictedPrefixBlocks == s.evicted
      ensures forall h :: h in cow && h < Groups(cfg) ==> cow[h] < cfg.numBlocks && refCounts[h][cow[h]] == 1
      ensures copies == CowCopies(s.entries, cow, id, block, Groups(cfg))
    {
      hide Ledger, CowTaken, CowGroups, Committed, Groups, Held, InRange;
      ghost var u := S();
      ghost var rest: map<nat, nat> := cow;
      CowFrame(cfg, s, u, cow);
      NothingCommitted(s.entries, cow, id, block);
      copies := [];
      for g := 0 to Groups(cfg)
        invariant Ledger(cfg, S(), Held(rest)) && PoolSizes(cfg, S())
        invariant forall h :: h in rest <==> h in cow && g <= h
        invariant forall h :: h in rest ==> rest[h] == cow[h]
        invariant Committed(s.entries, entries, cow, id, block, g)
        invariant freeBlocks == u.free && temporaryEntries == s.temps
        invariant sequenceLengths == s.lens && evictedPrefixBlocks == s.evicted
        invariant forall h :: g <= h < Groups(cfg) ==> refCounts[h] == u.refs[h]
        invariant forall h :: h in cow && h < g ==> cow[h] < cfg.numBlocks && refCounts[h][cow[h]] == 1
        invariant copies == CowCopies(s.entries, cow, id, block, g)
      {
        CowFrameAt(cfg, s, u, cow, g);
        CowGroupsAt(cfg, s, cow, id, block, g);
        CommittedAt(s.entries, entries, cow, id, block, g);
        ghost var before := entries;
        var moved := CommitGroup(id, block, g, cow, rest);
        CommittedStep(s.entries, before, cow, id, block, g);
        copies := copies + moved;
        rest := rest - {g};
      }
      assert rest.Keys == {} && rest == map[];
      HeldNothing();
    }

    method CommitGroup(id: int, block: nat, g: nat, cow: map<nat, nat>, ghost rest: map<nat, nat>) returns (moved: seq<Copy>)
      requires PoolSizes(cfg, S()) && Ledger(cfg, S(), Held(rest)) && g < Groups(cfg)
      requires g in rest <==> g in cow
      requires Key(id, block, g) in entries && entries[Key(id, block, g)].phys < cfg.numBlocks
      requires g in cow ==>
                 && cow[g] == rest[g] < cfg.numBlocks && cow[g] != entries[Key(id, block, g)].phys
                 && refCounts[g][entries[Key(id, block, g)].phys] > 1
      modifies this
      ensures PoolSizes(cfg, S()) && Ledger(cfg, S(), Held(rest - {g}))
      ensures freeBlocks == old(freeBlocks) && temporaryEntries == old(temporaryEntries)
      ensures sequenceLengths == old(sequenceLengths) && evictedPrefixBlocks == old(evictedPrefixBlocks)
      ensures forall h :: 0 <= h < Groups(cfg) && h != g ==> refCounts[h] == old(refCounts[h])
      ensures g in cow ==> refCounts[g][cow[g]] == old(refCounts[g][cow[g]])
      ensures entries == old(entries)[Key(id, block, g) := Bumped(old(entries[Key(id, block, g)]), cow, g)]
      ensures moved == if g in cow then [Copy(g, old(entries[Key(id, block, g)].phys), cow[g])] else []
    {
      hide Ledger, Held, Groups;
      var key := Key(id, block, g);
      var entry := entries[key];
      if g in cow {
        var e := entry.(phys := cow[g], numFilled := entry.numFilled + 1);
        HeldRemove(rest, g);
        LedgerMove(cfg, S(), Held(rest - {g}), key, e);
        var _ := FreeBlock(g, entry.phys);
        moved := [Copy(g, entry.phys, cow[g])];
        entries := entries[key := e];
      } else {
        var e := entry.(numFilled := entry.numFilled + 1);
        assert rest - {g} == rest;
        LedgerRewrite(cfg, S(), Held(rest), key, e);
        entries := entries[key := e];
        moved := [];
      }
    }

    // -------------------------------------------------------------- fork, evict, free

    /** Shares all retained blocks of a sequence with a new one. */
    method ForkSequence(parent: int, child: int) returns (r: Result<()>)
      requires Valid()
      modifies this
      ensures Valid()
      ensures r.Ok? <==> old(CanFork(S(), parent, child))
      ensures r.Ok? ==> Forked(old(S()), S(), parent, child)
      ensures r.Err? ==> S() == old(S())
      ensures r.Err? ==> r.error == if child in old(sequenceLengths) then ValueError
                                    else if KeysOf(old(temporaryEntries), parent) != {} then RuntimeError else KeyError
    {
      hide Inv, Ledger, EntriesForked, KeysOf;
      LiveIds(cfg, S());
      InvPools(cfg, S());
      if child in sequenceLengths {
        return Err(ValueError);
      }
      if exists k :: k in temporaryEntries && k.seqId == parent {
        SomeKey(temporaryEntries, parent);
        return Err(RuntimeError);
      }
      NoKeyOf(temporaryEntries, parent);
      ghost var s := S();
      NoKeysOf(cfg, s, child);
      if parent !in sequenceLengths {
        return Err(KeyError);
      }
      ShareBlocks(parent, child);
      sequenceLengths := sequenceLengths[child := sequenceLengths[parent]];
      evictedPrefixBlocks := evictedPrefixBlocks[child := evictedPrefixBlocks[parent]];
      LedgerFrame(cfg, s.(entries := entries, refs := refCounts), multiset{}, sequenceLengths, evictedPrefixBlocks);
      ForkedInv(cfg, s, S(), parent, child);
      return Ok(());
    }

    method ShareBlocks(parent: int, child: int)
      requires Ledger(cfg, S(), multiset{}) && parent != child && KeysOf(entries, child) == {}
      modifies this
      ensures Ledger(cfg, S(), multiset{})
      ensures EntriesForked(old(entries), entries, parent, child, KeysOf(old(entries), parent))
      ensures S() == old(S()).(entries := entries, refs := refCounts)
    {
      hide Ledger, EntriesForked;
      ghost var s := S();
      var todo := set k | k in entries && k.seqId == parent;
      NothingForked(entries, parent, child);
      while todo != {}
        invariant Ledger(cfg, S(), multiset{}) && todo <= KeysOf(s.entries, parent)
        invariant EntriesForked(s.entries, entries, parent, child, KeysOf(s.entries, parent) - todo)
        invariant S() == s.(entries := entries, refs := refCounts)
      {
        var k :| k in todo;
        var done := KeysOf(s.entries, parent) - todo;
        ForkStep(s.entries, entries, parent, child, done, k);
        var entry := entries[k];
        HeldBlock(cfg, S(), multiset{}, k);
        LedgerGroups(cfg, S(), multiset{});
        var _ := RetainBlock(k.group, entry.phys, multiset{});
        var key := Key(child, k.block, k.group);
        Attach(cfg, S(), multiset{}, key, entry.(seqId := child));
        entries := entries[key := entry.(seqId := child)];
        todo := todo - {k};
        assert KeysOf(s.entries, parent) - todo == done + {k};
      }
      assert KeysOf(s.entries, parent) - todo == KeysOf(s.entries, parent);
    }

    /** Evicts whole old blocks and returns how many tokens are now evicted. */
    method EvictPrefix(id: int, numTokens: int) returns (r: Result<nat>)
      requires Valid()
      modifies this
      ensures Valid()
      ensures r.Ok? <==> old(CanEvict(cfg, S(), id, numTokens))
      ensures r.Ok? ==> var q := ClampedBlocks(cfg, old(sequenceLengths)[id], numTokens);
                        Evicted(cfg, old(S()), S(), id, q) && r.value == q * cfg.blockSize
      ensures r.Ok? ==> r.value % cfg.blockSize == 0 && MostWholeBlocks(cfg, old(sequenceLengths)[id], numTokens, r.value)
      ensures r.Err? ==> S() == old(S())
      ensures r.Err? ==> r.error == if old(temporaryEntries) != map[] then RuntimeError
                                    else if id !in old(sequenceLengths) then KeyError else ValueError
    {
      hide Inv, Ledger, NumBlocks, WholeBlocks, Groups, Span, Cells;
      LiveIds(cfg, S());
      if temporaryEntries != map[] {
        return Err(RuntimeError);
      }
      if id !in sequenceLengths {
        return Err(KeyError);
      }
      var length := sequenceLengths[id];
      var clamped := if numTokens < 0 then 0 else if numTokens < length then numTokens else length;
      var newPrefix, oldPrefix := WholeBlocks(cfg, clamped), evictedPrefixBlocks[id];
      if newPrefix < oldPrefix {
        return Err(ValueError);
      }
      ghost var s := S();
      InvPools(cfg, s);
      WholeBlocksFit(cfg, length, clamped);
      ClampedIsMost(cfg, length, numTokens);
      DropBlocks(id, oldPrefix, newPrefix);
      ghost var t := S();
      evictedPrefixBlocks := evictedPrefixBlocks[id := newPrefix];
      LedgerFrame(cfg, t, multiset{}, sequenceLengths, evictedPrefixBlocks);
      EvictedInv(cfg, s, S(), id, newPrefix);
      return Ok(newPrefix * cfg.blockSize);
    }

    method DropBlocks(id: int, lo: nat, hi: nat)
      requires Valid() && id in sequenceLengths && id in evictedPrefixBlocks
      requires evictedPrefixBlocks[id] == lo <= hi <= NumBlocks(cfg, sequenceLengths[id])
      modifies this
      ensures Ledger(cfg, S(), multiset{})
      ensures entries == old(entries) - Span(cfg, id, lo, hi) && temporaryEntries == old(temporaryEntries)
      ensures sequenceLengths == old(sequenceLengths) && evictedPrefixBlocks == old(evictedPrefixBlocks)
    {
      hide Inv, Ledger, NumBlocks, Groups;
      ghost var s := S();
      InvPools(cfg, s);
      for l := lo to hi
        invariant Ledger(cfg, S(), multiset{})
        invariant entries == s.entries - Span(cfg, id, lo, l) && temporaryEntries == s.temps
        invariant sequenceLengths == s.lens && evictedPrefixBlocks == s.evicted
      {
        ghost var before := entries;
        for g := 0 to Groups(cfg)
          invariant Ledger(cfg, S(), multiset{})
          invariant entries == before - Cells(id, l, l + 1, 0, g) && temporaryEntries == s.temps
          invariant sequenceLengths == s.lens && evictedPrefixBlocks == s.evicted
        {
          EvictKeyStored(cfg, s, id, l, g);
          PopEntry(Key(id, l, g));
        }
        SpanJoin(cfg, id, lo, l);
      }
    }

    /** Forgets a sequence; unknown sequences are ignored. */
    method FreeSequence(id: int)
      requires Valid()
      modifies this
      ensures Valid() && Freed(old(S()), S(), id)
    {
      hide Inv, Ledger;
      ghost var s := S();
      InvPools(cfg, s);
      DropAllBlocks(id);
      DropAllTemporaries(id);
      ghost var t := S();
      sequenceLengths := sequenceLengths - {id};
      evictedPrefixBlocks := evictedPrefixBlocks - {id};
      LedgerFrame(cfg, t, multiset{}, sequenceLengths, evictedPrefixBlocks);
      FreedInv(cfg, s, S(), id);
    }

    method DropAllBlocks(id: int)
      requires Ledger(cfg, S(), multiset{})
      modifies this
      ensures Ledger(cfg, S(), multiset{})
      ensures entries == old(entries) - KeysOf(old(entries), id) && temporaryEntries == old(temporaryEntries)
      ensures sequenceLengths == old(sequenceLengths) && evictedPrefixBlocks == old(evictedPrefixBlocks)
    {
      hide Ledger;
      ghost var s := S();
      var keys := set k | k in entries && k.seqId == id;
      while keys != {}
        invariant Ledger(cfg, S(), multiset{}) && keys <= KeysOf(s.entries, id)
        invariant entries == s.entries - (KeysOf(s.entries, id) - keys) && temporaryEntries == s.temps
        invariant sequenceLengths == s.lens && evictedPrefixBlocks == s.evicted
      {
        var k :| k in keys;
        PopEntry(k);
        keys := keys - {k};
      }
    }

    method DropAllTemporaries(id: int)
      requires Ledger(cfg, S(), multiset{})
      modifies this
      ensures Ledger(cfg, S(), multiset{})
      ensures temporaryEntries == old(temporaryEntries) - KeysOf(old(temporaryEntries), id) && entries == old(entries)
      ensures sequenceLengths == old(sequenceLengths) && evictedPrefixBlocks == old(evictedPrefixBlocks)
    {
      hide Ledger;
      ghost var s := S();
      var keys := set k | k in temporaryEntries && k.seqId == id;
      while keys != {}
        invariant Ledger(cfg, S(), multiset{}) && keys <= KeysOf(s.temps, id)
        invariant temporaryEntries == s.temps - (KeysOf(s.temps, id) - keys) && entries == s.entries
        invariant sequenceLengths == s.lens && evictedPrefixBlocks == s.evicted
      {
        var k :| k in keys;
        PopTemporary(k);
        keys := keys - {k};
      }
    }

    // -------------------------------------------------------------- tables and slots

    method GetRetainedBlockTable(id: int, g: nat) returns (table: seq<nat>)
      requires Valid() && g < Groups(cfg)
      ensures table == RetainedTable(cfg, S(), id, g)
    {
      hide Inv, RetainedTable, Blocks, Cells, Groups;
      var todo := set k | k in entries && k.seqId == id && k.group == g;
      ghost var lo, hi := RetainedRange(cfg, S(), id, g);
      table := [];
      NoBlocks(S(), id, g, lo);
      while todo != {}
        invariant |table| <= hi - lo && todo == Cells(id, lo + |table|, hi, g, g + 1) && todo <= entries.Keys
        invariant table == Blocks(S(), id, g, lo, lo + |table|)
      {
        LowestCell(id, lo + |table|, hi, g);
        var k :| k in todo && forall k' :: k' in todo ==> k.block <= k'.block;
        BlocksSnoc(S(), id, g, lo, lo + |table|);
        table := table + [entries[k].phys];
        todo := todo - {k};
      }
      NoCells(id, lo + |table|, hi, g);
    }

    method GetDecodeBlockTable(id: int, g: nat) returns (r: Result<seq<nat>>)
      requires Valid() && g < Groups(cfg)
      ensures r.Ok? <==> id in sequenceLengths
                         && forall l :: 0 <= l < NumBlocks(cfg, sequenceLengths[id]) ==> Cached(S(), id, l, g)
      ensures r.Ok? ==> r.value == DecodeTable(cfg, S(), id, g)
      ensures r.Err? ==> r.error == if id in sequenceLengths then RuntimeError else KeyError
    {
      hide Inv, Groups, NumBlocks;
      LiveIds(cfg, S());
      if id !in sequenceLengths {
        return Err(KeyError);
      }
      var n := NumBlocks(cfg, sequenceLengths[id]);
      var table: seq<Option<nat>> := seq(n, _ => None);
      var todo := set k | k in entries && k.seqId == id && k.group == g;
      while todo != {}
        invariant |table| == n && todo <= GroupKeysOf(entries, id, g)
        invariant forall l :: 0 <= l < n ==>
                    table[l] == if Key(id, l, g) in entries && Key(id, l, g) !in todo
                                then Some(entries[Key(id, l, g)].phys) else None
      {
        var k :| k in todo;
        CachedBlocks(cfg, S(), id, g, k.block);
        assert k == Key(id, k.block, g);
        table := table[k.block := Some(entries[k].phys)];
        todo := todo - {k};
      }
      todo := set k | k in temporaryEntries && k.seqId == id && k.group == g;
      while todo != {}
        invariant |table| == n && todo <= GroupKeysOf(temporaryEntries, id, g)
        invariant forall l :: 0 <= l < n ==>
                    table[l] == if Key(id, l, g) in temporaryEntries && Key(id, l, g) !in todo
                                then Some(temporaryEntries[Key(id, l, g)].phys)
                                else if Key(id, l, g) in entries then Some(entries[Key(id, l, g)].phys) else None
      {
        var k :| k in todo;
        CachedBlocks(cfg, S(), id, g, k.block);
        assert k == Key(id, k.block, g);
        table := table[k.block := Some(temporaryEntries[k].phys)];
        todo := todo - {k};
      }
      if exists l :: 0 <= l < n && table[l].None? {
        ghost var l :| 0 <= l < n && table[l].None?;
        assert !Cached(S(), id, l, g);
        return Err(RuntimeError);
      }
      return Ok(seq<nat>(n, l requires 0 <= l < n => table[l].value));
    }

    /** The slots of the active temporary prefix. */
    method GetRecomputeSlotMapping(id: int, g: nat) returns (r: Result<seq<nat>>)
      requires Valid()
      ensures r.Ok? <==> id in evictedPrefixBlocks
                         && forall l :: 0 <= l < evictedPrefixBlocks[id] ==> Key(id, l, g) in temporaryEntries
      ensures r.Ok? ==> r.value == SlotsOf(cfg, Blocks(S(), id, g, 0, evictedPrefixBlocks[id]))
      ensures r.Err? ==> r.error == if id in evictedPrefixBlocks then RuntimeError else KeyError
    {
      hide Inv, SlotsOf, Blocks;
      if id !in evictedPrefixBlocks {
        return Err(KeyError);
      }
      var slots: seq<nat> := [];
      NoSlots(cfg, S(), id, g);
      for l := 0 to evictedPrefixBlocks[id]
        invariant slots == SlotsOf(cfg, Blocks(S(), id, g, 0, l))
        invariant forall l' :: 0 <= l' < l ==> Key(id, l', g) in temporaryEntries
      {
        var key := Key(id, l, g);
        if key !in temporaryEntries {
          return Err(RuntimeError);
        }
        BlocksSnoc(S(), id, g, 0, l);
        SlotsSnoc(cfg, Blocks(S(), id, g, 0, l), temporaryEntries[key].phys);
        slots := slots + BlockSlots(cfg, temporaryEntries[key].phys);
      }
      return Ok(slots);
    }

    method GetDecodeSlot(id: int, g: nat) returns (r: Result<nat>)
      requires Valid() && g < Groups(cfg)
      ensures r.Ok? <==> NewestRetained(cfg, S(), id)
      ensures r.Ok? ==> r.value == DecodeSlot(cfg, S(), id, g)
      ensures r.Err? ==> r.error == KeyError
    {
      hide Inv, Groups;
      LiveIds(cfg, S());
      if id !in sequenceLengths {
        return Err(KeyError);
      }
      NewestStored(cfg, S(), id, g);
      var numTokens := sequenceLengths[id];
      var key := Key(id, (numTokens - 1) / cfg.blockSize, g);
      if key !in entries {
        return Err(KeyError);
      }
      NewestNotTemporary(cfg, S(), id, g);
      return Ok(entries[key].phys * cfg.blockSize + (numTokens - 1) % cfg.blockSize);
    }

    // -------------------------------------------------------------- recompute leases

    /** Puts a sequence's evicted prefix on temporary blocks of one group; returns the full table. */
    method BeginRecompute(id: int, g: int) returns (r: Result<seq<nat>>)
      requires Valid()
      modifies this
      ensures Valid()
      ensures r.Ok? <==> old(CanBegin(cfg, S(), id, g))
      ensures r.Ok? ==> id in sequenceLengths && Leased(cfg, old(S()), S(), id, g) && r.value == DecodeTable(cfg, S(), id, g)
      ensures r.Err? ==> Unchanged(old(S()), S())
      ensures r.Err? ==> r.error == if g < 0 || g >= Groups(cfg) then ValueError
                                    else if id !in old(evictedPrefixBlocks) then KeyError else RuntimeError
    {
      hide Inv, Ledger, Unchanged, Leased, DecodeTable, TempsGrown, RetainedTable, KeysOf;
      UnchangedSelf(S());
      LiveIds(cfg, S());
      InvPools(cfg, S());
      if g < 0 || g >= Groups(cfg) {
        return Err(ValueError);
      }
      if id !in evictedPrefixBlocks {
        return Err(KeyError);
      }
      var prefix := evictedPrefixBlocks[id];
      ghost var s := S();
      if prefix == 0 {
        NothingToLease(cfg, s, id, g);
        var table := GetRetainedBlockTable(id, g);
        return Ok(table);
      }
      if exists k :: k in temporaryEntries && k.seqId == id {
        SomeKey(temporaryEntries, id);
        return Err(RuntimeError);
      }
      NoKeyOf(temporaryEntries, id);
      var ok := AllocatePrefix(id, g, prefix);
      if !ok {
        UnchangedInv(cfg, s, S());
        return Err(RuntimeError);
      }
      LeasedByPrefix(cfg, s, S(), id, g);
      LeasedInv(cfg, s, S(), id, g);
      LeasedCaches(cfg, s, S(), id, g);
      r := GetDecodeBlockTable(id, g);
    }

    /** Records temporaries for the first n blocks, or rolls back. */
    method AllocatePrefix(id: int, g: nat, n: nat) returns (ok: bool)
      requires Ledger(cfg, S(), multiset{}) && g < Groups(cfg) && |freeBlocks| == Groups(cfg)
      requires KeysOf(temporaryEntries, id) == {}
      modifies this
      ensures Ledger(cfg, S(), multiset{})
      ensures ok <==> old(|freeBlocks[g]|) >= n
      ensures ok ==> TempsGrown(cfg, old(S()), S(), id, g, n)
      ensures ok ==> freeBlocks == old(freeBlocks)[g := old(freeBlocks[g])[n..]]
      ensures ok ==> entries == old(entries) && sequenceLengths == old(sequenceLengths)
                     && evictedPrefixBlocks == old(evictedPrefixBlocks)
      ensures !ok ==> Unchanged(old(S()), S())
    {
      hide Ledger, TempsGrown, Unchanged, Groups;
      ghost var s := S();
      NoTempsGrown(cfg, s, id, g);
      ok := true;
      for l := 0 to n
        invariant ok && Ledger(cfg, S(), multiset{}) && TempsGrown(cfg, s, S(), id, g, l)
        invariant |s.free[g]| >= l && freeBlocks == s.free[g := s.free[g][l..]]
        invariant entries == s.entries && sequenceLengths == s.lens && evictedPrefixBlocks == s.evicted
      {
        NotAmongKeys(s.temps, id, l, g);
        ok := RecordTemporary(id, l, g, s);
        if !ok {
          TempsReturned(cfg, s, S(), id, g, l);
          ReturnPrefix(id, g, l);
          RolledBack(cfg, s, S());
          return;
        }
      }
    }

    /** Takes the next free block of a group for one temporary. */
    method RecordTemporary(id: int, l: nat, g: nat, ghost s: State) returns (ok: bool)
      requires Ledger(cfg, S(), multiset{}) && TempsGrown(cfg, s, S(), id, g, l)
      requires |freeBlocks| == Groups(cfg) && g < Groups(cfg) && Key(id, l, g) !in s.temps
      modifies this
      ensures Ledger(cfg, S(), multiset{})
      ensures ok <==> old(freeBlocks[g]) != []
      ensures !ok ==> S() == old(S())
      ensures ok ==> TempsGrown(cfg, s, S(), id, g, l + 1)
      ensures ok ==> freeBlocks == old(freeBlocks)[g := old(freeBlocks[g])[1..]]
      ensures entries == old(entries) && sequenceLengths == old(sequenceLengths)
              && evictedPrefixBlocks == old(evictedPrefixBlocks)
    {
      hide Ledger, TempsGrown, Groups;
      ghost var t := S();
      var key := Key(id, l, g);
      var b := AllocateBlock(g, multiset{});
      if b.Err? {
        return false;
      }
      TempStep(cfg, s, t, id, g, l);
      temporaryEntries := temporaryEntries[key := TemporaryEntry(cfg, key, b.value)];
      assert S() == RecordedTemp(cfg, t, key);
      return true;
    }

    method ReturnPrefix(id: int, g: nat, n: nat)
      requires Ledger(cfg, S(), multiset{}) && Cells(id, 0, n, g, g + 1) <= temporaryEntries.Keys
      modifies this
      ensures Ledger(cfg, S(), multiset{})
      ensures temporaryEntries == old(temporaryEntries) - Cells(id, 0, n, g, g + 1) && entries == old(entries)
      ensures sequenceLengths == old(sequenceLengths) && evictedPrefixBlocks == old(evictedPrefixBlocks)
    {
      hide Ledger, Cells;
      NoCells(id, 0, 0, g);
      for l := 0 to n
        invariant Ledger(cfg, S(), multiset{}) && entries == old(entries)
        invariant temporaryEntries == old(temporaryEntries) - Cells(id, 0, l, g, g + 1)
        invariant sequenceLengths == old(sequenceLengths) && evictedPrefixBlocks == old(evictedPrefixBlocks)
      {
        CellIn(id, l, n, g);
        CellsColumn(id, l, g);
        PopTemporary(Key(id, l, g));
      }
    }

    method EndRecompute(id: int, g: nat)
      requires Valid()
      modifies this
      ensures Valid() && Ended(old(S()), S(), id, g)
    {
      hide Inv, Ledger;
      ghost var s := S();
      InvPools(cfg, s);
      var keys := set k | k in temporaryEntries && k.seqId == id && k.group == g;
      while keys != {}
        invariant Ledger(cfg, S(), multiset{}) && keys <= GroupKeysOf(s.temps, id, g)
        invariant temporaryEntries == s.temps - (GroupKeysOf(s.temps, id, g) - keys) && entries == s.entries
        invariant sequenceLengths == s.lens && evictedPrefixBlocks == s.evicted
      {
        var k :| k in keys;
        PopTemporary(k);
        keys := keys - {k};
      }
      EndedInv(cfg, s, S(), id, g);
    }

    // -------------------------------------------------------------- plans

    /** Reserves one layer group's temporary blocks for a batch and returns its addresses. */
    method AcquireLayerGroupPlan(ids: seq<int>, g: int) returns (r: Result<Plan>)
      requires Valid()
      modifies this
      ensures Valid()
      ensures 0 <= g < Groups(cfg) ==> (r.Ok? <==> PlanFeasible(cfg, old(S()), ids, g))
      ensures 0 <= g < Groups(cfg) && r.Ok? ==> LeasedAll(cfg, old(S()), S(), ids, g) && r.value == PlanOf(cfg, S(), ids, g)
      ensures !(0 <= g < Groups(cfg)) ==> r == (if ids == [] then Ok(Plan([], [], [])) else Err(ValueError)) && S() == old(S())
      ensures r.Err? ==> Unchanged(old(S()), S())
    {
      hide Inv, Groups, Unchanged, PlanFeasible, LeasedAll, PlanOf;
      ghost var s := S();
      if !(0 <= g < Groups(cfg)) {
        UnchangedSelf(S());
        return if ids == [] then Ok(Plan([], [], [])) else Err(ValueError);
      }
      InvPools(cfg, s);
      NothingLeased(cfg, s, g);
      var plan := Plan([], [], []);
      for i := 0 to |ids|
        invariant Valid() && PlanFeasible(cfg, s, ids[..i], g)
        invariant LeasedAll(cfg, s, S(), ids[..i], g) && plan == PlanOf(cfg, S(), ids[..i], g)
      {
        assert ids[..i + 1] == ids[..i] + [ids[i]];
        var p := LeaseOne(ids[..i], ids[i], g, plan, s);
        if p.Err? {
          if PlanFeasible(cfg, s, ids, g) { FeasiblePrefix(cfg, s, ids, g, i + 1); }
          return Err(p.error);
        }
        plan := p.value;
      }
      assert ids[..|ids|] == ids;
      return Ok(plan);
    }

    /** Adds one sequence to a leased batch; on any exception the whole batch is released. */
    method LeaseOne(before: seq<int>, id: int, g: nat, plan: Plan, ghost s: State) returns (r: Result<Plan>)
      requires Valid() && g < Groups(cfg) && Inv(cfg, s)
      requires PlanFeasible(cfg, s, before, g) && LeasedAll(cfg, s, S(), before, g)
      requires plan == PlanOf(cfg, S(), before, g)
      modifies this
      ensures Valid()
      ensures r.Ok? <==> PlanFeasible(cfg, s, before + [id], g)
      ensures r.Ok? ==> LeasedAll(cfg, s, S(), before + [id], g) && r.value == PlanOf(cfg, S(), before + [id], g)
      ensures r.Err? ==> Unchanged(s, S())
    {
      hide Inv, Groups, Unchanged, PlanFeasible, LeasedAll, LeasedTemps, PlanOf, Leased, CanBegin, NewestRetained, SlotsOf, Blocks, EndedAll;
      ghost var t := S();
      FeasibleStep(cfg, s, t, before, id, g);
      LeasedFrame(cfg, s, t, before, g);
      LeasedIs(cfg, s, t, before, g);
      var table := BeginRecompute(id, g);
      if table.Err? {
        ghost var t' := S();
        UnchangedLease(cfg, s, t, t', before, g);
        ReleaseLayerGroupPlan(before, g);
        AllReturned(cfg, s, t', S(), before, g);
        return Err(table.error);
      }
      ghost var u := S();
      LeaseKept(cfg, s, t, u, before, id, g);
      LeasedIs(cfg, s, u, before + [id], g);
      var slots := GetRecomputeSlotMapping(id, g);
      var slot := GetDecodeSlot(id, g);
      if slot.Err? {
        ReleaseLayerGroupPlan(before + [id], g);
        AllReturned(cfg, s, u, S(), before + [id], g);
        return Err(KeyError);
      }
      return Ok(Plan(plan.recomputeSlots + slots.value, plan.decodeSlots + [slot.value], plan.decodeTables + [table.value]));
    }

    /** Releases the temporary blocks reserved for a batch. */
    method ReleaseLayerGroupPlan(ids: seq<int>, g: nat)
      requires Valid()
      modifies this
      ensures Valid() && EndedAll(old(S()), S(), ids, g)
    {
      hide Inv, EndedAll, Ended;
      ghost var s := S();
      NothingEnded(s, g);
      for i := 0 to |ids|
        invariant Valid() && EndedAll(s, S(), ids[..i], g)
      {
        ghost var t := S();
        EndRecompute(ids[i], g);
        EndedStep(s, t, S(), ids[..i], ids[i], g);
        assert ids[..i + 1] == ids[..i] + [ids[i]];
      }
      assert ids[..|ids|] == ids;
    }

    /** One plan per layer group; every temporary block is released again before returning. */
    method BuildLayerGroupPlans(ids: seq<int>) returns (r: Result<seq<Plan>>, ghost leased: seq<State>)
      requires Valid()
      modifies this
      ensures Valid() && Unchanged(old(S()), S())
      ensures r.Ok? <==> forall g :: 0 <= g < Groups(cfg) ==> PlanFeasible(cfg, old(S()), ids, g)
      ensures r.Ok? ==> |r.value| == |leased| == Groups(cfg) && PartitionsLayers(cfg, |r.value|)
      ensures r.Ok? ==> forall g :: 0 <= g < Groups(cfg) ==>
                          && Inv(cfg, leased[g]) && LeasedTemps(cfg, old(S()), leased[g], ids, g)
                          && r.value[g] == PlanOf(cfg, leased[g], ids, g)
    {
      hide Inv, Groups, Unchanged, PlanFeasible, LeasedAll, LeasedTemps, PlanOf, EndedAll;
      ghost var s := S();
      InvPools(cfg, s);
      GroupsPartition(cfg);
      UnchangedSelf(s);
      leased := [];
      var plans: seq<Plan> := [];
      for g := 0 to Groups(cfg)
        invariant Valid() && Unchanged(s, S()) && |plans| == |leased| == g
        invariant forall h :: 0 <= h < g ==> PlanFeasible(cfg, s, ids, h)
        invariant forall h :: 0 <= h < g ==>
                    && Inv(cfg, leased[h]) && LeasedTemps(cfg, s, leased[h], ids, h)
                    && plans[h] == PlanOf(cfg, leased[h], ids, h)
      {
        ghost var t := S();
        SameFeasible(cfg, s, t, ids, g);
        var plan := AcquireLayerGroupPlan(ids, g);
        if plan.Err? {
          UnchangedTrans(s, t, S());
          return Err(plan.error), leased;
        }
        ghost var u := S();
        LeasedIs(cfg, t, u, ids, g);
        ReleaseLayerGroupPlan(ids, g);
        AllReturned(cfg, t, u, S(), ids, g);
        UnchangedTrans(s, t, S());
        LeasedLater(cfg, s, t, u, ids, g);
        plans, leased := plans + [plan.value], leased + [u];
      }
      return Ok(plans), leased;
    }
  }
}
