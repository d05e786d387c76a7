/** Layer-group plans: which batches can be leased, and what the leased addresses are. */
module KVPlans {
  import opened Arithmetic
  import opened KVState
  import opened KVSpec
  import opened KVAppend
  import opened KVSharing
  import opened KVRecompute

  ghost function EvictedOf(s: State, id: int): nat {
    if id in s.evicted then s.evicted[id] else 0
  }

  ghost function SumEvicted(s: State, ids: seq<int>): nat {
    if ids == [] then 0 else SumEvicted(s, ids[..|ids| - 1]) + EvictedOf(s, ids[|ids| - 1])
  }

  /**
   A batch can be leased in group g exactly when every sequence is live with its
   newest block retained, sequences with an evicted prefix occur once and have no
   active temporaries, and the group has a free block for every evicted one.
   */
  ghost predicate PlanFeasible(c: Config, s: State, ids: seq<int>, g: nat) {
    && g < |s.free|
    && (forall i :: 0 <= i < |ids| ==> NewestRetained(c, s, ids[i]))
    && (forall i :: 0 <= i < |ids| && EvictedOf(s, ids[i]) > 0 ==> KeysOf(s.temps, ids[i]) == {})
    && (forall i, j :: 0 <= i < j < |ids| && ids[i] == ids[j] ==> EvictedOf(s, ids[i]) == 0)
    && |s.free[g]| >= SumEvicted(s, ids)
  }

  /** The temporary keys a lease of the batch adds. */
  ghost function LeaseKeys(s: State, ids: seq<int>, g: nat): set<Key> {
    if ids == [] then {} else
    LeaseKeys(s, ids[..|ids| - 1], g) + Cells(ids[|ids| - 1], 0, EvictedOf(s, ids[|ids| - 1]), g, g + 1)
  }

  /** The batch's prefixes sit on fresh temporary blocks of group g; no other entry changed. */
  ghost predicate LeasedTemps(c: Config, s: State, t: State, ids: seq<int>, g: nat) {
    && t.entries == s.entries && t.lens == s.lens && t.evicted == s.evicted && g < Groups(c)
    && t.temps.Keys == s.temps.Keys + LeaseKeys(s, ids, g)
    && s.temps.Keys !! LeaseKeys(s, ids, g)
    && (forall k :: k in s.temps ==> t.temps[k] == s.temps[k])
    && Fresh(c, s, t, t.temps, LeaseKeys(s, ids, g))
  }

  /** A lease of the batch took its blocks from the head of group g's deque. */
  ghost predicate LeasedAll(c: Config, s: State, t: State, ids: seq<int>, g: nat) {
    && LeasedTemps(c, s, t, ids, g)
    && |s.free| == |t.free| == Groups(c)
    && SumEvicted(s, ids) <= |s.free[g]|
    && t.free == s.free[g := s.free[g][SumEvicted(s, ids)..]]
  }

  ghost function PrefixBlocks(s: State, id: int, g: nat): seq<nat> {
    Blocks(s, id, g, 0, EvictedOf(s, id))
  }

  ghost function AllPrefixBlocks(s: State, ids: seq<int>, g: nat): seq<nat> {
    if ids == [] then [] else AllPrefixBlocks(s, ids[..|ids| - 1], g) + PrefixBlocks(s, ids[|ids| - 1], g)
  }

  ghost function PlanOf(c: Config, s: State, ids: seq<int>, g: nat): Plan {
    Plan(SlotsOf(c, AllPrefixBlocks(s, ids, g)),
         seq<nat>(|ids|, i requires 0 <= i < |ids| => DecodeSlot(c, s, ids[i], g)),
         seq<seq<nat>>(|ids|, i requires 0 <= i < |ids| => DecodeTable(c, s, ids[i], g)))
  }

  // ---------------------------------------------------------------- feasibility, one sequence at a time

  lemma NothingLeased(c: Config, s: State, g: nat)
    requires Ledger(c, s, multiset{}) && g < Groups(c)
    ensures LeasedAll(c, s, s, [], g) && PlanFeasible(c, s, [], g) && PlanOf(c, s, [], g) == Plan([], [], [])
  {
  }

  lemma {:induction false} InLeaseKeys(s: State, ids: seq<int>, g: nat, k: Key)
    ensures k in LeaseKeys(s, ids, g) <==> k.seqId in ids && k.block < EvictedOf(s, k.seqId) && k.group == g
  {
    if ids != [] {
      var n := |ids| - 1;
      assert ids == ids[..n] + [ids[n]];
      InLeaseKeys(s, ids[..n], g, k);
      assert k in Cells(ids[n], 0, EvictedOf(s, ids[n]), g, g + 1) <==>
             k.seqId == ids[n] && k.block < EvictedOf(s, ids[n]) && k.group == g;
    }
  }

  /** Extending a leased batch by one sequence succeeds exactly when the longer batch is feasible. */
  lemma FeasibleStep(c: Config, s: State, t: State, ids: seq<int>, id: int, g: nat)
    requires LeasedAll(c, s, t, ids, g) && PlanFeasible(c, s, ids, g)
    ensures PlanFeasible(c, s, ids + [id], g) <==> CanBegin(c, t, id, g) && NewestRetained(c, s, id)
    ensures CanBegin(c, t, id, g) && EvictedOf(s, id) > 0 ==> id !in ids
  {
    hide Fresh, NewestRetained, PlanFeasible, CanBegin, LeasedAll;
    LeasedTwice(c, s, t, ids, id, g);
    if PlanFeasible(c, s, ids + [id], g) { FeasibleCanBegin(c, s, t, ids, id, g); }
    if CanBegin(c, t, id, g) && NewestRetained(c, s, id) { CanBeginFeasible(c, s, t, ids, id, g); }
  }

  /** A sequence with a leased prefix cannot begin again. */
  lemma LeasedTwice(c: Config, s: State, t: State, ids: seq<int>, id: int, g: nat)
    requires LeasedAll(c, s, t, ids, g)
    ensures CanBegin(c, t, id, g) && EvictedOf(s, id) > 0 ==> id !in ids
  {
    hide Fresh;
    if EvictedOf(s, id) > 0 && id in ids {
      InLeaseKeys(s, ids, g, Key(id, 0, g));
      assert Key(id, 0, g) in KeysOf(t.temps, id);
    }
  }

  lemma FeasibleCanBegin(c: Config, s: State, t: State, ids: seq<int>, id: int, g: nat)
    requires LeasedAll(c, s, t, ids, g) && PlanFeasible(c, s, ids + [id], g)
    ensures CanBegin(c, t, id, g) && NewestRetained(c, s, id)
  {
    hide Fresh;
    var n, all := |ids|, ids + [id];
    assert all[..n] == ids && all[n] == id;
    if EvictedOf(s, id) > 0 {
      forall j | 0 <= j < n ensures ids[j] != id { assert all[j] == ids[j]; }
      SameKeysOf(s, t, ids, id, g);
    }
  }

  lemma CanBeginFeasible(c: Config, s: State, t: State, ids: seq<int>, id: int, g: nat)
    requires LeasedAll(c, s, t, ids, g) && PlanFeasible(c, s, ids, g)
    requires CanBegin(c, t, id, g) && NewestRetained(c, s, id)
    requires EvictedOf(s, id) > 0 ==> id !in ids
    ensures PlanFeasible(c, s, ids + [id], g)
  {
    hide Fresh, NewestRetained, KeysOf;
    var n, all := |ids|, ids + [id];
    assert all[..n] == ids && all[n] == id;
    if EvictedOf(s, id) > 0 { SameKeysOf(s, t, ids, id, g); }
    forall i, j | 0 <= i < j < |all| && all[i] == all[j] ensures EvictedOf(s, all[i]) == 0 {
      assert all[i] == ids[i] && (j < n ==> all[j] == ids[j]);
    }
  }

  /** Leasing other sequences leaves this one's temporaries alone. */
  lemma SameKeysOf(s: State, t: State, ids: seq<int>, id: int, g: nat)
    requires t.temps.Keys == s.temps.Keys + LeaseKeys(s, ids, g) && id !in ids
    ensures KeysOf(t.temps, id) == KeysOf(s.temps, id)
  {
    forall k | k in KeysOf(t.temps, id) ensures k in KeysOf(s.temps, id) { InLeaseKeys(s, ids, g, k); }
  }

  lemma FeasiblePrefix(c: Config, s: State, ids: seq<int>, g: nat, n: nat)
    requires g < |s.free| && n <= |ids| && PlanFeasible(c, s, ids, g)
    ensures PlanFeasible(c, s, ids[..n], g)
  {
    hide NewestRetained, KeysOf, EvictedOf;
    SumPrefix(s, ids, n);
  }

  lemma {:induction false} SumPrefix(s: State, ids: seq<int>, n: nat)
    requires n <= |ids|
    ensures SumEvicted(s, ids[..n]) <= SumEvicted(s, ids)
  {
    if n < |ids| {
      SumPrefix(s, ids[..|ids| - 1], n);
      assert ids[..|ids| - 1][..n] == ids[..n];
    } else {
      assert ids[..n] == ids;
    }
  }

  // ---------------------------------------------------------------- leasing one more sequence

  lemma LeasedFrame(c: Config, s: State, t: State, ids: seq<int>, g: nat)
    requires LeasedAll(c, s, t, ids, g)
    ensures t.entries == s.entries && t.lens == s.lens && t.evicted == s.evicted
  {
    hide Fresh;
  }

  lemma FreshChain(c: Config, s: State, t: State, u: State, a: set<Key>, b: set<Key>)
    requires Fresh(c, s, t, t.temps, a) && Fresh(c, t, u, u.temps, b)
    requires forall k :: k in a ==> k in u.temps && u.temps[k] == t.temps[k]
    ensures Fresh(c, s, u, u.temps, a + b)
  {
    forall k | k in a + b
      ensures k.group < Groups(c) && k in u.temps && u.temps[k].phys < c.numBlocks
      ensures s.refs[k.group][u.temps[k].phys] == 0 && u.refs[k.group][u.temps[k].phys] == 1
    {
      if k in a { assert t.refs[k.group][t.temps[k].phys] == 1; }
    }
  }

  lemma LeaseStep(c: Config, s: State, t: State, u: State, ids: seq<int>, id: int, g: nat)
    requires LeasedAll(c, s, t, ids, g) && Leased(c, t, u, id, g)
    ensures LeasedAll(c, s, u, ids + [id], g)
  {
    var n, all := |ids|, ids + [id];
    assert all[..n] == ids && all[n] == id;
    var a, b := LeaseKeys(s, ids, g), Cells(id, 0, EvictedOf(s, id), g, g + 1);
    assert LeaseKeys(s, all, g) == a + b;
    assert Fresh(c, s, u, u.temps, a + b) by { hide Cells, LeaseKeys; FreshChain(c, s, t, u, a, b); }
    hide Fresh, Cells, LeaseKeys;
    assert s.free[g][SumEvicted(s, ids)..][EvictedOf(s, id)..] == s.free[g][SumEvicted(s, all)..];
  }

  /** Two states that agree on a sequence's blocks, length and prefix. */
  ghost predicate SameView(s: State, t: State, id: int, g: nat) {
    && t.lens == s.lens && t.evicted == s.evicted
    && forall l: nat :: BlockAt(t, id, l, g) == BlockAt(s, id, l, g)
  }

  /** A lease changes no block of the sequences already in the batch. */
  lemma LeaseKeepsViews(c: Config, s: State, t: State, id: int, g: nat, other: int)
    requires Leased(c, s, t, id, g) && (other == id ==> EvictedOf(s, id) == 0)
    ensures SameView(s, t, other, g)
  {
    hide Fresh;
    forall l: nat ensures BlockAt(t, other, l, g) == BlockAt(s, other, l, g) {
      assert Key(other, l, g) !in Cells(id, 0, s.evicted[id], g, g + 1);
    }
  }

  lemma {:induction false} PlanFrame(c: Config, s: State, t: State, ids: seq<int>, g: nat)
    requires forall i :: 0 <= i < |ids| ==> SameView(s, t, ids[i], g)
    ensures AllPrefixBlocks(s, ids, g) == AllPrefixBlocks(t, ids, g)
    ensures PlanOf(c, s, ids, g) == PlanOf(c, t, ids, g)
  {
    forall i | 0 <= i < |ids|
      ensures DecodeSlot(c, s, ids[i], g) == DecodeSlot(c, t, ids[i], g)
      ensures DecodeTable(c, s, ids[i], g) == DecodeTable(c, t, ids[i], g)
    {
      assert SameView(s, t, ids[i], g);
    }
    if ids != [] {
      var n := |ids| - 1;
      assert SameView(s, t, ids[n], g);
      PlanFrame(c, s, t, ids[..n], g);
      assert PrefixBlocks(s, ids[n], g) == PrefixBlocks(t, ids[n], g);
    }
  }

  lemma {:induction false} SlotsConcat(c: Config, a: seq<nat>, b: seq<nat>)
    ensures SlotsOf(c, a + b) == SlotsOf(c, a) + SlotsOf(c, b)
  {
    if b == [] {
      assert a + b == a;
    } else {
      var n := |b| - 1;
      assert (a + b)[..|a + b| - 1] == a + b[..n];
      SlotsConcat(c, a, b[..n]);
    }
  }

  lemma PlanSnoc(c: Config, s: State, ids: seq<int>, id: int, g: nat)
    ensures PlanOf(c, s, ids + [id], g) ==
            Plan(PlanOf(c, s, ids, g).recomputeSlots + SlotsOf(c, PrefixBlocks(s, id, g)),
                 PlanOf(c, s, ids, g).decodeSlots + [DecodeSlot(c, s, id, g)],
                 PlanOf(c, s, ids, g).decodeTables + [DecodeTable(c, s, id, g)])
  {
    assert (ids + [id])[..|ids|] == ids;
    hide DecodeSlot, DecodeTable, PrefixBlocks;
    SlotsConcat(c, AllPrefixBlocks(s, ids, g), PrefixBlocks(s, id, g));
  }

  /** After one more sequence began, the earlier part of the plan still stands. */
  lemma LeaseKept(c: Config, s: State, t: State, u: State, ids: seq<int>, id: int, g: nat)
    requires LeasedAll(c, s, t, ids, g) && Leased(c, t, u, id, g) && CanBegin(c, t, id, g)
    ensures LeasedAll(c, s, u, ids + [id], g)
    ensures u.entries == s.entries && u.lens == s.lens && u.evicted == s.evicted && id in u.evicted
    ensures forall l :: 0 <= l < u.evicted[id] ==> Key(id, l, g) in u.temps
    ensures NewestRetained(c, s, id) <==> NewestRetained(c, u, id)
    ensures PlanOf(c, u, ids + [id], g) ==
            Plan(PlanOf(c, t, ids, g).recomputeSlots + SlotsOf(c, Blocks(u, id, g, 0, u.evicted[id])),
                 PlanOf(c, t, ids, g).decodeSlots + [DecodeSlot(c, u, id, g)],
                 PlanOf(c, t, ids, g).decodeTables + [DecodeTable(c, u, id, g)])
  {
    LeaseStep(c, s, t, u, ids, id, g);
    LeasedTwice(c, s, t, ids, id, g);
    LeasedFrame(c, s, t, ids, g);
    LeasedFrame(c, s, u, ids + [id], g);
    LeasedPresent(c, t, u, id, g);
    forall i | 0 <= i < |ids| ensures SameView(t, u, ids[i], g) {
      LeaseKeepsViews(c, t, u, id, g, ids[i]);
    }
    hide LeasedAll, Leased, CanBegin, SlotsOf, Blocks, DecodeSlot, DecodeTable, SameView;
    PlanFrame(c, t, u, ids, g);
    PlanSnoc(c, u, ids, id, g);
    hide PlanOf;
  }

  lemma LeasedPresent(c: Config, s: State, t: State, id: int, g: nat)
    requires Leased(c, s, t, id, g)
    ensures id in t.evicted && forall l :: 0 <= l < t.evicted[id] ==> Key(id, l, g) in t.temps
  {
    hide Fresh;
    forall l | 0 <= l < t.evicted[id] ensures Key(id, l, g) in t.temps { CellIn(id, l, t.evicted[id], g); }
  }

  // ---------------------------------------------------------------- release

  ghost predicate EndedAll(s: State, t: State, ids: seq<int>, g: nat) {
    && t.entries == s.entries && t.lens == s.lens && t.evicted == s.evicted
    && t.temps == s.temps - (set k | k in s.temps && k.seqId in ids && k.group == g)
  }

  /** Releasing the batch leaves the state of before the lease. */
  lemma AllReturned(c: Config, s: State, t: State, u: State, ids: seq<int>, g: nat)
    requires LeasedTemps(c, s, t, ids, g) && Inv(c, s) && Inv(c, u)
    requires EndedAll(t, u, ids, g)
    ensures Unchanged(s, u)
  {
    hide Inv, Ledger, LeasedTemps, Unchanged, EndedAll;
    InvPools(c, s);
    InvPools(c, u);
    OnlyOwnTemps(c, s, t, u, ids, g);
    RolledBack(c, s, u);
  }

  lemma OnlyOwnTemps(c: Config, s: State, t: State, u: State, ids: seq<int>, g: nat)
    requires LeasedTemps(c, s, t, ids, g) && Inv(c, s) && EndedAll(t, u, ids, g)
    ensures u.temps == s.temps && u.entries == s.entries && u.lens == s.lens && u.evicted == s.evicted
  {
    hide Fresh, Ledger, TablesOk;
    forall k ensures k in u.temps <==> k in s.temps { InLeaseKeys(s, ids, g, k); }
  }

  lemma NothingEnded(s: State, g: nat)
    ensures EndedAll(s, s, [], g)
  {
  }

  lemma EndedStep(s: State, t: State, u: State, ids: seq<int>, id: int, g: nat)
    requires EndedAll(s, t, ids, g) && Ended(t, u, id, g)
    ensures EndedAll(s, u, ids + [id], g)
  {
  }

  // ---------------------------------------------------------------- states equal up to deque order

  lemma UnchangedTrans(s: State, t: State, u: State)
    requires Unchanged(s, t) && Unchanged(t, u)
    ensures Unchanged(s, u)
  {
  }

  lemma SameFeasible(c: Config, s: State, t: State, ids: seq<int>, g: nat)
    requires Unchanged(s, t) && g < |s.free|
    ensures PlanFeasible(c, s, ids, g) <==> PlanFeasible(c, t, ids, g)
  {
    hide NewestRetained, KeysOf;
    assert |multiset(s.free[g])| == |s.free[g]| && |multiset(t.free[g])| == |t.free[g]|;
    SameSums(s, t, ids);
    assert forall id :: NewestRetained(c, s, id) <==> NewestRetained(c, t, id) by { NewestFrame(c, s, t); }
  }

  lemma NewestFrame(c: Config, s: State, t: State)
    requires t.lens == s.lens && t.evicted == s.evicted
    ensures forall id :: NewestRetained(c, s, id) <==> NewestRetained(c, t, id)
  {
  }

  lemma {:induction false} SameSums(s: State, t: State, ids: seq<int>)
    requires t.evicted == s.evicted
    ensures SumEvicted(s, ids) == SumEvicted(t, ids)
  {
    if ids != [] { SameSums(s, t, ids[..|ids| - 1]); }
  }

  lemma {:induction false} SameLeaseKeys(s: State, t: State, ids: seq<int>, g: nat)
    requires t.evicted == s.evicted
    ensures LeaseKeys(s, ids, g) == LeaseKeys(t, ids, g)
  {
    if ids != [] { SameLeaseKeys(s, t, ids[..|ids| - 1], g); }
  }

  /** A lease taken from an equal state is a lease from the original. */
  lemma LeasedLater(c: Config, s: State, t: State, u: State, ids: seq<int>, g: nat)
    requires Unchanged(s, t) && LeasedTemps(c, t, u, ids, g)
    ensures LeasedTemps(c, s, u, ids, g)
  {
    hide LeaseKeys;
    SameLeaseKeys(s, t, ids, g);
  }

  /** A failed step inside a lease keeps the lease, up to deque order. */
  lemma UnchangedLease(c: Config, s: State, t: State, u: State, ids: seq<int>, g: nat)
    requires LeasedTemps(c, s, t, ids, g) && Unchanged(t, u)
    ensures LeasedTemps(c, s, u, ids, g)
  {
    hide LeaseKeys;
  }

  lemma LeasedIs(c: Config, s: State, t: State, ids: seq<int>, g: nat)
    requires LeasedAll(c, s, t, ids, g)
    ensures LeasedTemps(c, s, t, ids, g)
  {
    hide LeasedTemps;
  }

  // ---------------------------------------------------------------- what the addresses are

  /** Slot x lies in block x / blockSize, and in no other. */
  lemma {:induction false} SlotInBlocks(c: Config, blocks: seq<nat>, x: nat)
    ensures x in SlotsOf(c, blocks) <==> x / c.blockSize in blocks
  {
    if blocks != [] {
      var n := |blocks| - 1;
      assert blocks == blocks[..n] + [blocks[n]];
      SlotInBlocks(c, blocks[..n], x);
      SlotInBlock(c, blocks[n], x);
      hide BlockSlots;
    }
  }

  lemma SlotInBlock(c: Config, b: nat, x: nat)
    ensures x in BlockSlots(c, b) <==> x / c.blockSize == b
  {
    var n, o := c.blockSize, x % c.blockSize;
    assert x == (x / n) * n + o;
    if x / n == b { assert BlockSlots(c, b)[o] == x; }
    if x in BlockSlots(c, b) {
      var i :| 0 <= i < n && BlockSlots(c, b)[i] == x;
      DivUnique(x, n, b, i);
    }
  }

  lemma {:induction false} DistinctSlots(c: Config, blocks: seq<nat>)
    requires NoDup(blocks)
    ensures NoDup(SlotsOf(c, blocks))
  {
    if blocks != [] {
      var n := |blocks| - 1;
      DistinctSlots(c, blocks[..n]);
      var a, b := SlotsOf(c, blocks[..n]), BlockSlots(c, blocks[n]);
      forall i, j | 0 <= i < |a| && 0 <= j < |b| ensures a[i] != b[j] {
        SlotInBlocks(c, blocks[..n], a[i]);
        SlotInBlock(c, blocks[n], b[j]);
        assert a[i] in a && b[j] in b;
      }
      NoDupConcat(a, b);
    }
  }

  lemma NoDupConcat(a: seq<nat>, b: seq<nat>)
    requires NoDup(a) && NoDup(b) && forall i, j :: 0 <= i < |a| && 0 <= j < |b| ==> a[i] != b[j]
    ensures NoDup(a + b)
  {
  }

  /** A leased temporary's block belongs to that temporary alone. */
  lemma LeasedBlockIsPrivate(c: Config, s: State, t: State, ids: seq<int>, g: nat, k: Key, k': Key)
    requires Inv(c, t) && LeasedTemps(c, s, t, ids, g) && k in LeaseKeys(s, ids, g)
    requires k'.group == g
    ensures k in t.temps
    ensures k' in t.entries ==> t.entries[k'].phys != t.temps[k].phys
    ensures k' in t.temps && k' != k ==> t.temps[k'].phys != t.temps[k].phys
  {
    InLeaseKeys(s, ids, g, k);
    InvPools(c, t);
    assert t.refs[g][t.temps[k].phys] == 1;
    hide Inv, LeaseKeys;
    if k' in t.entries { SoleTemp(c, t, k, k'); }
    if k' in t.temps && k' != k { SoleHolder(c, Flip(t), k, k') by { FlipLedger(c, t); } }
  }

  lemma FlipLedger(c: Config, s: State)
    requires Ledger(c, s, multiset{})
    ensures Ledger(c, Flip(s), multiset{})
  {
  }

  /** Every prefix block of the batch sits on a temporary of its own. */
  ghost predicate PrefixesPrivate(c: Config, t: State, ids: seq<int>, g: nat) {
    && PoolSizes(c, t) && g < Groups(c)
    && (forall i, l: nat :: 0 <= i < |ids| && l < EvictedOf(t, ids[i]) ==>
          && Key(ids[i], l, g) in t.temps && t.temps[Key(ids[i], l, g)].phys < c.numBlocks
          && t.refs[g][t.temps[Key(ids[i], l, g)].phys] == 1)
    && (forall i, j :: 0 <= i < j < |ids| && ids[i] == ids[j] ==> EvictedOf(t, ids[i]) == 0)
  }

  lemma LeasedIsPrivate(c: Config, s: State, t: State, ids: seq<int>, g: nat)
    requires LeasedTemps(c, s, t, ids, g) && PlanFeasible(c, s, ids, g)
    ensures PrefixesPrivate(c, t, ids, g)
  {
    hide NewestRetained, KeysOf, LeaseKeys;
    forall i, l: nat | 0 <= i < |ids| && l < EvictedOf(t, ids[i])
      ensures Key(ids[i], l, g) in t.temps && t.temps[Key(ids[i], l, g)].phys < c.numBlocks
      ensures t.refs[g][t.temps[Key(ids[i], l, g)].phys] == 1
    {
      InLeaseKeys(s, ids, g, Key(ids[i], l, g));
    }
  }

  lemma PrivatePrefixesDiffer(c: Config, t: State, id: int, l: nat, id': int, l': nat, g: nat)
    requires Inv(c, t) && PoolSizes(c, t) && g < Groups(c)
    requires Key(id, l, g) in t.temps && Key(id', l', g) in t.temps && (id != id' || l != l')
    requires t.temps[Key(id, l, g)].phys < c.numBlocks && t.refs[g][t.temps[Key(id, l, g)].phys] == 1
    ensures BlockAt(t, id, l, g) != BlockAt(t, id', l', g)
  {
    hide Inv, Ledger;
    InvPools(c, t);
    FlipLedger(c, t);
    SoleHolder(c, Flip(t), Key(id, l, g), Key(id', l', g));
  }

  lemma {:induction false} InAllPrefixBlocks(t: State, ids: seq<int>, g: nat, b: nat)
    requires b in AllPrefixBlocks(t, ids, g)
    ensures exists i, l: nat :: 0 <= i < |ids| && l < EvictedOf(t, ids[i]) && b == BlockAt(t, ids[i], l, g)
  {
    var n := |ids| - 1;
    if b in AllPrefixBlocks(t, ids[..n], g) {
      InAllPrefixBlocks(t, ids[..n], g, b);
      var i, l: nat :| 0 <= i < n && l < EvictedOf(t, ids[..n][i]) && b == BlockAt(t, ids[..n][i], l, g);
      assert ids[..n][i] == ids[i];
    } else {
      var l :| 0 <= l < |PrefixBlocks(t, ids[n], g)| && PrefixBlocks(t, ids[n], g)[l] == b;
      assert b == BlockAt(t, ids[n], l, g);
    }
  }

  lemma {:induction false} DistinctPrefixBlocks(c: Config, t: State, ids: seq<int>, g: nat)
    requires Inv(c, t) && PrefixesPrivate(c, t, ids, g)
    ensures NoDup(AllPrefixBlocks(t, ids, g))
  {
    hide Inv;
    if ids != [] {
      var n := |ids| - 1;
      var a, b := AllPrefixBlocks(t, ids[..n], g), PrefixBlocks(t, ids[n], g);
      DistinctPrefixBlocks(c, t, ids[..n], g);
      forall l, l' | 0 <= l < l' < |b| ensures b[l] != b[l'] {
        PrivatePrefixesDiffer(c, t, ids[n], l, ids[n], l', g);
      }
      forall x, l | 0 <= x < |a| && 0 <= l < |b| ensures a[x] != b[l] {
        assert a[x] in a;
        InAllPrefixBlocks(t, ids[..n], g, a[x]);
        var i, l': nat :| 0 <= i < n && l' < EvictedOf(t, ids[..n][i]) && a[x] == BlockAt(t, ids[..n][i], l', g);
        assert ids[..n][i] == ids[i] && ids[i] != ids[n];
        PrivatePrefixesDiffer(c, t, ids[n], l, ids[i], l', g);
      }
      NoDupConcat(a, b);
    }
  }

  /** No two recomputed tokens of a plan share a slot. */
  lemma RecomputeSlotsDistinct(c: Config, s: State, t: State, ids: seq<int>, g: nat)
    requires Inv(c, t) && LeasedTemps(c, s, t, ids, g) && PlanFeasible(c, s, ids, g)
    ensures NoDup(PlanOf(c, t, ids, g).recomputeSlots)
  {
    hide Inv, LeasedTemps, PlanFeasible;
    LeasedIsPrivate(c, s, t, ids, g);
    DistinctPrefixBlocks(c, t, ids, g);
    DistinctSlots(c, AllPrefixBlocks(t, ids, g));
  }

  /** Recomputation writes to no slot of any block that some sequence retains. */
  lemma RecomputeSlotsSpareRetained(c: Config, s: State, t: State, ids: seq<int>, g: nat, x: nat, k: Key)
    requires Inv(c, t) && LeasedTemps(c, s, t, ids, g)
    requires x in PlanOf(c, t, ids, g).recomputeSlots && k in t.entries && k.group == g
    ensures x / c.blockSize != t.entries[k].phys
  {
    hide Inv, NumBlocks;
    SlotInBlocks(c, AllPrefixBlocks(t, ids, g), x);
    InAllPrefixBlocks(t, ids, g, x / c.blockSize);
    var i, l: nat :| 0 <= i < |ids| && l < EvictedOf(t, ids[i]) && x / c.blockSize == BlockAt(t, ids[i], l, g);
    var h := Key(ids[i], l, g);
    InLeaseKeys(s, ids, g, h);
    LeasedBlockIsPrivate(c, s, t, ids, g, h, k);
  }

  lemma {:induction false} PrefixOffset(c: Config, t: State, ids: seq<int>, g: nat, i: nat, l: nat)
    requires i < |ids| && l < EvictedOf(t, ids[i])
    ensures |AllPrefixBlocks(t, ids, g)| == SumEvicted(t, ids)
    ensures SumEvicted(t, ids[..i]) + l < SumEvicted(t, ids)
    ensures AllPrefixBlocks(t, ids, g)[SumEvicted(t, ids[..i]) + l] == BlockAt(t, ids[i], l, g)
  {
    var n := |ids| - 1;
    PrefixCount(t, ids[..n], g);
    if i < n {
      assert ids[..n][..i] == ids[..i] && ids[..n][i] == ids[i];
      PrefixOffset(c, t, ids[..n], g, i, l);
    }
  }

  lemma {:induction false} PrefixCount(t: State, ids: seq<int>, g: nat)
    ensures |AllPrefixBlocks(t, ids, g)| == SumEvicted(t, ids)
  {
    if ids != [] { PrefixCount(t, ids[..|ids| - 1], g); }
  }

  /**
   Token o of evicted block l of the i-th sequence is recomputed into the very
   slot the decode kernel later reads for it through the block table.
   */
  lemma RecomputeSlotAddress(c: Config, t: State, ids: seq<int>, g: nat, i: nat, l: nat, o: nat)
    requires Inv(c, t) && i < |ids| && ids[i] in t.lens && l < EvictedOf(t, ids[i]) && o < c.blockSize
    ensures var p, at := PlanOf(c, t, ids, g), (SumEvicted(t, ids[..i]) + l) * c.blockSize + o;
            && at < |p.recomputeSlots| && l < |p.decodeTables[i]|
            && p.recomputeSlots[at] == p.decodeTables[i][l] * c.blockSize + o
  {
    assert EvictedOf(t, ids[i]) <= NumBlocks(c, t.lens[ids[i]]) by { hide Ledger, TempsOk, NumBlocks; }
    hide Inv, NumBlocks;
    PrefixOffset(c, t, ids, g, i, l);
    SlotOfToken(c, AllPrefixBlocks(t, ids, g), SumEvicted(t, ids[..i]) + l, o);
  }

  lemma LiveLength(c: Config, t: State, id: int)
    requires Inv(c, t) && id in t.lens
    ensures t.lens[id] > 0
  {
    hide Ledger, TempsOk, NumBlocks;
  }

  lemma DecodeTableAt(c: Config, t: State, id: int, g: nat, l: nat)
    requires id in t.lens && l < NumBlocks(c, t.lens[id])
    ensures |DecodeTable(c, t, id, g)| == NumBlocks(c, t.lens[id]) && DecodeTable(c, t, id, g)[l] == BlockAt(t, id, l, g)
  {
    hide NumBlocks, BlockAt;
  }

  /** The decode slot is where the table puts the newest token. */
  lemma DecodeSlotAddress(c: Config, t: State, ids: seq<int>, g: nat, i: nat)
    requires Inv(c, t) && i < |ids| && ids[i] in t.lens
    ensures var p, newest := PlanOf(c, t, ids, g), t.lens[ids[i]] - 1;
            && newest >= 0 && newest / c.blockSize < |p.decodeTables[i]|
            && p.decodeSlots[i] == p.decodeTables[i][newest / c.blockSize] * c.blockSize + newest % c.blockSize
  {
    hide Inv, NumBlocks, BlockAt, DecodeTable, AllPrefixBlocks, SlotsOf;
    LiveLength(c, t, ids[i]);
    TokenInBlock(c, t.lens[ids[i]], t.lens[ids[i]] - 1);
    DecodeTableAt(c, t, ids[i], g, (t.lens[ids[i]] - 1) / c.blockSize);
  }

  /** The newest block of a sequence is named by no other entry, in group g. */
  ghost predicate OwnsNewest(c: Config, s: State, id: int, g: nat) {
    && NewestRetained(c, s, id) && PoolSizes(c, s) && g < Groups(c)
    && BlockAt(s, id, (s.lens[id] - 1) / c.blockSize, g) < c.numBlocks
    && s.refs[g][BlockAt(s, id, (s.lens[id] - 1) / c.blockSize, g)] == 1
  }

  /** Sequences that own their newest block decode into different slots. */
  lemma DecodeSlotsDistinct(c: Config, s: State, id: int, id': int, g: nat)
    requires Inv(c, s) && id != id' && OwnsNewest(c, s, id, g) && NewestRetained(c, s, id')
    ensures DecodeSlot(c, s, id, g) != DecodeSlot(c, s, id', g)
  {
    hide Inv, NumBlocks;
    InvPools(c, s);
    NewestNotTemporary(c, s, id, g);
    NewestNotTemporary(c, s, id', g);
    var k, k' := Key(id, (s.lens[id] - 1) / c.blockSize, g), Key(id', (s.lens[id'] - 1) / c.blockSize, g);
    hide Ledger;
    SoleHolder(c, s, k, k');
    SlotsDiffer(c, s.entries[k].phys, (s.lens[id] - 1) % c.blockSize, s.entries[k'].phys, (s.lens[id'] - 1) % c.blockSize);
  }

  lemma SlotsDiffer(c: Config, b: nat, o: nat, b': nat, o': nat)
    requires o < c.blockSize && o' < c.blockSize && b != b'
    ensures b * c.blockSize + o != b' * c.blockSize + o'
  {
    DivUnique(b * c.blockSize + o, c.blockSize, b, o);
    DivUnique(b' * c.blockSize + o', c.blockSize, b', o');
  }

  /** Appending a token leaves the sequence the only owner of its newest block, in every group. */
  lemma AppendOwnsNewest(c: Config, s: State, t: State, id: int, copies: seq<Copy>, g: nat)
    requires Inv(c, s) && Inv(c, t) && Appended(c, s, t, id, copies) && TailRetained(c, s, id) && g < Groups(c)
    ensures OwnsNewest(c, t, id, g)
  {
    hide Inv, Ledger, Appended, TailRetained, Tail, NumBlocks, WholeBlocks;
    InvPools(c, t);
    AppendedNewest(c, s, t, id, copies);
    NewestNotTemporary(c, t, id, g);
    AppendedTailUnshared(c, s, t, id, copies, g);
  }

  lemma AppendedTailUnshared(c: Config, s: State, t: State, id: int, copies: seq<Copy>, g: nat)
    requires Inv(c, s) && Inv(c, t) && Appended(c, s, t, id, copies) && g < Groups(c)
    ensures id in s.lens && TailKey(c, s, id, g) in t.entries
    ensures var b := t.entries[TailKey(c, s, id, g)].phys; b < c.numBlocks && t.refs[g][b] == 1
  {
    hide Inv, Ledger, CopyList, TailGrown;
    InvPools(c, s);
    InvPools(c, t);
    assert TailPlaced(c, s, t, id, g);
    if !NeedsBlock(c, s, id, g) { KeptTailUnshared(c, s, t, id, g); }
  }

  lemma AppendedNewest(c: Config, s: State, t: State, id: int, copies: seq<Copy>)
    requires Appended(c, s, t, id, copies) && TailRetained(c, s, id) && Inv(c, s)
    ensures id in t.lens && t.lens[id] == s.lens[id] + 1 && (t.lens[id] - 1) / c.blockSize == Tail(c, s, id)
    ensures NewestRetained(c, t, id)
  {
    hide Ledger, TempsOk, CopyList, TailPlaced, NumBlocks;
    BlocksOnAppend(c, s.lens[id]);
  }

  /** A tail kept in place was referenced once before and is referenced once after. */
  lemma KeptTailUnshared(c: Config, s: State, t: State, id: int, g: nat)
    requires Ledger(c, s, multiset{}) && Ledger(c, t, multiset{}) && id in s.lens && g < Groups(c)
    requires PoolSizes(c, s) && InRange(c, s.entries) && PoolSizes(c, t) && InRange(c, t.entries)
    requires TailGrown(c, s, t, id) && TailPlaced(c, s, t, id, g) && !NeedsBlock(c, s, id, g)
    ensures t.refs[g][t.entries[TailKey(c, s, id, g)].phys] == 1
  {
    var k := TailKey(c, s, id, g);
    var b := t.entries[k].phys;
    HeldBlock(c, s, multiset{}, k);
    assert s.refs[g][b] == 1;
    var tail := Tail(c, s, id);
    assert Holders(t.entries, g, b) <= Holders(s.entries, g, b) by {
      forall h | h in Holders(t.entries, g, b) ensures h in Holders(s.entries, g, b) {
        if h in Span(c, id, tail, tail + 1) { assert h == k; }
      }
    }
    SubsetSize(Holders(t.entries, g, b), Holders(s.entries, g, b));
    assert k in Holders(t.entries, g, b);
    assert |Holders(t.entries, g, b)| >= 1;
    assert t.refs[g][b] == |Holders(t.entries, g, b)| + |Holders(t.temps, g, b)|;
    assert s.refs[g][b] == |Holders(s.entries, g, b)| + |Holders(s.temps, g, b)|;
  }
}
