/**
 The cache policy against the store: the policy counts token-layer slots of the whole
 cache, a recompute plan takes its blocks from one layer group's pool.
 */
module PolicyPlans {
  import opened Arithmetic
  import opened Results
  import opened KVState
  import opened KVSpec
  import opened KVSharing
  import opened KVRecompute
  import opened KVPlans
  import P = EllmPolicy

  // ---------------------------------------------------------------- what a group's pool holds

  /** The blocks of group g that some entry names. */
  ghost function UsedBlocks(s: State, g: nat): set<nat> {
    (set k | k in s.entries && k.group == g :: s.entries[k].phys) + (set k | k in s.temps && k.group == g :: s.temps[k].phys)
  }

  ghost function Below(n: nat): (r: set<nat>)
    ensures |r| == n && forall b :: b in r <==> 0 <= b < n
  {
    if n == 0 then {} else Below(n - 1) + {n - 1}
  }

  /** A block is used exactly if it is referenced. */
  lemma UsedIsReferenced(c: Config, s: State, g: nat, b: nat)
    requires Ledger(c, s, multiset{}) && g < Groups(c) && b < c.numBlocks
    ensures |s.refs| == Groups(c) && |s.refs[g]| == c.numBlocks && (b in UsedBlocks(s, g) <==> s.refs[g][b] > 0)
  {
    assert s.refs[g][b] == |Holders(s.entries, g, b)| + |Holders(s.temps, g, b)|;
    if k :| k in Holders(s.entries, g, b) { assert s.entries[k].phys in UsedBlocks(s, g); }
    if k :| k in Holders(s.temps, g, b) { assert s.temps[k].phys in UsedBlocks(s, g); }
    if b in UsedBlocks(s, g) {
      assert (exists k :: k in Holders(s.entries, g, b)) || exists k :: k in Holders(s.temps, g, b) by {
        if k :| k in s.entries && k.group == g && s.entries[k].phys == b {
          assert k in Holders(s.entries, g, b);
        } else {
          var k :| k in s.temps && k.group == g && s.temps[k].phys == b;
          assert k in Holders(s.temps, g, b);
        }
      }
    }
  }

  lemma FreeIsUnused(c: Config, s: State, g: nat)
    requires Ledger(c, s, multiset{}) && g < Groups(c)
    ensures |s.free| == Groups(c) && NoDup(s.free[g])
    ensures forall b :: b in s.free[g] || b in UsedBlocks(s, g) ==> b < c.numBlocks
    ensures forall b: nat :: b < c.numBlocks ==> (b in UsedBlocks(s, g) <==> b !in s.free[g])
  {
    assert PoolOk(s.free[g], s.refs[g], c.numBlocks);
    forall b: nat | b < c.numBlocks ensures b in UsedBlocks(s, g) <==> b !in s.free[g] {
      UsedIsReferenced(c, s, g, b);
      hide UsedBlocks;
    }
    assert InRange(c, s.entries) && InRange(c, s.temps);
  }

  /** Free and used blocks make up a group's pool. */
  lemma FreeAndUsed(c: Config, s: State, g: nat)
    requires Inv(c, s) && g < Groups(c)
    ensures |s.free| == Groups(c) && |s.free[g]| + |UsedBlocks(s, g)| == c.numBlocks
  {
    hide TablesOk, TempsOk;
    FreeIsUnused(c, s, g);
    hide Ledger, UsedBlocks, PoolOk;
    Complement(s.free[g], UsedBlocks(s, g), c.numBlocks);
  }

  lemma Complement(free: seq<nat>, used: set<nat>, n: nat)
    requires NoDup(free) && forall b :: b in free || b in used ==> b < n
    requires forall b: nat :: b < n ==> (b in used <==> b !in free)
    ensures |free| + |used| == n
  {
    DistinctSize(free);
    hide NoDup;
    var members, all := (set b | b in free), Below(n);
    forall b ensures b in members + used <==> b in all {}
    assert members + used == all;
    assert members !! used;
  }

  // ---------------------------------------------------------------- when a plan can be built

  /** Apart from the pools, nothing is in the way of a plan. */
  ghost predicate Askable(c: Config, s: State, ids: seq<int>) {
    s.temps == map[] && NoDup(ids) && forall i :: 0 <= i < |ids| ==> NewestRetained(c, s, ids[i])
  }

  /** What a caller can check before: the group's used blocks and the batch's evicted ones fit its pool together. */
  lemma PlanCondition(c: Config, s: State, ids: seq<int>, g: nat)
    requires Inv(c, s) && g < Groups(c) && Askable(c, s, ids)
    ensures PlanFeasible(c, s, ids, g) <==> |UsedBlocks(s, g)| + SumEvicted(s, ids) <= c.numBlocks
  {
    FreeAndUsed(c, s, g);
    hide Inv, UsedBlocks, NewestRetained, SumEvicted;
  }

  ghost predicate NothingShared(s: State) {
    forall k, k' :: k in s.entries && k' in s.entries && k != k' && k.group == k'.group ==> s.entries[k].phys != s.entries[k'].phys
  }

  ghost function TotalBlocks(c: Config, s: State, ids: seq<int>): nat {
    if ids == [] then 0 else
    var id := ids[|ids| - 1];
    TotalBlocks(c, s, ids[..|ids| - 1]) + if id in s.lens then NumBlocks(c, s.lens[id]) else 0
  }

  ghost function KeysIn(s: State, ids: seq<int>, g: nat): set<Key> {
    set k | k in s.entries && k.group == g && k.seqId in ids
  }

  lemma {:induction false} CellCount(id: int, lo: nat, hi: nat, g: nat)
    requires lo <= hi
    ensures |Cells(id, lo, hi, g, g + 1)| == hi - lo
    decreases hi
  {
    if lo < hi {
      CellCount(id, lo, hi - 1, g);
      assert Cells(id, lo, hi, g, g + 1) == Cells(id, lo, hi - 1, g, g + 1) + {Key(id, hi - 1, g)};
    } else {
      assert Cells(id, lo, hi, g, g + 1) == {};
    }
  }

  /** The retained and the evicted blocks of distinct sequences are all their blocks. */
  lemma {:induction false} RetainedAndEvicted(c: Config, s: State, ids: seq<int>, g: nat)
    requires Inv(c, s) && g < Groups(c) && NoDup(ids) && forall i :: 0 <= i < |ids| ==> ids[i] in s.lens
    ensures |KeysIn(s, ids, g)| + SumEvicted(s, ids) == TotalBlocks(c, s, ids)
  {
    if ids == [] {
      assert KeysIn(s, ids, g) == {};
    } else {
      var n := |ids| - 1;
      var id, rest := ids[n], ids[..n];
      assert ids == rest + [id] && id !in rest;
      RetainedAndEvicted(c, s, rest, g);
      OwnKeys(c, s, id, g);
      CellCount(id, s.evicted[id], NumBlocks(c, s.lens[id]), g);
      var own := Cells(id, s.evicted[id], NumBlocks(c, s.lens[id]), g, g + 1);
      assert KeysIn(s, ids, g) == KeysIn(s, rest, g) + own;
      assert KeysIn(s, rest, g) !! own;
    }
  }

  lemma OwnKeys(c: Config, s: State, id: int, g: nat)
    requires Inv(c, s) && g < Groups(c) && id in s.lens
    ensures id in s.evicted && s.evicted[id] <= NumBlocks(c, s.lens[id])
    ensures (set k | k in s.entries && k.group == g && k.seqId == id) == Cells(id, s.evicted[id], NumBlocks(c, s.lens[id]), g, g + 1)
  {
    hide Ledger, TempsOk, NumBlocks;
    forall k ensures k in s.entries && k.group == g && k.seqId == id <==> k in Cells(id, s.evicted[id], NumBlocks(c, s.lens[id]), g, g + 1) {
      assert k in s.entries <==> Retained(c, s, k);
    }
  }

  lemma {:induction false} ImageCount(s: State, keys: set<Key>)
    requires keys <= s.entries.Keys
    requires forall k, k' :: k in keys && k' in keys && k != k' ==> s.entries[k].phys != s.entries[k'].phys
    ensures |set k | k in keys :: s.entries[k].phys| == |keys|
    decreases |keys|
  {
    var image := set k | k in keys :: s.entries[k].phys;
    if keys != {} {
      var k :| k in keys;
      var rest := keys - {k};
      ImageCount(s, rest);
      assert image == (set h | h in rest :: s.entries[h].phys) + {s.entries[k].phys};
    } else {
      assert image == {};
    }
  }

  /** The batch is all that lives, and no block has two holders. */
  ghost predicate Alone(s: State, ids: seq<int>) {
    NothingShared(s) && forall id :: id in s.lens <==> id in ids
  }

  /** Then eviction saves a plan nothing: it can be built exactly if all the batch's blocks fit one group's pool. */
  lemma PlanOfWholeBatch(c: Config, s: State, ids: seq<int>, g: nat)
    requires Inv(c, s) && g < Groups(c) && Askable(c, s, ids) && Alone(s, ids)
    ensures PlanFeasible(c, s, ids, g) <==> TotalBlocks(c, s, ids) <= c.numBlocks
  {
    PlanCondition(c, s, ids, g);
    forall i | 0 <= i < |ids| ensures ids[i] in s.lens { assert NewestRetained(c, s, ids[i]); }
    RetainedAndEvicted(c, s, ids, g);
    LiveEntries(c, s);
    hide Inv, TotalBlocks, SumEvicted, NewestRetained;
    ImageCount(s, KeysIn(s, ids, g));
    assert UsedBlocks(s, g) == set k | k in KeysIn(s, ids, g) :: s.entries[k].phys;
  }

  lemma LiveEntries(c: Config, s: State)
    requires Inv(c, s)
    ensures forall k :: k in s.entries ==> k.seqId in s.lens
  {
    hide Ledger, TempsOk;
  }

  // ---------------------------------------------------------------- what the policy promises

  /** Blocks of the first requests, in whole blocks. */
  function RequestBlocks(p: P.PolicyInput, batch: int): int
    requires p.blockSize > 0 && 0 <= batch <= |p.lengths|
  {
    if batch == 0 then 0 else RequestBlocks(p, batch - 1) + (p.lengths[batch - 1] + p.blockSize - 1) / p.blockSize
  }

  lemma {:induction false} PaddedIsBlocks(p: P.PolicyInput, batch: int)
    requires p.blockSize > 0 && 0 <= batch <= |p.lengths|
    ensures P.PaddedTokens(p, batch) == RequestBlocks(p, batch) * p.blockSize
    decreases batch
  {
    if batch > 0 {
      PaddedIsBlocks(p, batch - 1);
      var more := (p.lengths[batch - 1] + p.blockSize - 1) / p.blockSize;
      assert (RequestBlocks(p, batch - 1) + more) * p.blockSize == RequestBlocks(p, batch - 1) * p.blockSize + more * p.blockSize;
    }
  }

  /** Layers whose blocks a batch needs at once: the cached ones and one recomputed group. */
  function LayersAtOnce(p: P.PolicyInput, cached: int): int {
    cached + P.Min(P.GroupSize(p), p.numLayers - cached)
  }

  lemma DemandInBlocks(p: P.PolicyInput, batch: int, cached: int)
    requires p.blockSize > 0 && 0 <= batch <= |p.lengths|
    ensures P.Demand(p, P.PaddedTokens(p, batch), cached) == RequestBlocks(p, batch) * p.blockSize * LayersAtOnce(p, cached)
    ensures P.Capacity(p) == p.numGpuBlocks * p.numLayers * p.blockSize
  {
    hide P.Demand, P.PaddedTokens, RequestBlocks, P.Min, P.GroupSize;
    PaddedIsBlocks(p, batch);
    P.DemandIs(p, P.PaddedTokens(p, batch), cached);
  }

  lemma FeasibleInBlocks(p: P.PolicyInput, batch: int, cached: int)
    requires P.ValidInput(p) && 1 <= batch <= P.MaxBatch(p) && P.LayerChoice(p, cached)
    ensures P.Feasible(p, batch, cached) <==> RequestBlocks(p, batch) * LayersAtOnce(p, cached) <= p.numGpuBlocks * p.numLayers
  {
    hide P.Demand, P.Capacity, P.PaddedTokens, RequestBlocks, P.LayerChoice, LayersAtOnce;
    DemandInBlocks(p, batch, cached);
    P.CancelBlockSize(RequestBlocks(p, batch), LayersAtOnce(p, cached), p.numGpuBlocks * p.numLayers, p.blockSize);
  }

  lemma {:induction false} BlocksPositive(p: P.PolicyInput, batch: int)
    requires P.ValidInput(p) && 0 <= batch <= |p.lengths|
    ensures RequestBlocks(p, batch) >= 0
    decreases batch
  {
    if batch > 0 { BlocksPositive(p, batch - 1); }
  }

  /** Whatever fits one group's pool is feasible, however many layers are cached. */
  lemma FittingIsFeasible(p: P.PolicyInput, batch: int, cached: int)
    requires P.ValidInput(p) && 1 <= batch <= P.MaxBatch(p) && P.LayerChoice(p, cached)
    requires RequestBlocks(p, batch) <= p.numGpuBlocks
    ensures P.Feasible(p, batch, cached)
  {
    assert LayersAtOnce(p, cached) <= p.numLayers;
    hide RequestBlocks, LayersAtOnce, P.LayerChoice, P.Feasible;
    FeasibleInBlocks(p, batch, cached);
    BlocksPositive(p, batch);
    MulMono(LayersAtOnce(p, cached), p.numLayers, RequestBlocks(p, batch));
    MulMono(RequestBlocks(p, batch), p.numGpuBlocks, p.numLayers);
  }

  /** With this many layers cached, every feasible batch fits one group's pool. */
  ghost predicate Guarantees(layers: int, groupSize: int, cached: int) {
    forall p, batch :: P.ValidInput(p) && p.numLayers == layers && p.layerGroupSize == groupSize && P.Feasible(p, batch, cached)
                       ==> RequestBlocks(p, batch) <= p.numGpuBlocks
  }

  lemma Cancel(a: int, b: int, m: int)
    requires m > 0 && a * m <= b * m
    ensures a <= b
  {
    assert (b + 1) * m == b * m + m;
    if a > b { MulMono(b + 1, a, m); }
  }

  lemma EnoughCached(p: P.PolicyInput, batch: int, cached: int)
    requires P.ValidInput(p) && P.Feasible(p, batch, cached) && cached + P.GroupSize(p) >= p.numLayers
    ensures RequestBlocks(p, batch) <= p.numGpuBlocks
  {
    assert LayersAtOnce(p, cached) == p.numLayers;
    FeasibleInBlocks(p, batch, cached);
    Cancel(RequestBlocks(p, batch), p.numGpuBlocks, p.numLayers);
  }

  /** As many one-token requests as layers at once, and one more. */
  function ManyShort(layers: int, groupSize: int, n: nat): P.PolicyInput {
    P.PolicyInput(seq(n + 1, i => 1), n + 1, layers, n, 1, groupSize)
  }

  lemma {:induction false} ShortBlocks(layers: int, groupSize: int, n: nat, batch: int)
    requires 0 <= batch <= n + 1
    ensures RequestBlocks(ManyShort(layers, groupSize, n), batch) == batch
    decreases batch
  {
    if batch > 0 { ShortBlocks(layers, groupSize, n, batch - 1); }
  }

  lemma TooFewCached(layers: int, groupSize: int, cached: int)
    requires groupSize > 0 && layers > 0 && P.LayerChoice(ManyShort(layers, groupSize, 1), cached)
    requires cached + P.Min(groupSize, layers) < layers
    ensures !Guarantees(layers, groupSize, cached)
  {
    var n: nat := cached + P.Min(groupSize, layers);
    var p := ManyShort(layers, groupSize, n);
    ShortBlocks(layers, groupSize, n, n + 1);
    FeasibleInBlocks(p, n + 1, cached);
    MulMono(n + 1, layers, n);
    assert P.Feasible(p, n + 1, cached);
    assert RequestBlocks(p, n + 1) > p.numGpuBlocks;
  }

  /** A feasible policy point always lets the plans be built exactly if all but one group of layers is cached. */
  lemma PolicyGuarantee(layers: int, groupSize: int, cached: int)
    requires groupSize > 0 && layers > 0 && P.LayerChoice(ManyShort(layers, groupSize, 1), cached)
    ensures Guarantees(layers, groupSize, cached) <==> cached + P.Min(groupSize, layers) >= layers
  {
    if cached + P.Min(groupSize, layers) >= layers {
      forall p, batch | P.ValidInput(p) && p.numLayers == layers && p.layerGroupSize == groupSize && P.Feasible(p, batch, cached)
        ensures RequestBlocks(p, batch) <= p.numGpuBlocks
      {
        EnoughCached(p, batch, cached);
      }
    } else {
      TooFewCached(layers, groupSize, cached);
    }
  }

  /** The store's sequences are the policy's requests, in order. */
  ghost predicate Matches(c: Config, s: State, p: P.PolicyInput, ids: seq<int>) {
    && p.blockSize == c.blockSize && p.numGpuBlocks == c.numBlocks && |ids| <= |p.lengths|
    && forall i :: 0 <= i < |ids| ==> ids[i] in s.lens && s.lens[ids[i]] == p.lengths[i]
  }

  lemma {:induction false} SameBlocks(c: Config, s: State, p: P.PolicyInput, ids: seq<int>)
    requires Matches(c, s, p, ids)
    ensures TotalBlocks(c, s, ids) == RequestBlocks(p, |ids|)
  {
    if ids != [] { SameBlocks(c, s, p, ids[..|ids| - 1]); }
  }

  /** For a batch that lives alone, whether its plans can be built does not depend on how much is evicted. */
  lemma PlansOfPolicyBatch(c: Config, s: State, p: P.PolicyInput, ids: seq<int>, g: nat)
    requires Inv(c, s) && g < Groups(c) && Askable(c, s, ids) && Alone(s, ids) && Matches(c, s, p, ids)
    ensures PlanFeasible(c, s, ids, g) <==> RequestBlocks(p, |ids|) <= p.numGpuBlocks
  {
    hide Inv, Askable, Alone;
    PlanOfWholeBatch(c, s, ids, g);
    SameBlocks(c, s, p, ids);
  }
}
