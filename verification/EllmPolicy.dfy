/** The search for a batch size and a number of cached layers, over exact numbers. */
module EllmPolicy {
  import opened Arithmetic
  import opened Results

  datatype PolicyInput = PolicyInput(
    lengths: seq<int>,
    maxBatchSize: int,
    numLayers: int,
    numGpuBlocks: int,
    blockSize: int,
    layerGroupSize: int)

  datatype Decision = Decision(
    batchSize: int,
    cachedLayers: int,
    recomputeLayers: int,
    resident: int,
    temporary: int,
    estimatedWork: int)

  predicate ValidInput(p: PolicyInput) {
    && p.lengths != [] && (forall i :: 0 <= i < |p.lengths| ==> p.lengths[i] > 0)
    && p.maxBatchSize > 0 && p.numLayers > 0 && p.numGpuBlocks > 0 && p.blockSize > 0 && p.layerGroupSize > 0
  }

  function Min(a: int, b: int): int { if a <= b then a else b }

  /** Tokens in whole blocks. */
  function RoundTokens(n: int, blockSize: int): int
    requires blockSize > 0
  {
    (n + blockSize - 1) / blockSize * blockSize
  }

  function PaddedTokens(p: PolicyInput, batch: int): int
    requires p.blockSize > 0 && 0 <= batch <= |p.lengths|
  {
    if batch == 0 then 0 else PaddedTokens(p, batch - 1) + RoundTokens(p.lengths[batch - 1], p.blockSize)
  }

  function Work(p: PolicyInput, batch: int, cached: int): int
    requires 0 <= batch <= |p.lengths|
  {
    if batch == 0 then 0 else
    var length := p.lengths[batch - 1];
    Work(p, batch - 1, cached) + ((p.numLayers - cached) * length * length + cached * length)
  }

  function GroupSize(p: PolicyInput): int { Min(p.layerGroupSize, p.numLayers) }

  function MaxBatch(p: PolicyInput): int { Min(p.maxBatchSize, |p.lengths|) }

  function Capacity(p: PolicyInput): int { p.numGpuBlocks * p.blockSize * p.numLayers }

  /** Token-layer slots that a batch needs: its resident layers and one group's temporary prefix. */
  function Demand(p: PolicyInput, padded: int, cached: int): int {
    padded * cached + padded * Min(GroupSize(p), p.numLayers - cached)
  }

  function Throughput(p: PolicyInput, batch: int, cached: int): real
    requires 0 <= batch <= |p.lengths|
  {
    var work := Work(p, batch, cached) as real;
    batch as real / (if work >= 1.0 then work else 1.0)
  }

  datatype Rank = Rank(throughput: real, batch: int, cached: int)

  function RankOf(p: PolicyInput, batch: int, cached: int): Rank
    requires 0 <= batch <= |p.lengths|
  {
    Rank(Throughput(p, batch, cached), batch, cached)
  }

  /** Lexicographic order. */
  predicate Above(a: Rank, b: Rank) {
    || a.throughput > b.throughput
    || (a.throughput == b.throughput && (a.batch > b.batch || (a.batch == b.batch && a.cached > b.cached)))
  }

  /** A whole number of layer groups, or all the layers. */
  predicate LayerChoice(p: PolicyInput, cached: int)
    requires GroupSize(p) > 0
  {
    GroupSize(p) <= cached <= p.numLayers && (cached % GroupSize(p) == 0 || cached == p.numLayers)
  }

  ghost predicate Feasible(p: PolicyInput, batch: int, cached: int)
    requires ValidInput(p)
  {
    && 1 <= batch <= MaxBatch(p) && LayerChoice(p, cached)
    && Demand(p, PaddedTokens(p, batch), cached) <= Capacity(p)
  }

  function DecisionOf(p: PolicyInput, batch: int, cached: int): Decision
    requires p.blockSize > 0 && 0 <= batch <= |p.lengths|
  {
    var padded := PaddedTokens(p, batch);
    Decision(batch, cached, p.numLayers - cached, padded * cached,
             padded * Min(GroupSize(p), p.numLayers - cached), Work(p, batch, cached))
  }

  // ---------------------------------------------------------------- what is searched for, in plain sums

  ghost function Total(s: seq<int>): int {
    if s == [] then 0 else s[0] + Total(s[1..])
  }

  ghost function TotalOfSquares(s: seq<int>): int {
    if s == [] then 0 else s[0] * s[0] + TotalOfSquares(s[1..])
  }

  /** The blocks that hold each of the requests: the fewest that have room for all its tokens. */
  ghost predicate BlockCounts(s: seq<int>, blockSize: int, counts: seq<int>) {
    |counts| == |s| && forall i :: 0 <= i < |s| ==> (counts[i] - 1) * blockSize < s[i] <= counts[i] * blockSize
  }

  /** Quadratic work for every recomputed layer and linear work for every cached one, at least 1. */
  ghost function Cost(p: PolicyInput, batch: int, cached: int): int
    requires 0 <= batch <= |p.lengths|
  {
    var work := (p.numLayers - cached) * TotalOfSquares(p.lengths[..batch]) + cached * Total(p.lengths[..batch]);
    if work < 1 then 1 else work
  }

  /**
   Decision d does at least as many requests for its cost as the first b requests with c
   cached layers; and for the same ratio it has more requests, or as many and no fewer layers.
   */
  ghost predicate NoBetter(p: PolicyInput, d: Decision, b: int, c: int)
    requires 0 <= d.batchSize <= |p.lengths| && 0 <= b <= |p.lengths|
  {
    var ours, theirs := d.batchSize * Cost(p, b, c), b * Cost(p, d.batchSize, d.cachedLayers);
    theirs < ours || (theirs == ours && (b < d.batchSize || (b == d.batchSize && c <= d.cachedLayers)))
  }

  /** A layer group, or the layers that are not cached if those are fewer. */
  ghost function OneGroup(p: PolicyInput, cached: int): int {
    var g := if p.layerGroupSize <= p.numLayers then p.layerGroupSize else p.numLayers;
    if g <= p.numLayers - cached then g else p.numLayers - cached
  }

  lemma {:induction false} TotalSnoc(s: seq<int>, x: int)
    ensures Total(s + [x]) == Total(s) + x && TotalOfSquares(s + [x]) == TotalOfSquares(s) + x * x
  {
    if s == [] {
      assert [] + [x] == [x] && [x][1..] == [];
    } else {
      assert (s + [x])[1..] == s[1..] + [x];
      TotalSnoc(s[1..], x);
    }
  }

  lemma {:induction false} WorkIsPlain(p: PolicyInput, batch: int, cached: int)
    requires 0 <= batch <= |p.lengths|
    ensures Work(p, batch, cached)
            == (p.numLayers - cached) * TotalOfSquares(p.lengths[..batch]) + cached * Total(p.lengths[..batch])
    decreases batch
  {
    if batch == 0 {
      assert p.lengths[..0] == [];
    } else {
      var before, x := p.lengths[..batch - 1], p.lengths[batch - 1];
      assert p.lengths[..batch] == before + [x];
      WorkIsPlain(p, batch - 1, cached);
      TotalSnoc(before, x);
      OneMoreRequest(p.numLayers - cached, cached, TotalOfSquares(before), Total(before), x);
    }
  }

  lemma OneMoreRequest(a: int, c: int, squares: int, sum: int, x: int)
    ensures a * (squares + x * x) + c * (sum + x) == a * squares + c * sum + (a * x * x + c * x)
  {
    assert a * (squares + x * x) == a * squares + a * (x * x) && a * (x * x) == a * x * x;
    assert c * (sum + x) == c * sum + c * x;
  }

  /** Higher throughput is more requests for the cost, without division. */
  lemma RatioOrder(b: int, w: int, b': int, w': int)
    requires w >= 1 && w' >= 1
    ensures b as real / w as real > b' as real / w' as real <==> b' * w < b * w'
    ensures b as real / w as real == b' as real / w' as real <==> b' * w == b * w'
  {
    var x, y := b as real / w as real, b' as real / w' as real;
    var u, v := w as real, w' as real;
    assert x * u == b as real && y * v == b' as real;
    assert (x * u) * v == x * (u * v) && (y * v) * u == y * (u * v);
    assert (b * w') as real == b as real * v && (b' * w) as real == b' as real * u;
    assert u * v > 0.0;
    CompareScaled(x, y, u * v);
  }

  lemma CompareScaled(x: real, y: real, c: real)
    requires c > 0.0
    ensures x > y <==> x * c > y * c
    ensures x == y <==> x * c == y * c
  {
    if x > y { assert (x - y) * c > 0.0; }
    if x < y { assert (y - x) * c > 0.0; }
  }

  lemma ThroughputIsRatio(p: PolicyInput, batch: int, cached: int)
    requires 0 <= batch <= |p.lengths|
    ensures Throughput(p, batch, cached) == batch as real / Cost(p, batch, cached) as real
  {
    WorkIsPlain(p, batch, cached);
    hide Work;
  }

  /** Being ranked no lower is to be no worse. */
  lemma RankedIsNoBetter(p: PolicyInput, d: Decision, b: int, c: int)
    requires 0 <= d.batchSize <= |p.lengths| && 0 <= b <= |p.lengths|
    requires !Above(RankOf(p, b, c), RankOf(p, d.batchSize, d.cachedLayers))
    ensures NoBetter(p, d, b, c)
  {
    ThroughputIsRatio(p, b, c);
    ThroughputIsRatio(p, d.batchSize, d.cachedLayers);
    assert Cost(p, b, c) >= 1 && Cost(p, d.batchSize, d.cachedLayers) >= 1;
    hide Cost, Throughput;
    RatioOrder(b, Cost(p, b, c), d.batchSize, Cost(p, d.batchSize, d.cachedLayers));
    RatioOrder(d.batchSize, Cost(p, d.batchSize, d.cachedLayers), b, Cost(p, b, c));
  }

  lemma {:induction false} PaddedIsPlain(p: PolicyInput, batch: int, counts: seq<int>)
    requires p.blockSize > 0 && 0 <= batch <= |p.lengths| && BlockCounts(p.lengths[..batch], p.blockSize, counts)
    ensures PaddedTokens(p, batch) == Total(counts) * p.blockSize
    decreases batch
  {
    hide BlockCounts, RoundTokens, Total;
    if batch > 0 {
      var n := batch - 1;
      FewerCounts(p, batch, counts);
      PaddedIsPlain(p, n, counts[..n]);
      TotalSnoc(counts[..n], counts[n]);
      RoundedIs(p.lengths[n], p.blockSize, counts[n]);
      assert (Total(counts[..n]) + counts[n]) * p.blockSize == Total(counts[..n]) * p.blockSize + counts[n] * p.blockSize;
    } else {
      NoCounts(p.lengths[..0], p.blockSize, counts);
    }
  }

  lemma NoCounts(s: seq<int>, blockSize: int, counts: seq<int>)
    requires s == [] && BlockCounts(s, blockSize, counts)
    ensures Total(counts) * blockSize == 0
  {
  }

  lemma FewerCounts(p: PolicyInput, batch: int, counts: seq<int>)
    requires p.blockSize > 0 && 0 < batch <= |p.lengths| && BlockCounts(p.lengths[..batch], p.blockSize, counts)
    ensures |counts| == batch && BlockCounts(p.lengths[..batch - 1], p.blockSize, counts[..batch - 1])
    ensures counts == counts[..batch - 1] + [counts[batch - 1]]
    ensures (counts[batch - 1] - 1) * p.blockSize < p.lengths[batch - 1] <= counts[batch - 1] * p.blockSize
  {
    var n, all, some := batch - 1, p.lengths[..batch], p.lengths[..batch - 1];
    assert all[n] == p.lengths[n];
    forall i | 0 <= i < n ensures (counts[..n][i] - 1) * p.blockSize < some[i] <= counts[..n][i] * p.blockSize {
      assert some[i] == all[i] && counts[..n][i] == counts[i];
    }
  }

  /** There are such counts. */
  lemma CountsExist(s: seq<int>, blockSize: int) returns (counts: seq<int>)
    requires blockSize > 0
    ensures BlockCounts(s, blockSize, counts)
  {
    counts := seq(|s|, i requires 0 <= i < |s| => (s[i] + blockSize - 1) / blockSize);
    forall i | 0 <= i < |s| ensures (counts[i] - 1) * blockSize < s[i] <= counts[i] * blockSize {
      var n := s[i] + blockSize - 1;
      assert n == (n / blockSize) * blockSize + n % blockSize;
      assert (counts[i] - 1) * blockSize == counts[i] * blockSize - blockSize;
    }
  }

  lemma RoundedIs(n: int, blockSize: int, count: int)
    requires blockSize > 0 && (count - 1) * blockSize < n <= count * blockSize
    ensures RoundTokens(n, blockSize) == count * blockSize
  {
    assert (count - 1) * blockSize == count * blockSize - blockSize;
    DivUnique(n + blockSize - 1, blockSize, count, n + blockSize - 1 - count * blockSize);
  }

  /**
   Feasible in plain terms: a batch within both limits, whole layer groups or all layers
   cached, and room for the batch's blocks in the cached layers and in one group more, or
   in the layers that are not cached if those are fewer.
   */
  lemma FeasibleMeans(p: PolicyInput, batch: int, cached: int, counts: seq<int>)
    requires ValidInput(p) && 0 <= batch <= |p.lengths| && BlockCounts(p.lengths[..batch], p.blockSize, counts)
    ensures var g := if p.layerGroupSize <= p.numLayers then p.layerGroupSize else p.numLayers;
            Feasible(p, batch, cached) <==>
            && 1 <= batch <= p.maxBatchSize && g <= cached <= p.numLayers && (cached % g == 0 || cached == p.numLayers)
            && Total(counts) * (cached + OneGroup(p, cached)) <= p.numGpuBlocks * p.numLayers
  {
    hide PaddedTokens, BlockCounts, Total, Demand, Capacity, OneGroup;
    PaddedIsPlain(p, batch, counts);
    RoomMeans(p, Total(counts), cached);
  }

  lemma RoomMeans(p: PolicyInput, blocks: int, cached: int)
    requires p.blockSize > 0
    ensures Demand(p, blocks * p.blockSize, cached) <= Capacity(p) <==>
            blocks * (cached + OneGroup(p, cached)) <= p.numGpuBlocks * p.numLayers
  {
    var bs, extra, n := p.blockSize, OneGroup(p, cached), p.numGpuBlocks * p.numLayers;
    hide OneGroup;
    assert extra == Min(GroupSize(p), p.numLayers - cached) by { OneGroupIs(p, cached); }
    TimesSum(blocks * bs, cached, extra);
    assert Capacity(p) == n * bs by { TimesSwap(p.numGpuBlocks, bs, p.numLayers); }
    CancelBlockSize(blocks, cached + extra, n, bs);
  }

  lemma OneGroupIs(p: PolicyInput, cached: int)
    ensures OneGroup(p, cached) == Min(GroupSize(p), p.numLayers - cached)
  {
  }

  lemma TimesSum(a: int, b: int, c: int)
    ensures a * (b + c) == a * b + a * c
  {
  }

  lemma TimesSwap(a: int, b: int, c: int)
    ensures a * b * c == a * c * b
  {
    assert b * c == c * b;
    assert a * b * c == a * (b * c) && a * c * b == a * (c * b);
  }

  // ---------------------------------------------------------------- the search

  /** The candidate numbers of cached layers, ascending. */
  method LayerChoices(p: PolicyInput) returns (choices: seq<int>)
    requires ValidInput(p)
    ensures forall c :: c in choices <==> LayerChoice(p, c)
    ensures forall i, j :: 0 <= i < j < |choices| ==> choices[i] < choices[j]
  {
    var g := GroupSize(p);
    choices := [];
    var c := g;
    Multiple(1, g);
    while c <= p.numLayers
      invariant g <= c && c % g == 0
      invariant forall x :: x in choices <==> g <= x < c && x <= p.numLayers && x % g == 0
      invariant forall i :: 0 <= i < |choices| ==> choices[i] < c && choices[i] <= p.numLayers
      invariant forall i, j :: 0 <= i < j < |choices| ==> choices[i] < choices[j]
      decreases p.numLayers - c
    {
      NextMultiple(c, g);
      choices := choices + [c];
      c := c + g;
    }
    if choices == [] || choices[|choices| - 1] != p.numLayers {
      if p.numLayers in choices { LastIsLargest(choices, p.numLayers); }
      choices := choices + [p.numLayers];
    }
  }

  lemma LastIsLargest(choices: seq<int>, n: int)
    requires n in choices && (forall x :: x in choices ==> x <= n)
    requires forall i, j :: 0 <= i < j < |choices| ==> choices[i] < choices[j]
    ensures choices[|choices| - 1] == n
  {
    var i :| 0 <= i < |choices| && choices[i] == n;
    assert choices[|choices| - 1] in choices;
  }

  lemma Multiple(k: int, g: int)
    requires g > 0
    ensures (k * g) % g == 0
  {
    DivUnique(k * g, g, k, 0);
  }

  /** No multiple of g lies strictly between a multiple and the next. */
  lemma NextMultiple(c: int, g: int)
    requires g > 0 && c % g == 0
    ensures (c + g) % g == 0
    ensures forall x :: c < x < c + g ==> x % g != 0
  {
    var k := c / g;
    assert c == k * g;
    assert (k + 1) * g == k * g + g;
    DivUnique(c + g, g, k + 1, 0);
    forall x | c < x < c + g ensures x % g != 0 { DivUnique(x, g, k, x - c); }
  }

  /** The best so far among the candidates already visited. */
  ghost predicate BestSoFar(p: PolicyInput, best: Option<Decision>, visited: (int, int) -> bool)
    requires ValidInput(p)
  {
    match best
    case None => forall b, c :: Feasible(p, b, c) ==> !visited(b, c)
    case Some(d) =>
      && Feasible(p, d.batchSize, d.cachedLayers) && d == DecisionOf(p, d.batchSize, d.cachedLayers)
      && forall b, c :: Feasible(p, b, c) && visited(b, c) ==> !Above(RankOf(p, b, c), RankOf(p, d.batchSize, d.cachedLayers))
  }

  /** The candidates before (batch, cached) in loop order. */
  ghost function VisitedBefore(batch: int, cached: int): (int, int) -> bool {
    (b, c) => b < batch || (b == batch && c < cached)
  }

  /** One candidate more. */
  lemma VisitOne(p: PolicyInput, best: Option<Decision>, batch: int, cached: int, next: int)
    requires ValidInput(p) && 1 <= batch <= MaxBatch(p) && LayerChoice(p, cached) && cached < next
    requires forall c :: LayerChoice(p, c) && cached < c ==> next <= c
    requires BestSoFar(p, best, VisitedBefore(batch, cached))
    ensures var better := Feasible(p, batch, cached)
                          && (best == None || Above(RankOf(p, batch, cached), RankOf2(p, best)));
            BestSoFar(p, if better then Some(DecisionOf(p, batch, cached)) else best, VisitedBefore(batch, next))
  {
    hide LayerChoice, Demand, PaddedTokens, Capacity, Throughput, Work;
  }

  ghost function RankOf2(p: PolicyInput, best: Option<Decision>): Rank {
    match best
    case None => Rank(0.0, 0, 0)
    case Some(d) => if 0 <= d.batchSize <= |p.lengths| then RankOf(p, d.batchSize, d.cachedLayers) else Rank(0.0, 0, 0)
  }

  lemma NextBatch(p: PolicyInput, best: Option<Decision>, batch: int, last: int)
    requires ValidInput(p) && p.numLayers < last && BestSoFar(p, best, VisitedBefore(batch, last))
    ensures BestSoFar(p, best, VisitedBefore(batch + 1, 0))
  {
    hide Demand, PaddedTokens, Capacity, RankOf;
  }

  lemma NothingVisited(p: PolicyInput)
    requires ValidInput(p)
    ensures BestSoFar(p, None, VisitedBefore(1, 0))
  {
    hide Demand, PaddedTokens, Capacity;
  }

  /** Searches every batch size and layer choice; the best feasible point, or an error. */
  method SelectEllmPolicy(p: PolicyInput) returns (r: Result<Decision>)
    ensures r.Err? && r.error == ValueError <==> !ValidInput(p)
    ensures ValidInput(p) ==>
              (r.Ok? <==> exists b, c :: Feasible(p, b, c)) && (r.Err? ==> r.error == RuntimeError)
    ensures ValidInput(p) && r.Ok? ==>
              && Feasible(p, r.value.batchSize, r.value.cachedLayers)
              && r.value == DecisionOf(p, r.value.batchSize, r.value.cachedLayers)
              && forall b, c :: Feasible(p, b, c) ==> !Above(RankOf(p, b, c), RankOf(p, r.value.batchSize, r.value.cachedLayers))
    ensures ValidInput(p) && r.Ok? ==> forall b, c :: Feasible(p, b, c) ==> NoBetter(p, r.value, b, c)
    ensures ValidInput(p) && r.Ok? ==> Accounted(p, r.value)
  {
    if !ValidInput(p) {
      return Err(ValueError);
    }
    hide Demand, Capacity, Throughput, Work, PaddedTokens, BestSoFar, LayerChoice, RankOf2;
    var choices := LayerChoices(p);
    var capacity := Capacity(p);
    var best: Option<Decision> := None;
    NothingVisited(p);
    for batch := 1 to MaxBatch(p) + 1
      invariant BestSoFar(p, best, VisitedBefore(batch, 0))
    {
      var padded := PaddedTokens(p, batch);
      FirstChoice(p, best, batch, choices);
      for i := 0 to |choices|
        invariant BestSoFar(p, best, VisitedBefore(batch, if i < |choices| then choices[i] else p.numLayers + 1))
      {
        var cached := choices[i];
        var next := if i + 1 < |choices| then choices[i + 1] else p.numLayers + 1;
        ChoiceOrder(p, choices, i, next);
        VisitOne(p, best, batch, cached, next);
        BestRank(p, best, VisitedBefore(batch, cached));
        if Demand(p, padded, cached) <= capacity {
          var rank := RankOf(p, batch, cached);
          if best == None || Above(rank, RankOf(p, best.value.batchSize, best.value.cachedLayers)) {
            best := Some(DecisionOf(p, batch, cached));
          }
        }
      }
      NextBatch(p, best, batch, p.numLayers + 1);
    }
    SearchDone(p, best);
    if best == None {
      return Err(RuntimeError);
    }
    ChosenIsBest(p, best.value);
    return Ok(best.value);
  }

  lemma ChosenIsBest(p: PolicyInput, d: Decision)
    requires ValidInput(p) && Feasible(p, d.batchSize, d.cachedLayers) && d == DecisionOf(p, d.batchSize, d.cachedLayers)
    requires forall b, c :: Feasible(p, b, c) ==> !Above(RankOf(p, b, c), RankOf(p, d.batchSize, d.cachedLayers))
    ensures forall b, c :: Feasible(p, b, c) ==> NoBetter(p, d, b, c)
    ensures Accounted(p, d)
  {
    hide NoBetter, Above, RankOf, Demand, PaddedTokens, Capacity, LayerChoice;
    forall b, c | Feasible(p, b, c) ensures NoBetter(p, d, b, c) { RankedIsNoBetter(p, d, b, c); }
    forall counts | BlockCounts(p.lengths[..d.batchSize], p.blockSize, counts)
      ensures d.resident == Total(counts) * p.blockSize * d.cachedLayers && d.temporary == Total(counts) * p.blockSize * OneGroup(p, d.cachedLayers)
    {
      PaddedIsPlain(p, d.batchSize, counts);
    }
    WorkIsPlain(p, d.batchSize, d.cachedLayers);
  }

  /** The figures that a decision reports: token slots of its blocks in the cached layers and in one group, and its work. */
  ghost predicate Accounted(p: PolicyInput, d: Decision) {
    && 0 <= d.batchSize <= |p.lengths| && d.recomputeLayers == p.numLayers - d.cachedLayers
    && d.estimatedWork == (p.numLayers - d.cachedLayers) * TotalOfSquares(p.lengths[..d.batchSize])
                          + d.cachedLayers * Total(p.lengths[..d.batchSize])
    && forall counts :: BlockCounts(p.lengths[..d.batchSize], p.blockSize, counts) ==>
         && d.resident == Total(counts) * p.blockSize * d.cachedLayers
         && d.temporary == Total(counts) * p.blockSize * OneGroup(p, d.cachedLayers)
  }

  lemma BestRank(p: PolicyInput, best: Option<Decision>, visited: (int, int) -> bool)
    requires ValidInput(p) && BestSoFar(p, best, visited)
    ensures best.Some? ==>
              0 <= best.value.batchSize <= |p.lengths|
              && RankOf2(p, best) == RankOf(p, best.value.batchSize, best.value.cachedLayers)
  {
    hide LayerChoice, Demand, Capacity, RankOf, PaddedTokens;
  }

  lemma FirstChoice(p: PolicyInput, best: Option<Decision>, batch: int, choices: seq<int>)
    requires ValidInput(p) && BestSoFar(p, best, VisitedBefore(batch, 0))
    requires forall c :: c in choices <==> LayerChoice(p, c)
    requires forall i, j :: 0 <= i < j < |choices| ==> choices[i] < choices[j]
    ensures choices != [] && BestSoFar(p, best, VisitedBefore(batch, choices[0]))
  {
    hide Demand, Capacity, RankOf, PaddedTokens;
    assert LayerChoice(p, p.numLayers);
    forall c | LayerChoice(p, c) ensures 0 <= choices[0] <= c {
      var i :| 0 <= i < |choices| && choices[i] == c;
      assert LayerChoice(p, choices[0]);
    }
  }

  lemma ChoiceOrder(p: PolicyInput, choices: seq<int>, i: nat, next: int)
    requires ValidInput(p) && i < |choices| && forall c :: c in choices <==> LayerChoice(p, c)
    requires forall i, j :: 0 <= i < j < |choices| ==> choices[i] < choices[j]
    requires next == if i + 1 < |choices| then choices[i + 1] else p.numLayers + 1
    ensures LayerChoice(p, choices[i]) && choices[i] < next
    ensures forall c :: LayerChoice(p, c) && choices[i] < c ==> next <= c
  {
    assert LayerChoice(p, choices[i]);
    forall c | LayerChoice(p, c) && choices[i] < c ensures next <= c {
      var j :| 0 <= j < |choices| && choices[j] == c;
    }
  }

  lemma SearchDone(p: PolicyInput, best: Option<Decision>)
    requires ValidInput(p) && BestSoFar(p, best, VisitedBefore(MaxBatch(p) + 1, 0))
    ensures best.Some? <==> exists b, c :: Feasible(p, b, c)
    ensures best.Some? ==>
              var d := best.value;
              && Feasible(p, d.batchSize, d.cachedLayers) && d == DecisionOf(p, d.batchSize, d.cachedLayers)
              && forall b, c :: Feasible(p, b, c) ==> !Above(RankOf(p, b, c), RankOf(p, d.batchSize, d.cachedLayers))
  {
    hide LayerChoice, Demand, Capacity, RankOf, PaddedTokens, Above, DecisionOf;
    forall b, c | Feasible(p, b, c) ensures VisitedBefore(MaxBatch(p) + 1, 0)(b, c) {}
  }

  // ---------------------------------------------------------------- what the search finds

  lemma {:induction false} WorkMono(p: PolicyInput, batch: int, cached: int, more: int)
    requires ValidInput(p) && 0 <= batch <= |p.lengths| && 0 <= cached <= more <= p.numLayers
    ensures 0 <= Work(p, batch, more) <= Work(p, batch, cached)
    decreases batch
  {
    if batch > 0 {
      WorkMono(p, batch - 1, cached, more);
      LessRecompute(p.numLayers, cached, more, p.lengths[batch - 1]);
    }
  }

  /** Caching a layer replaces a quadratic cost by a linear one. */
  lemma LessRecompute(layers: int, cached: int, more: int, n: int)
    requires 0 <= cached <= more <= layers && n >= 1
    ensures 0 <= (layers - more) * n * n + more * n <= (layers - cached) * n * n + cached * n
  {
    var a, b := layers - more, layers - cached;
    MulMono(0, a, n);
    MulMono(0, a * n, n);
    MulMono(0, more, n);
    assert b * n * n - a * n * n == (more - cached) * (n * n);
    assert more * n - cached * n == (more - cached) * n;
    MulMono(1, n, n);
    MulMono(n, n * n, more - cached);
    assert n * (more - cached) == (more - cached) * n && n * n * (more - cached) == (more - cached) * (n * n);
  }

  lemma ThroughputMono(p: PolicyInput, batch: int, cached: int, more: int)
    requires ValidInput(p) && 0 <= batch <= |p.lengths| && 0 <= cached <= more <= p.numLayers
    ensures Throughput(p, batch, more) >= Throughput(p, batch, cached)
  {
    WorkMono(p, batch, cached, more);
    hide Work;
    var low, high := Work(p, batch, more) as real, Work(p, batch, cached) as real;
    DivideMono(batch as real, if low >= 1.0 then low else 1.0, if high >= 1.0 then high else 1.0);
  }

  lemma DivideMono(n: real, a: real, b: real)
    requires n >= 0.0 && 0.0 < a <= b
    ensures n / a >= n / b
  {
    assert (n / a) * a == n && (n / b) * b == n;
    assert (n / b) >= 0.0;
    assert (n / b) * a <= (n / b) * b;
    CancelFactor(n / a, n / b, a);
  }

  lemma CancelFactor(x: real, y: real, a: real)
    requires a > 0.0 && x * a >= y * a
    ensures x >= y
  {
  }

  /** The selected number of cached layers is the largest feasible one for the selected batch. */
  lemma LargestForItsBatch(p: PolicyInput, d: Decision, more: int)
    requires ValidInput(p) && Feasible(p, d.batchSize, d.cachedLayers) && Feasible(p, d.batchSize, more)
    requires forall b, c :: Feasible(p, b, c) ==> !Above(RankOf(p, b, c), RankOf(p, d.batchSize, d.cachedLayers))
    ensures more <= d.cachedLayers
  {
    hide Demand, Capacity, PaddedTokens, Throughput;
    if more > d.cachedLayers { ThroughputMono(p, d.batchSize, d.cachedLayers, more); }
    assert !Above(RankOf(p, d.batchSize, more), RankOf(p, d.batchSize, d.cachedLayers));
  }

  lemma RoundPositive(n: int, blockSize: int)
    requires n > 0 && blockSize > 0
    ensures RoundTokens(n, blockSize) >= blockSize
  {
    var q := (n + blockSize - 1) / blockSize;
    assert n + blockSize - 1 == q * blockSize + (n + blockSize - 1) % blockSize;
    if q < 1 { MulMono(q, 0, blockSize); }
    MulMono(1, if q < 1 then 1 else q, blockSize);
  }

  lemma {:induction false} PaddedMono(p: PolicyInput, batch: int)
    requires ValidInput(p) && 1 <= batch <= |p.lengths|
    ensures PaddedTokens(p, batch) >= PaddedTokens(p, 1) == RoundTokens(p.lengths[0], p.blockSize) > 0
    decreases batch
  {
    hide RoundTokens;
    RoundPositive(p.lengths[batch - 1], p.blockSize);
    if batch > 1 {
      PaddedMono(p, batch - 1);
    } else {
      assert PaddedTokens(p, 0) == 0;
    }
  }

  /** A batch needs the fewest slots when it is one request that caches one group of layers. */
  lemma LeastDemand(p: PolicyInput, batch: int, cached: int)
    requires ValidInput(p) && 1 <= batch <= |p.lengths| && LayerChoice(p, cached)
    ensures Demand(p, PaddedTokens(p, batch), cached) >= PaddedTokens(p, 1) * Min(2 * GroupSize(p), p.numLayers)
    ensures Demand(p, PaddedTokens(p, 1), GroupSize(p)) == PaddedTokens(p, 1) * Min(2 * GroupSize(p), p.numLayers)
  {
    hide PaddedTokens, Demand, Min, RoundTokens;
    PaddedMono(p, batch);
    var g, ll := GroupSize(p), p.numLayers;
    SlotLayers(p, cached);
    DemandIs(p, PaddedTokens(p, batch), cached);
    DemandIs(p, PaddedTokens(p, 1), g);
    MulMono(Min(2 * g, ll), cached + Min(g, ll - cached), PaddedTokens(p, 1));
    MulMono(PaddedTokens(p, 1), PaddedTokens(p, batch), cached + Min(g, ll - cached));
  }

  lemma SlotLayers(p: PolicyInput, cached: int)
    requires ValidInput(p) && LayerChoice(p, cached)
    ensures cached + Min(GroupSize(p), p.numLayers - cached) >= Min(2 * GroupSize(p), p.numLayers) >= 0
    ensures GroupSize(p) + Min(GroupSize(p), p.numLayers - GroupSize(p)) == Min(2 * GroupSize(p), p.numLayers)
  {
  }

  lemma DemandIs(p: PolicyInput, padded: int, cached: int)
    ensures Demand(p, padded, cached) == (cached + Min(GroupSize(p), p.numLayers - cached)) * padded
    ensures Demand(p, padded, cached) == padded * (cached + Min(GroupSize(p), p.numLayers - cached))
  {
    hide Min, GroupSize;
  }

  lemma CancelBlockSize(blocks: int, m: int, n: int, bs: int)
    requires bs > 0
    ensures blocks * bs * m <= n * bs <==> blocks * m <= n
  {
    assert blocks * bs * m == (blocks * m) * bs;
    if blocks * m <= n { MulMono(blocks * m, n, bs); }
    if blocks * m > n { MulMono(n + 1, blocks * m, bs); assert (n + 1) * bs == n * bs + bs; }
  }

  /**
   For valid arguments the search fails exactly when the first request alone, with two
   layer groups' worth of slots (or all layers if that is fewer), does not fit.
   */
  lemma FailsExactlyWhen(p: PolicyInput)
    requires ValidInput(p)
    ensures (exists b, c :: Feasible(p, b, c)) <==>
            (p.lengths[0] + p.blockSize - 1) / p.blockSize * Min(2 * GroupSize(p), p.numLayers) <= p.numGpuBlocks * p.numLayers
  {
    var blocks, m := (p.lengths[0] + p.blockSize - 1) / p.blockSize, Min(2 * GroupSize(p), p.numLayers);
    PaddedMono(p, 1);
    Multiple(1, GroupSize(p));
    assert LayerChoice(p, GroupSize(p));
    LeastDemand(p, 1, GroupSize(p));
    CancelBlockSize(blocks, m, p.numGpuBlocks * p.numLayers, p.blockSize);
    assert Capacity(p) == p.numGpuBlocks * p.numLayers * p.blockSize;
    hide Demand, Capacity, PaddedTokens, LayerChoice, RoundTokens;
    if blocks * m <= p.numGpuBlocks * p.numLayers {
      assert Feasible(p, 1, GroupSize(p));
    } else {
      forall b, c ensures !Feasible(p, b, c) {
        if Feasible(p, b, c) { LeastDemand(p, b, c); }
      }
    }
  }
}
