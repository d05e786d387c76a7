/** CPU paged attention for one query token per sequence: the range kernel and the one-pass form. */
module PagedAttention {
  import opened Arithmetic
  import opened Results
  import opened RealSums
  import opened Softmax
  import opened CacheLayout
  import opened CacheWrites
  import opened SoftmaxKernels
  import opened AttentionKernels

  /** Head elements that one register block accumulates. */
  const HEAD_PART := 16

  /** One kernel launch: read-only tensors and the exponential. */
  datatype Launch = Launch(
    exp: real -> real,
    d: Dims,
    lanes: nat,
    numHeads: nat,
    scale: real,
    slopes: Option<seq<real>>,
    queries: seq<seq<real>>,
    tables: seq<seq<nat>>,
    lens: seq<nat>,
    keys: seq<real>,
    vals: seq<real>)

  function BlocksFor(d: Dims, n: nat): nat {
    (n + d.blockSize - 1) / d.blockSize
  }

  /** What the kernels take for granted of their arguments. */
  ghost predicate Ready(k: Launch) {
    && IsExp(k.exp)
    && k.numHeads > 0 && k.numHeads % k.d.heads == 0
    && k.lanes > 0 && k.d.blockSize % k.lanes == 0 && k.d.headSize % HEAD_PART == 0
    && |k.keys| == |k.vals| == k.d.blocks * BlockElems(k.d)
    && |k.queries| == |k.tables| == |k.lens|
    && (k.slopes.Some? ==> |k.slopes.value| == k.numHeads)
    && forall s :: 0 <= s < |k.lens| ==> SequenceReady(k, s)
  }

  ghost predicate SequenceReady(k: Launch, s: int)
    requires 0 <= s < |k.lens| && |k.queries| == |k.tables| == |k.lens|
  {
    && k.lens[s] >= 1 && BlocksFor(k.d, k.lens[s]) <= |k.tables[s]|
    && |k.queries[s]| >= k.numHeads * k.d.headSize
    && forall b :: 0 <= b < BlocksFor(k.d, k.lens[s]) ==> k.tables[s][b] < k.d.blocks
  }

  ghost predicate Row(k: Launch, s: int, h: int) {
    0 <= s < |k.lens| && 0 <= h < k.numHeads
  }

  /** Query heads share key-value heads evenly. */
  function KvHead(k: Launch, h: int): int {
    if k.numHeads / k.d.heads == 0 then 0 else h / (k.numHeads / k.d.heads)
  }

  lemma KvHeadBound(k: Launch, h: int)
    requires k.numHeads > 0 && k.numHeads % k.d.heads == 0 && 0 <= h < k.numHeads
    ensures k.numHeads / k.d.heads > 0 && 0 <= KvHead(k, h) < k.d.heads
    ensures KvHead(k, h) == h / (k.numHeads / k.d.heads)
  {
    var r := k.numHeads / k.d.heads;
    Quotients(k.numHeads, k.d.heads);
    if r <= 0 { MulMono(r, 0, k.d.heads); }
    assert r * k.d.heads == k.d.heads * r;
    QuotientBound(h, k.d.heads, r);
  }

  /** The start of a key-value head in the b-th block of a sequence's table. */
  ghost function HeadBase(k: Launch, s: int, h: int, b: int): int {
    Base(k.d, if 0 <= s < |k.tables| && 0 <= b < |k.tables[s]| then k.tables[s][b] else 0, KvHead(k, h))
  }

  ghost function Queries(k: Launch, s: int): seq<real> {
    if 0 <= s < |k.queries| then k.queries[s] else []
  }

  /** The scaled score of token t, read through the block table. */
  ghost function RawLogit(k: Launch, s: int, h: int): int -> real {
    t => Score(k.d, Queries(k, s), h * k.d.headSize, k.keys, HeadBase(k, s, h, t / k.d.blockSize), t % k.d.blockSize) * k.scale
  }

  ghost function Length(k: Launch, s: int): int {
    if 0 <= s < |k.lens| then k.lens[s] else 0
  }

  /** The score with its position bias. */
  ghost function Logit(k: Launch, s: int, h: int): int -> real {
    t => RawLogit(k, s, h)(t)
         + if k.slopes.Some? && 0 <= h < |k.slopes.value| then Bias(k.slopes.value[h], 0, Length(k, s), t) else 0.0
  }

  /** Element e of token t's value, read through the block table. */
  ghost function ValueAt(k: Launch, s: int, h: int, e: int): int -> real {
    t => At(k.vals, HeadBase(k, s, h, t / k.d.blockSize) + VOffset(k.d, t % k.d.blockSize, e))
  }

  /** Softmax attention of one query head over the whole sequence. */
  ghost function Attention(k: Launch, s: int, h: int, e: int): real {
    Average(k.exp, Logit(k, s, h), 0, Length(k, s), ValueAt(k, s, h, e))
  }

  // ---------------------------------------------------------------- logits

  /** A run of tokens that starts on a block boundary and stays inside the sequence. */
  ghost predicate TokenRange(k: Launch, s: int, h: int, first: nat, size: nat) {
    Ready(k) && Row(k, s, h) && size >= 1 && first * k.d.blockSize + size <= k.lens[s]
  }

  lemma BlockCount(d: Dims, n: nat)
    ensures BlocksFor(d, n) * d.blockSize >= n && (n > 0 ==> 0 < BlocksFor(d, n) && (BlocksFor(d, n) - 1) * d.blockSize < n)
  {
    Quotients(n + d.blockSize - 1, d.blockSize);
    var q := BlocksFor(d, n);
    assert (q - 1) * d.blockSize == q * d.blockSize - d.blockSize;
    if q <= 0 { MulMono(q, 0, d.blockSize); }
  }

  lemma BlockInTable(k: Launch, s: int, h: int, first: nat, size: nat, b: nat)
    requires TokenRange(k, s, h, first, size) && b < BlocksFor(k.d, size)
    ensures first + b < |k.tables[s]| && k.tables[s][first + b] < k.d.blocks
    ensures |k.queries[s]| >= k.numHeads * k.d.headSize
  {
    hide IsExp, BlockElems;
    assert SequenceReady(k, s);
    var bs, all := k.d.blockSize, BlocksFor(k.d, k.lens[s]);
    BlockCount(k.d, k.lens[s]);
    BlockCount(k.d, size);
    hide BlocksFor;
    MulMono(b, BlocksFor(k.d, size) - 1, bs);
    assert (first + b) * bs == first * bs + b * bs;
    if first + b >= all { MulMono(all, first + b, bs); }
  }

  lemma TokenOfBlock(d: Dims, b: nat, j: nat)
    requires j < d.blockSize
    ensures (b * d.blockSize + j) / d.blockSize == b && (b * d.blockSize + j) % d.blockSize == j
  {
    var t := b * d.blockSize + j;
    MulMono(0, b, d.blockSize);
    Quotients(t, d.blockSize);
    Digits(t / d.blockSize, t % d.blockSize, b, j, d.blockSize);
  }

  /** The query row and the block's keys are in bounds. */
  lemma KernelBounds(k: Launch, s: int, h: int, first: nat, size: nat, b: nat)
    requires TokenRange(k, s, h, first, size) && b < BlocksFor(k.d, size)
    ensures first + b < |k.tables[s]| && 0 <= KvHead(k, h) && k.numHeads / k.d.heads > 0
    ensures KvHead(k, h) == h / (k.numHeads / k.d.heads)
    ensures 0 <= h * k.d.headSize && h * k.d.headSize + k.d.headSize <= |k.queries[s]|
    ensures HeadBase(k, s, h, first + b) == k.tables[s][first + b] * BlockElems(k.d) + KvHead(k, h) * HeadElems(k.d) >= 0
    ensures HeadBase(k, s, h, first + b) + HeadElems(k.d) <= |k.keys| == |k.vals|
  {
    BlockInTable(k, s, h, first, size, b);
    KvHeadBound(k, h);
    hide IsExp, SequenceReady;
    DigitBound(h, k.d.headSize - 1, k.numHeads, k.d.headSize);
    MulMono(0, h, k.d.headSize);
    assert HeadElems(k.d) > 0 by { DigitBound(0, 0, k.d.headSize, k.d.blockSize); }
    InHead(k.d, k.tables[s][first + b], KvHead(k, h), HeadElems(k.d) - 1);
    InHead(k.d, k.tables[s][first + b], KvHead(k, h), 0);
  }

  /** The first n tokens of the range have their scores. */
  ghost predicate LogitsReady(k: Launch, s: int, h: int, start: int, logits: seq<real>, n: int) {
    forall i :: 0 <= i < n ==> At(logits, i) == RawLogit(k, s, h)(start + i)
  }

  lemma LogitOfToken(k: Launch, s: int, h: int, block: nat, j: nat, t: int, logit: real)
    requires Row(k, s, h) && |k.queries| == |k.lens| && j < k.d.blockSize && t == block * k.d.blockSize + j
    requires logit == Score(k.d, k.queries[s], h * k.d.headSize, k.keys, HeadBase(k, s, h, block), j) * k.scale
    ensures logit == RawLogit(k, s, h)(t)
  {
    hide Score, HeadBase;
    TokenOfBlock(k.d, block, j);
  }

  /** Logits before an address are kept and those after it are as they should be. */
  lemma JoinLogits(k: Launch, s: int, h: int, start: int, before: seq<real>, now: seq<real>, at: nat, n: nat)
    requires LogitsReady(k, s, h, start, before, at) && at <= |before| == |now| && now[..at] == before[..at]
    requires forall i :: at <= i < n ==> At(now, i) == RawLogit(k, s, h)(start + i)
    ensures LogitsReady(k, s, h, start, now, n)
  {
    hide RawLogit;
    forall i | 0 <= i < n ensures At(now, i) == RawLogit(k, s, h)(start + i) {
      if i < at {
        assert now[i] == now[..at][i] == before[..at][i];
        assert At(before, i) == RawLogit(k, s, h)(start + i);
      }
    }
  }

  lemma ScoreAt(d: Dims, q: seq<real>, qBase: int, keys: seq<real>, kBase: int, scale: real, logits: seq<real>, at: nat, n: nat, i: int)
    requires Scored(d, q, qBase, keys, kBase, scale, logits, at, n) && at <= i < at + n
    ensures At(logits, i) == Score(d, q, qBase, keys, kBase, i - at) * scale
  {
    hide Score;
    assert At(logits, at + (i - at)) == At(logits, i);
  }

  lemma LogitsOfBlock(k: Launch, s: int, h: int, first: nat, b: nat, before: seq<real>, now: seq<real>, n: nat, tokens: nat)
    requires Row(k, s, h) && |k.queries| == |k.lens|
    requires LogitsReady(k, s, h, first * k.d.blockSize, before, b * k.d.blockSize)
    requires b * k.d.blockSize <= |before| == |now| && now[..b * k.d.blockSize] == before[..b * k.d.blockSize]
    requires tokens <= k.d.blockSize && n == b * k.d.blockSize + tokens
    requires Scored(k.d, k.queries[s], h * k.d.headSize, k.keys, HeadBase(k, s, h, first + b), k.scale, now, b * k.d.blockSize, tokens)
    ensures LogitsReady(k, s, h, first * k.d.blockSize, now, n)
  {
    hide Score, HeadBase, RawLogit, LogitsReady, Scored, At;
    var at, start := b * k.d.blockSize, first * k.d.blockSize;
    assert (first + b) * k.d.blockSize == start + at;
    forall i | at <= i < n ensures At(now, i) == RawLogit(k, s, h)(start + i) {
      ScoreAt(k.d, k.queries[s], h * k.d.headSize, k.keys, HeadBase(k, s, h, first + b), k.scale, now, at, tokens, i);
      LogitOfToken(k, s, h, first + b, i - at, start + i, At(now, i));
    }
    JoinLogits(k, s, h, start, before, now, at, n);
  }

  /** Scores of a range of tokens, block by block. */
  method ComputeLogits(k: Launch, s: nat, h: nat, first: nat, size: nat, logits: array<real>)
    requires TokenRange(k, s, h, first, size) && BlocksFor(k.d, size) * k.d.blockSize <= logits.Length
    modifies logits
    ensures LogitsReady(k, s, h, first * k.d.blockSize, logits[..], size)
  {
    hide TokenRange, LogitsReady, Scored, HeadBase, KvHead, BlockElems, HeadElems, BlocksFor;
    assert Ready(k) && Row(k, s, h) && size >= 1 by { RangeReady(k, s, h, first, size); }
    hide Ready, Row;
    var blockNum := BlocksFor(k.d, size);
    BlockCount(k.d, size);
    assert 0 * k.d.blockSize == 0;
    NoLogits(k, s, h, first * k.d.blockSize, logits[..]);
    var lastTokens := size - (blockNum - 1) * k.d.blockSize;
    assert (blockNum - 1) * k.d.blockSize == blockNum * k.d.blockSize - k.d.blockSize;
    for b := 0 to blockNum
      invariant b < blockNum ==> LogitsReady(k, s, h, first * k.d.blockSize, logits[..], b * k.d.blockSize)
      invariant b == blockNum ==> LogitsReady(k, s, h, first * k.d.blockSize, logits[..], size)
    {
      KernelBounds(k, s, h, first, size, b);
      LaunchShape(k, s, h);
      var kBase := k.tables[s][first + b] * BlockElems(k.d) + (h / (k.numHeads / k.d.heads)) * HeadElems(k.d);
      var tokens := if b == blockNum - 1 then lastTokens else k.d.blockSize;
      MulMono(b + 1, blockNum, k.d.blockSize);
      MulMono(0, b, k.d.blockSize);
      assert (b + 1) * k.d.blockSize == b * k.d.blockSize + k.d.blockSize;
      ghost var before := logits[..];
      ReduceQKBlock(k.d, k.lanes, k.queries[s], h * k.d.headSize, k.keys, kBase, k.scale, logits, b * k.d.blockSize, tokens);
      assert before[..b * k.d.blockSize] == logits[..b * k.d.blockSize];
      LogitsOfBlock(k, s, h, first, b, before, logits[..], b * k.d.blockSize + tokens, tokens);
    }
  }

  lemma RangeReady(k: Launch, s: int, h: int, first: nat, size: nat)
    requires TokenRange(k, s, h, first, size)
    ensures Ready(k) && Row(k, s, h) && size >= 1
  {
  }

  lemma LaunchShape(k: Launch, s: int, h: int)
    requires Ready(k) && Row(k, s, h)
    ensures Row(k, s, h) && |k.queries| == |k.tables| == |k.lens| && 0 <= s < |k.lens|
    ensures k.lanes > 0 && k.d.blockSize % k.lanes == 0 && k.d.headSize % HEAD_PART == 0
    ensures k.slopes.Some? ==> 0 <= h < |k.slopes.value|
    ensures IsExp(k.exp)
  {
    hide IsExp, SequenceReady;
  }

  lemma NoLogits(k: Launch, s: int, h: int, start: int, logits: seq<real>)
    ensures LogitsReady(k, s, h, start, logits, 0)
  {
    hide RawLogit;
  }

  // ---------------------------------------------------------------- softmax of a range

  lemma {:induction false} MaxShift(n: int, start: int, f: int -> real, l: int -> real)
    requires n >= 1 && forall i :: 0 <= i < n ==> f(i) == l(start + i)
    ensures Max(0, n, f) == Max(start, start + n, l)
    decreases n
  {
    assert l(start + (n - 1)) == f(n - 1) && start + (n - 1) == start + n - 1;
    if n > 1 { MaxShift(n - 1, start, f, l); }
  }

  /** The first n entries are softmax weights of the tokens from start on. */
  ghost predicate Probabilities(k: Launch, s: int, h: int, start: int, prob: seq<real>, n: int, capacity: int, max: real, sum: real) {
    && sum >= 1.0
    && (forall i :: 0 <= i < n ==> At(prob, i) == Weigh(k.exp, Logit(k, s, h), max)(start + i) / sum)
    && forall i :: n <= i < capacity ==> At(prob, i) == 0.0
  }

  lemma RangeMass(k: Launch, s: int, h: int, start: int, n: int, f: int -> real, max: real)
    requires n >= 1 && forall i :: 0 <= i < n ==> f(i) == Logit(k, s, h)(start + i)
    ensures Max(0, n, f) == Max(start, start + n, Logit(k, s, h))
    ensures Mass(k.exp, f, 0, n, max) == Mass(k.exp, Logit(k, s, h), start, start + n, max)
  {
    hide Logit;
    MaxShift(n, start, f, Logit(k, s, h));
    SumShift(0, n, start, Weigh(k.exp, Logit(k, s, h), max), Weigh(k.exp, f, max));
  }

  /** Turns the scores of a range into softmax weights; returns the range's maximum and mass. */
  method SoftmaxRange(k: Launch, s: nat, h: nat, start: int, size: nat, capacity: nat, logits: array<real>)
    returns (max: real, sum: real)
    requires Ready(k) && Row(k, s, h) && 1 <= size <= capacity <= logits.Length
    requires LogitsReady(k, s, h, start, logits[..], size)
    modifies logits
    ensures max == Max(start, start + size, Logit(k, s, h))
    ensures sum == Mass(k.exp, Logit(k, s, h), start, start + size, max)
    ensures Probabilities(k, s, h, start, logits[..], size, capacity, max, sum)
  {
    hide Ready, Row, IsExp, RawLogit, Bias, Max, Mass;
    LaunchShape(k, s, h);
    ghost var before := logits[..];
    if k.slopes.Some? {
      forall i | 0 <= i < size
        ensures Biased(before, k.slopes.value[h], start, k.lens[s])(i) == Logit(k, s, h)(start + i)
      {
        BiasedLogit(k, s, h, start, before, size, i);
      }
      max, sum := ReduceSoftmaxAlibi(k.exp, logits, size, capacity, k.slopes.value[h], start, k.lens[s]);
      RangeMass(k, s, h, start, size, Biased(before, k.slopes.value[h], start, k.lens[s]), max);
      forall i | 0 <= i < size ensures At(logits[..], i) == Weigh(k.exp, Logit(k, s, h), max)(start + i) / sum {
        assert Biased(before, k.slopes.value[h], start, k.lens[s])(i) == before[i] + Bias(k.slopes.value[h], start, k.lens[s], i);
      }
    } else {
      forall i | 0 <= i < size ensures Elem(before, 0)(i) == Logit(k, s, h)(start + i) {
        PlainLogit(k, s, h, start, before, size, i);
      }
      max, sum := ReduceSoftmax(k.exp, logits, size, capacity);
      RangeMass(k, s, h, start, size, Elem(before, 0), max);
      forall i | 0 <= i < size ensures At(logits[..], i) == Weigh(k.exp, Logit(k, s, h), max)(start + i) / sum {
        assert Elem(before, 0)(i) == before[i];
      }
    }
  }

  lemma BiasedLogit(k: Launch, s: int, h: int, start: int, logits: seq<real>, n: int, i: int)
    requires LogitsReady(k, s, h, start, logits, n) && 0 <= i < n && Row(k, s, h)
    requires k.slopes.Some? && 0 <= h < |k.slopes.value|
    ensures Biased(logits, k.slopes.value[h], start, k.lens[s])(i) == Logit(k, s, h)(start + i)
  {
    hide RawLogit;
    assert start + i - k.lens[s] + 1 == 0 + (start + i) - k.lens[s] + 1;
  }

  lemma PlainLogit(k: Launch, s: int, h: int, start: int, logits: seq<real>, n: int, i: int)
    requires LogitsReady(k, s, h, start, logits, n) && 0 <= i < n && k.slopes.None?
    ensures Elem(logits, 0)(i) == Logit(k, s, h)(start + i)
  {
    hide RawLogit;
    var l := Logit(k, s, h);
    assert l(start + i) == RawLogit(k, s, h)(start + i) + 0.0;
  }

  // ---------------------------------------------------------------- values of a range

  /** The i-th probability times element e of the i-th token's value. */
  ghost function ProbVal(k: Launch, s: int, h: int, first: int, prob: seq<real>, e: int): int -> real {
    i => At(prob, i) * ValueAt(k, s, h, e)(first * k.d.blockSize + i)
  }

  lemma TermOfBlock(k: Launch, s: int, h: int, first: nat, prob: seq<real>, part: nat, b: nat, i: nat, lane: nat)
    requires lane < k.d.blockSize
    ensures Term(k.d, prob, b * k.d.blockSize, k.vals, HeadBase(k, s, h, first + b) + k.d.blockSize * (part * HEAD_PART), i, lane)
            == Lane(k.d.blockSize, ProbVal(k, s, h, first, prob, part * HEAD_PART + i), lane)(b)
  {
    hide HeadBase;
    var bs := k.d.blockSize;
    TokenOfBlock(k.d, first + b, lane);
    assert (first + b) * bs + lane == first * bs + (b * bs + lane);
    assert (part * HEAD_PART + i) * bs == bs * (part * HEAD_PART) + i * bs;
    assert VOffset(k.d, lane, part * HEAD_PART + i) == bs * (part * HEAD_PART) + VOffset(k.d, lane, i);
  }

  /** Every lane holds its share of the first b blocks. */
  ghost predicate LanesReady(k: Launch, s: int, h: int, first: nat, prob: seq<real>, part: nat, b: nat, accums: array2<real>)
    reads accums
  {
    forall i, lane :: 0 <= i < accums.Length0 && 0 <= lane < accums.Length1 ==>
      accums[i, lane] == Sum(0, b, Lane(k.d.blockSize, ProbVal(k, s, h, first, prob, part * HEAD_PART + i), lane))
  }

  lemma NoBlocksYet(k: Launch, s: int, h: int, first: nat, prob: seq<real>, part: nat, accums: array2<real>)
    requires forall i, lane :: 0 <= i < accums.Length0 && 0 <= lane < accums.Length1 ==> accums[i, lane] == 0.0
    ensures LanesReady(k, s, h, first, prob, part, 0, accums)
  {
    hide ProbVal;
  }

  /** The register block of one part of the head, over all blocks of the range. */
  method AccumulatePart(k: Launch, s: nat, h: nat, first: nat, size: nat, prob: array<real>, part: nat) returns (accums: array2<real>)
    requires TokenRange(k, s, h, first, size) && BlocksFor(k.d, size) * k.d.blockSize <= prob.Length
    requires part < k.d.headSize / HEAD_PART
    ensures fresh(accums) && accums.Length0 == HEAD_PART && accums.Length1 == k.d.blockSize
    ensures LanesReady(k, s, h, first, prob[..], part, BlocksFor(k.d, size), accums)
  {
    hide TokenRange, HeadBase, KvHead, BlockElems, HeadElems, BlocksFor, Term, ProbVal;
    accums := new real[HEAD_PART, k.d.blockSize]((i, lane) => 0.0);
    NoBlocksYet(k, s, h, first, prob[..], part, accums);
    var blockNum := BlocksFor(k.d, size);
    for b := 0 to blockNum
      invariant LanesReady(k, s, h, first, prob[..], part, b, accums)
    {
      KernelBounds(k, s, h, first, size, b);
      RangeReady(k, s, h, first, size);
      LaunchShape(k, s, h);
      hide Ready, Row;
      PartInHead(k.d, part);
      MulMono(b + 1, blockNum, k.d.blockSize);
      MulMono(0, b, k.d.blockSize);
      assert (b + 1) * k.d.blockSize == b * k.d.blockSize + k.d.blockSize;
      var vBase := k.tables[s][first + b] * BlockElems(k.d) + (h / (k.numHeads / k.d.heads)) * HeadElems(k.d)
                   + k.d.blockSize * (part * HEAD_PART);
      ReduceValueBlock(k.d, prob, b * k.d.blockSize, k.vals, vBase, accums);
      forall i, lane | 0 <= i < HEAD_PART && 0 <= lane < k.d.blockSize
        ensures Term(k.d, prob[..], b * k.d.blockSize, k.vals, vBase, i, lane)
                == Lane(k.d.blockSize, ProbVal(k, s, h, first, prob[..], part * HEAD_PART + i), lane)(b)
      {
        TermOfBlock(k, s, h, first, prob[..], part, b, i, lane);
      }
    }
  }

  lemma PartInHead(d: Dims, part: nat)
    requires d.headSize % HEAD_PART == 0 && part < d.headSize / HEAD_PART
    ensures part * HEAD_PART + HEAD_PART <= d.headSize
    ensures 0 <= d.blockSize * (part * HEAD_PART) && d.blockSize * (part * HEAD_PART) + HEAD_PART * d.blockSize <= HeadElems(d)
  {
    MulMono(part * HEAD_PART + HEAD_PART, d.headSize, d.blockSize);
    assert (part * HEAD_PART + HEAD_PART) * d.blockSize == d.blockSize * (part * HEAD_PART) + HEAD_PART * d.blockSize;
    MulMono(0, part * HEAD_PART, d.blockSize);
  }

  /** The lanes of one accumulator, added up. */
  method ReduceSum(k: Launch, s: nat, h: nat, first: nat, ghost prob: seq<real>, part: nat, ghost blockNum: nat,
                   accums: array2<real>, i: nat) returns (value: real)
    requires accums.Length0 == HEAD_PART && accums.Length1 == k.d.blockSize && i < HEAD_PART
    requires LanesReady(k, s, h, first, prob, part, blockNum, accums)
    ensures value == Sum(0, blockNum * k.d.blockSize, ProbVal(k, s, h, first, prob, part * HEAD_PART + i))
  {
    hide ProbVal;
    ghost var f := ProbVal(k, s, h, first, prob, part * HEAD_PART + i);
    value := 0.0;
    for lane := 0 to k.d.blockSize
      invariant value == Sum(0, lane, LaneTotals(blockNum, k.d.blockSize, f))
    {
      assert LaneTotals(blockNum, k.d.blockSize, f)(lane) == Sum(0, blockNum, Lane(k.d.blockSize, f, lane));
      value := value + accums[i, lane];
    }
    LaneSums(blockNum, k.d.blockSize, f);
  }

  /** The first n elements of a head's output are probability-weighted sums of values. */
  ghost predicate ValuesReady(k: Launch, s: int, h: int, first: nat, prob: seq<real>, tokens: int, dest: seq<real>, base: nat, n: int) {
    forall e :: 0 <= e < n ==> At(dest, base + e) == Sum(0, tokens, ProbVal(k, s, h, first, prob, e))
  }

  lemma ValueStored(k: Launch, s: int, h: int, first: nat, prob: seq<real>, tokens: int, dest: seq<real>, base: nat, n: int, value: real)
    requires ValuesReady(k, s, h, first, prob, tokens, dest, base, n) && 0 <= n && base + n < |dest|
    requires value == Sum(0, tokens, ProbVal(k, s, h, first, prob, n))
    ensures ValuesReady(k, s, h, first, prob, tokens, dest[base + n := value], base, n + 1)
  {
    hide ProbVal, Sum;
    forall e | 0 <= e < n
      ensures At(dest[base + n := value], base + e) == Sum(0, tokens, ProbVal(k, s, h, first, prob, e))
    {
      assert At(dest, base + e) == Sum(0, tokens, ProbVal(k, s, h, first, prob, e));
    }
  }

  lemma NoValues(k: Launch, s: int, h: int, first: nat, prob: seq<real>, tokens: int, dest: seq<real>, base: nat)
    ensures ValuesReady(k, s, h, first, prob, tokens, dest, base, 0)
  {
    hide ProbVal, Sum;
  }

  /** Weighted values of a range of tokens, into one head's output. */
  method ComputeValues(k: Launch, s: nat, h: nat, first: nat, size: nat, prob: array<real>, dest: array<real>, base: nat)
    requires TokenRange(k, s, h, first, size) && BlocksFor(k.d, size) * k.d.blockSize <= prob.Length
    requires base + k.d.headSize <= dest.Length && dest != prob
    modifies dest
    ensures ValuesReady(k, s, h, first, prob[..], BlocksFor(k.d, size) * k.d.blockSize, dest[..], base, k.d.headSize)
    ensures forall j :: 0 <= j < dest.Length && !(base <= j < base + k.d.headSize) ==> dest[j] == old(dest[j])
  {
    hide TokenRange, BlocksFor, LanesReady, ProbVal, ValuesReady, Sum;
    RangeReady(k, s, h, first, size);
    LaunchShape(k, s, h);
    hide Ready, Row;
    ghost var p, blockNum := prob[..], BlocksFor(k.d, size);
    NoValues(k, s, h, first, p, blockNum * k.d.blockSize, dest[..], base);
    for part := 0 to k.d.headSize / HEAD_PART
      invariant prob[..] == p
      invariant ValuesReady(k, s, h, first, p, blockNum * k.d.blockSize, dest[..], base, part * HEAD_PART)
      invariant forall j :: 0 <= j < dest.Length && !(base <= j < base + k.d.headSize) ==> dest[j] == old(dest[j])
    {
      PartInHead(k.d, part);
      var accums := AccumulatePart(k, s, h, first, size, prob, part);
      for i := 0 to HEAD_PART
        invariant LanesReady(k, s, h, first, p, part, blockNum, accums) && prob[..] == p
        invariant ValuesReady(k, s, h, first, p, blockNum * k.d.blockSize, dest[..], base, part * HEAD_PART + i)
        invariant forall j :: 0 <= j < dest.Length && !(base <= j < base + k.d.headSize) ==> dest[j] == old(dest[j])
      {
        var value := ReduceSum(k, s, h, first, p, part, blockNum, accums, i);
        ghost var now := dest[..];
        ValueStored(k, s, h, first, p, blockNum * k.d.blockSize, now, base, part * HEAD_PART + i, value);
        dest[base + (part * HEAD_PART + i)] := value;
        assert dest[..] == now[base + (part * HEAD_PART + i) := value];
      }
    }
  }

  // ---------------------------------------------------------------- a whole range

  lemma WeightedShare(k: Launch, s: int, h: int, first: nat, prob: seq<real>, size: int, capacity: int, max: real, sum: real, e: int, i: int)
    requires Probabilities(k, s, h, first * k.d.blockSize, prob, size, capacity, max, sum) && 0 <= i < capacity
    ensures i < size ==> ProbVal(k, s, h, first, prob, e)(i)
                         == (1.0 / sum) * Weighted(k.exp, Logit(k, s, h), max, ValueAt(k, s, h, e))(first * k.d.blockSize + i)
    ensures size <= i ==> ProbVal(k, s, h, first, prob, e)(i) == 0.0
  {
    hide Logit, ValueAt;
    var w, v := Weigh(k.exp, Logit(k, s, h), max)(first * k.d.blockSize + i), ValueAt(k, s, h, e)(first * k.d.blockSize + i);
    ShareOf(w, sum, v);
  }

  lemma ShareOf(w: real, sum: real, v: real)
    requires sum >= 1.0
    ensures (w / sum) * v == (1.0 / sum) * (w * v)
  {
  }

  /** Probabilities times values, padding included, is the softmax average of the range. */
  lemma ValuesAreAverage(k: Launch, s: int, h: int, first: nat, prob: seq<real>, size: int, capacity: int, max: real, sum: real, e: int)
    requires 1 <= size <= capacity
    requires Probabilities(k, s, h, first * k.d.blockSize, prob, size, capacity, max, sum)
    requires max == Max(first * k.d.blockSize, first * k.d.blockSize + size, Logit(k, s, h))
    requires sum == Mass(k.exp, Logit(k, s, h), first * k.d.blockSize, first * k.d.blockSize + size, max)
    ensures Sum(0, capacity, ProbVal(k, s, h, first, prob, e))
            == Average(k.exp, Logit(k, s, h), first * k.d.blockSize, first * k.d.blockSize + size, ValueAt(k, s, h, e))
  {
    hide Logit, ValueAt, Max, Mass, Weighted, Average, ProbVal;
    var start, l, v := first * k.d.blockSize, Logit(k, s, h), ValueAt(k, s, h, e);
    var f := ProbVal(k, s, h, first, prob, e);
    forall i | 0 <= i < capacity
      ensures i < size ==> f(i) == (1.0 / sum) * Weighted(k.exp, l, max, v)(start + i)
      ensures size <= i ==> f(i) == 0.0
    {
      WeightedShare(k, s, h, first, prob, size, capacity, max, sum, e, i);
    }
    SumPadded(size, capacity, start, 1.0 / sum, f, Weighted(k.exp, l, max, v));
    AverageOf(k.exp, l, start, start + size, v, max, sum);
  }

  lemma AverageOf(exp: real -> real, l: int -> real, lo: int, hi: int, v: int -> real, max: real, sum: real)
    requires max == Max(lo, hi, l) && sum == Mass(exp, l, lo, hi, max) >= 1.0
    ensures (1.0 / sum) * Sum(lo, hi, Weighted(exp, l, max, v)) == Average(exp, l, lo, hi, v)
  {
    hide Max, Mass, Weighted, Sum;
  }

  /** The head's output holds the softmax average of the range. */
  ghost predicate Averaged(k: Launch, s: int, h: int, start: int, size: int, dest: seq<real>, base: nat) {
    forall e :: 0 <= e < k.d.headSize ==>
      At(dest, base + e) == Average(k.exp, Logit(k, s, h), start, start + size, ValueAt(k, s, h, e))
  }

  /** Attention of one query head over a range of tokens: scores, softmax, values. */
  method AttendRange(k: Launch, s: nat, h: nat, first: nat, size: nat, logits: array<real>, dest: array<real>, base: nat)
    returns (max: real, sum: real)
    requires TokenRange(k, s, h, first, size) && BlocksFor(k.d, size) * k.d.blockSize <= logits.Length
    requires base + k.d.headSize <= dest.Length && dest != logits
    modifies logits, dest
    ensures max == Max(first * k.d.blockSize, first * k.d.blockSize + size, Logit(k, s, h))
    ensures sum == Mass(k.exp, Logit(k, s, h), first * k.d.blockSize, first * k.d.blockSize + size, max) && sum >= 1.0
    ensures Averaged(k, s, h, first * k.d.blockSize, size, dest[..], base)
    ensures forall j :: 0 <= j < dest.Length && !(base <= j < base + k.d.headSize) ==> dest[j] == old(dest[j])
  {
    hide TokenRange, BlocksFor, LogitsReady, ProbVal, Logit, ValueAt, Max, Mass, Sum, Average;
    RangeReady(k, s, h, first, size);
    hide Ready, Row;
    BlockCount(k.d, size);
    ghost var tokens := BlocksFor(k.d, size) * k.d.blockSize;
    ghost var d0 := dest[..];
    ComputeLogits(k, s, h, first, size, logits);
    max, sum := SoftmaxRange(k, s, h, first * k.d.blockSize, size, BlocksFor(k.d, size) * k.d.blockSize, logits);
    ghost var prob := logits[..];
    ComputeValues(k, s, h, first, size, logits, dest, base);
    forall e | 0 <= e < k.d.headSize
      ensures At(dest[..], base + e)
              == Average(k.exp, Logit(k, s, h), first * k.d.blockSize, first * k.d.blockSize + size, ValueAt(k, s, h, e))
    {
      ValuesAreAverage(k, s, h, first, prob, size, tokens, max, sum, e);
    }
  }
}
