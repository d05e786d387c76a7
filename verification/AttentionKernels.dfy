/** The block kernels of CPU paged attention: scores of one block's tokens, and their weighted values. */
module AttentionKernels {
  import opened Arithmetic
  import opened RealSums
  import opened CacheLayout
  import opened CacheWrites

  // ---------------------------------------------------------------- scores

  /** The products that make up the score of token t of one block: query times key, element by element. */
  ghost function Products(d: Dims, q: seq<real>, qBase: int, keys: seq<real>, kBase: int, t: int): int -> real {
    e => At(q, qBase + e) * At(keys, kBase + KOffset(d, t, e))
  }

  /** The accumulators of the first upTo tokens hold one more chunk than the others. */
  ghost predicate Accumulated(d: Dims, q: seq<real>, qBase: int, keys: seq<real>, kBase: int, accums: array2<real>,
                              c: nat, upTo: nat)
    reads accums
  {
    forall t, i :: 0 <= t < accums.Length0 && 0 <= i < accums.Length1 ==>
      accums[t, i] == Sum(0, if t < upTo then c + 1 else c, Lane(d.x, Products(d, q, qBase, keys, kBase, t), i))
  }

  /** The address of element i of chunk c of a token of a group. */
  lemma LaneAddress(d: Dims, c: nat, t: nat, i: nat)
    requires t < d.blockSize && c < d.headSize / d.x && i < d.x
    ensures c * d.x + i < d.headSize
    ensures c * d.x * d.blockSize + t * d.x + i == KOffset(d, t, c * d.x + i)
  {
    Chunks(d);
    DigitBound(c, i, d.headSize / d.x, d.x);
    Quotients(c * d.x + i, d.x);
    Digits((c * d.x + i) / d.x, (c * d.x + i) % d.x, c, i, d.x);
    Assoc(c, d.x, d.blockSize);
  }

  /** One chunk of x elements for one token. */
  method AccumulateToken(d: Dims, q: seq<real>, qBase: nat, keys: seq<real>, kBase: nat, accums: array2<real>, c: nat, t: nat)
    requires qBase + d.headSize <= |q| && kBase + HeadElems(d) <= |keys|
    requires t < accums.Length0 <= d.blockSize && accums.Length1 == d.x && c < d.headSize / d.x
    requires Accumulated(d, q, qBase, keys, kBase, accums, c, t)
    modifies accums
    ensures Accumulated(d, q, qBase, keys, kBase, accums, c, t + 1)
  {
    hide KOffset, HeadElems;
    ghost var f := Products(d, q, qBase, keys, kBase, t);
    for i := 0 to d.x
      invariant forall t', i' :: 0 <= t' < accums.Length0 && 0 <= i' < d.x && !(t' == t && i' < i) ==>
                  accums[t', i'] == old(accums[t', i'])
      invariant forall i' :: 0 <= i' < i ==> accums[t, i'] == Sum(0, c + 1, Lane(d.x, f, i'))
    {
      LaneAddress(d, c, t, i);
      KOffsetBound(d, t, c * d.x + i);
      ProductAt(d, q, qBase, keys, kBase, t, c, i);
      accums[t, i] := accums[t, i] + q[qBase + c * d.x + i] * keys[kBase + (c * d.x * d.blockSize + t * d.x + i)];
    }
  }

  lemma ProductAt(d: Dims, q: seq<real>, qBase: nat, keys: seq<real>, kBase: nat, t: nat, c: nat, i: nat)
    requires 0 <= c * d.x + i && qBase + c * d.x + i < |q|
    requires 0 <= KOffset(d, t, c * d.x + i) && kBase + KOffset(d, t, c * d.x + i) < |keys|
    ensures Lane(d.x, Products(d, q, qBase, keys, kBase, t), i)(c)
            == q[qBase + c * d.x + i] * keys[kBase + KOffset(d, t, c * d.x + i)]
  {
    hide KOffset;
    assert At(q, qBase + (c * d.x + i)) == q[qBase + c * d.x + i];
  }

  lemma AllAccumulated(d: Dims, q: seq<real>, qBase: int, keys: seq<real>, kBase: int, accums: array2<real>, c: nat)
    requires Accumulated(d, q, qBase, keys, kBase, accums, c, accums.Length0)
    ensures Accumulated(d, q, qBase, keys, kBase, accums, c + 1, 0)
  {
    hide Products;
  }

  /** One chunk of x elements for every token of the first groups. */
  method AccumulateChunk(d: Dims, lanes: nat, q: seq<real>, qBase: nat, keys: seq<real>, kBase: nat, accums: array2<real>,
                         c: nat, groupNum: nat)
    requires qBase + d.headSize <= |q| && kBase + HeadElems(d) <= |keys|
    requires accums.Length0 == groupNum * lanes <= d.blockSize && accums.Length1 == d.x && c < d.headSize / d.x
    requires Accumulated(d, q, qBase, keys, kBase, accums, c, 0)
    modifies accums
    ensures Accumulated(d, q, qBase, keys, kBase, accums, c + 1, 0)
  {
    hide Accumulated, KOffset, HeadElems;
    assert 0 * lanes == 0;
    for g := 0 to groupNum
      invariant Accumulated(d, q, qBase, keys, kBase, accums, c, g * lanes)
    {
      for token := 0 to lanes
        invariant Accumulated(d, q, qBase, keys, kBase, accums, c, g * lanes + token)
      {
        DigitBound(g, token, groupNum, lanes);
        AccumulateToken(d, q, qBase, keys, kBase, accums, c, g * lanes + token);
      }
      assert (g + 1) * lanes == g * lanes + lanes;
    }
    AllAccumulated(d, q, qBase, keys, kBase, accums, c);
  }

  /** The groups of tokens that cover tokenNum tokens stay inside the block. */
  lemma GroupsFit(d: Dims, lanes: nat, tokenNum: nat)
    requires lanes > 0 && d.blockSize % lanes == 0 && tokenNum <= d.blockSize
    ensures tokenNum <= ((tokenNum + lanes - 1) / lanes) * lanes <= d.blockSize
  {
    var n := (tokenNum + lanes - 1) / lanes;
    Quotients(tokenNum + lanes - 1, lanes);
    Quotients(d.blockSize, lanes);
    if n > d.blockSize / lanes { MulMono(d.blockSize / lanes + 1, n, lanes); }
    MulMono(n, if n > d.blockSize / lanes then n else d.blockSize / lanes, lanes);
  }

  /** The dot product of the query and token t's key. */
  ghost function Score(d: Dims, q: seq<real>, qBase: int, keys: seq<real>, kBase: int, t: int): real {
    Sum(0, d.headSize, Products(d, q, qBase, keys, kBase, t))
  }

  /** The first n logits from an address on are scaled scores. */
  ghost predicate Scored(d: Dims, q: seq<real>, qBase: int, keys: seq<real>, kBase: int, scale: real,
                         logits: seq<real>, at: nat, n: nat)
  {
    forall t :: 0 <= t < n ==> At(logits, at + t) == Score(d, q, qBase, keys, kBase, t) * scale
  }

  lemma ScoredNext(d: Dims, q: seq<real>, qBase: int, keys: seq<real>, kBase: int, scale: real, logits: seq<real>, at: nat, n: nat, dot: real)
    requires Scored(d, q, qBase, keys, kBase, scale, logits, at, n) && at + n < |logits|
    requires dot == Score(d, q, qBase, keys, kBase, n)
    ensures Scored(d, q, qBase, keys, kBase, scale, logits[at + n := dot * scale], at, n + 1)
  {
    hide Score;
    forall t | 0 <= t < n
      ensures At(logits[at + n := dot * scale], at + t) == Score(d, q, qBase, keys, kBase, t) * scale
    {
      assert At(logits, at + t) == Score(d, q, qBase, keys, kBase, t) * scale;
    }
  }

  lemma ScoredPrefix(d: Dims, q: seq<real>, qBase: int, keys: seq<real>, kBase: int, scale: real, logits: seq<real>, at: nat, n: nat, m: nat)
    requires Scored(d, q, qBase, keys, kBase, scale, logits, at, n) && m <= n
    ensures Scored(d, q, qBase, keys, kBase, scale, logits, at, m)
  {
    hide Score;
  }

  lemma NothingScored(d: Dims, q: seq<real>, qBase: int, keys: seq<real>, kBase: int, scale: real, logits: seq<real>, at: nat)
    ensures Scored(d, q, qBase, keys, kBase, scale, logits, at, 0)
  {
    hide Score;
  }

  /** Scaled scores of a block's tokens. Whole groups are written, so up to lanes - 1 entries past tokenNum. */
  method ReduceQKBlock(d: Dims, lanes: nat, q: seq<real>, qBase: nat, keys: seq<real>, kBase: nat, scale: real,
                       logits: array<real>, at: nat, tokenNum: nat)
    requires lanes > 0 && d.blockSize % lanes == 0 && tokenNum <= d.blockSize
    requires qBase + d.headSize <= |q| && kBase + HeadElems(d) <= |keys| && at + d.blockSize <= logits.Length
    modifies logits
    ensures Scored(d, q, qBase, keys, kBase, scale, logits[..], at, tokenNum)
    ensures logits[..at] == old(logits[..at])
  {
    hide KOffset, HeadElems, Scored, Score;
    var groupNum := (tokenNum + lanes - 1) / lanes;
    GroupsFit(d, lanes, tokenNum);
    var accums := new real[groupNum * lanes, d.x]((t, i) => 0.0);
    NothingAccumulated(d, q, qBase, keys, kBase, accums);
    hide Accumulated;
    for c := 0 to d.headSize / d.x
      invariant Accumulated(d, q, qBase, keys, kBase, accums, c, 0)
      invariant logits[..] == old(logits[..])
    {
      AccumulateChunk(d, lanes, q, qBase, keys, kBase, accums, c, groupNum);
    }
    StoreScores(d, lanes, q, qBase, keys, kBase, scale, accums, logits, at, groupNum);
    ScoredPrefix(d, q, qBase, keys, kBase, scale, logits[..], at, groupNum * lanes, tokenNum);
  }

  method StoreScores(d: Dims, lanes: nat, q: seq<real>, qBase: nat, keys: seq<real>, kBase: nat, scale: real,
                     accums: array2<real>, logits: array<real>, at: nat, groupNum: nat)
    requires accums.Length0 == groupNum * lanes && accums.Length1 == d.x && at + groupNum * lanes <= logits.Length
    requires Accumulated(d, q, qBase, keys, kBase, accums, d.headSize / d.x, 0)
    modifies logits
    ensures Scored(d, q, qBase, keys, kBase, scale, logits[..], at, groupNum * lanes)
    ensures logits[..at] == old(logits[..at])
  {
    hide Accumulated, Scored, Score;
    assert 0 * lanes == 0;
    NothingScored(d, q, qBase, keys, kBase, scale, logits[..], at);
    for g := 0 to groupNum
      invariant logits[..at] == old(logits[..at])
      invariant Scored(d, q, qBase, keys, kBase, scale, logits[..], at, g * lanes)
    {
      for token := 0 to lanes
        invariant logits[..at] == old(logits[..at])
        invariant Scored(d, q, qBase, keys, kBase, scale, logits[..], at, g * lanes + token)
      {
        DigitBound(g, token, groupNum, lanes);
        var t := g * lanes + token;
        var dot := SubSum(d, q, qBase, keys, kBase, accums, t);
        ghost var before := logits[..];
        ScoredNext(d, q, qBase, keys, kBase, scale, before, at, t, dot);
        logits[at + t] := dot * scale;
        assert logits[..] == before[at + t := dot * scale];
        assert logits[..at] == before[..at];
        assert g * lanes + (token + 1) == t + 1;
      }
      assert (g + 1) * lanes == g * lanes + lanes;
    }
  }

  lemma NothingAccumulated(d: Dims, q: seq<real>, qBase: int, keys: seq<real>, kBase: int, accums: array2<real>)
    requires forall t, i :: 0 <= t < accums.Length0 && 0 <= i < accums.Length1 ==> accums[t, i] == 0.0
    ensures Accumulated(d, q, qBase, keys, kBase, accums, 0, 0)
  {
    hide Products;
  }

  /** Adds one token's lanes up: the dot product of query and key. */
  method SubSum(d: Dims, q: seq<real>, qBase: nat, keys: seq<real>, kBase: nat, accums: array2<real>, t: nat) returns (dot: real)
    requires t < accums.Length0 && accums.Length1 == d.x
    requires Accumulated(d, q, qBase, keys, kBase, accums, d.headSize / d.x, 0)
    ensures dot == Score(d, q, qBase, keys, kBase, t)
  {
    hide Products;
    ghost var f := Products(d, q, qBase, keys, kBase, t);
    ghost var n := d.headSize / d.x;
    dot := 0.0;
    for i := 0 to d.x
      invariant dot == Sum(0, i, LaneTotals(n, d.x, f))
    {
      assert LaneTotals(n, d.x, f)(i) == Sum(0, n, Lane(d.x, f, i));
      dot := dot + accums[t, i];
    }
    Chunks(d);
    LaneSums(n, d.x, f);
  }

  // ---------------------------------------------------------------- values

  /** What one lane adds for head element i. */
  ghost function Term(d: Dims, prob: seq<real>, at: int, vals: seq<real>, vBase: int, i: int, lane: int): real {
    At(prob, at + lane) * At(vals, vBase + VOffset(d, lane, i))
  }

  /** One head element of one block, lane by lane. */
  method AccumulateValues(d: Dims, prob: array<real>, at: nat, vals: seq<real>, vBase: nat, accums: array2<real>, i: nat)
    requires at + d.blockSize <= prob.Length && i < accums.Length0 && accums.Length1 == d.blockSize
    requires vBase + accums.Length0 * d.blockSize <= |vals|
    modifies accums
    ensures forall lane :: 0 <= lane < d.blockSize ==>
              accums[i, lane] == old(accums[i, lane]) + Term(d, prob[..], at, vals, vBase, i, lane)
    ensures forall i', lane :: 0 <= i' < accums.Length0 && 0 <= lane < d.blockSize && i' != i ==>
              accums[i', lane] == old(accums[i', lane])
  {
    hide Term;
    for lane := 0 to d.blockSize
      invariant forall l :: 0 <= l < lane ==>
                  accums[i, l] == old(accums[i, l]) + Term(d, prob[..], at, vals, vBase, i, l)
      invariant forall l :: lane <= l < d.blockSize ==> accums[i, l] == old(accums[i, l])
      invariant forall i', l :: 0 <= i' < accums.Length0 && 0 <= l < d.blockSize && i' != i ==>
                  accums[i', l] == old(accums[i', l])
    {
      DigitBound(i, lane, accums.Length0, d.blockSize);
      TermIs(d, prob[..], at, vals, vBase, i, lane);
      accums[i, lane] := accums[i, lane] + prob[at + lane] * vals[vBase + (d.blockSize * i + lane)];
    }
  }

  lemma TermIs(d: Dims, prob: seq<real>, at: nat, vals: seq<real>, vBase: nat, i: nat, lane: nat)
    requires at + lane < |prob| && vBase + (i * d.blockSize + lane) < |vals|
    ensures Term(d, prob, at, vals, vBase, i, lane) == prob[at + lane] * vals[vBase + (d.blockSize * i + lane)]
  {
    assert i * d.blockSize == d.blockSize * i;
    assert i * d.blockSize >= 0 by { MulMono(0, i, d.blockSize); }
  }

  /** One block's probabilities times values, added lane by lane for a few head elements. */
  method ReduceValueBlock(d: Dims, prob: array<real>, at: nat, vals: seq<real>, vBase: nat, accums: array2<real>)
    requires at + d.blockSize <= prob.Length && accums.Length1 == d.blockSize
    requires vBase + accums.Length0 * d.blockSize <= |vals|
    modifies accums
    ensures forall i, lane :: 0 <= i < accums.Length0 && 0 <= lane < d.blockSize ==>
              accums[i, lane] == old(accums[i, lane]) + Term(d, prob[..], at, vals, vBase, i, lane)
  {
    hide Term;
    for i := 0 to accums.Length0
      invariant forall i', lane :: i <= i' < accums.Length0 && 0 <= lane < d.blockSize ==>
                  accums[i', lane] == old(accums[i', lane])
      invariant forall i', lane :: 0 <= i' < i && 0 <= lane < d.blockSize ==>
                  accums[i', lane] == old(accums[i', lane]) + Term(d, prob[..], at, vals, vBase, i', lane)
    {
      AccumulateValues(d, prob, at, vals, vBase, accums, i);
    }
  }
}
