/** The two CPU paged-attention kernels over all sequences and heads, and what one computes of the other. */
module PagedAttentionKernels {
  import opened Arithmetic
  import opened Results
  import opened RealSums
  import opened Softmax
  import opened CacheLayout
  import opened CacheWrites
  import opened SoftmaxKernels
  import opened PagedAttention

  /** A head's place among all rows of the batch. */
  function RowIndex(k: Launch, s: int, h: int): int {
    s * k.numHeads + h
  }

  function Rows(k: Launch): int {
    |k.lens| * k.numHeads
  }

  lemma RowBound(k: Launch, s: int, h: int)
    requires Row(k, s, h)
    ensures 0 <= RowIndex(k, s, h) < Rows(k)
  {
    DigitBound(s, h, |k.lens|, k.numHeads);
  }

  lemma RowDistinct(k: Launch, s: int, h: int, s': int, h': int)
    requires Row(k, s, h) && Row(k, s', h') && RowIndex(k, s, h) == RowIndex(k, s', h')
    ensures s == s' && h == h'
  {
    Digits(s, h, s', h', k.numHeads);
  }

  /** Row r of width m lies in bounds and apart from every other row. */
  lemma RowSpan(r: int, n: int, m: int)
    requires 0 <= r < n && m >= 0
    ensures 0 <= r * m && r * m + m <= n * m
  {
    MulMono(0, r, m);
    MulMono(r + 1, n, m);
  }

  lemma RowsApart(r: int, r': int, m: int, i: int)
    requires r != r' && 0 <= i < m
    ensures r' * m + i < r * m || r * m + m <= r' * m + i
  {
    if r < r' { MulMono(r + 1, r', m); } else { MulMono(r' + 1, r, m); }
  }

  /** Element e of row r of a table of rows of width m. */
  ghost function RowElem(s: seq<real>, m: int, r: int, e: int): real {
    At(s, r * m + e)
  }

  /** Entries outside lo..hi are unchanged. */
  ghost predicate SameOutside(before: seq<real>, now: seq<real>, lo: int, hi: int) {
    |now| == |before| && forall j :: 0 <= j < |before| && !(lo <= j < hi) ==> now[j] == before[j]
  }

  lemma RowElemKept(before: seq<real>, now: seq<real>, m: int, i: int, r: int, e: int)
    requires SameOutside(before, now, i * m, i * m + m) && i != r && 0 <= e < m
    ensures RowElem(now, m, r, e) == RowElem(before, m, r, e)
  {
    RowsApart(i, r, m, e);
  }

  // ---------------------------------------------------------------- one pass

  /** A row of the output holds full attention. */
  ghost predicate Attended(k: Launch, s: int, h: int, out: seq<real>) {
    forall e :: 0 <= e < k.d.headSize ==>
      RowElem(out, k.d.headSize, RowIndex(k, s, h), e) == Attention(k, s, h, e)
  }

  lemma AttendedKept(k: Launch, s: int, h: int, r: int, before: seq<real>, now: seq<real>)
    requires Attended(k, s, h, before) && r != RowIndex(k, s, h)
    requires SameOutside(before, now, r * k.d.headSize, r * k.d.headSize + k.d.headSize)
    ensures Attended(k, s, h, now)
  {
    hide Attention, RowIndex, RowElem, SameOutside;
    forall e | 0 <= e < k.d.headSize
      ensures RowElem(now, k.d.headSize, RowIndex(k, s, h), e) == Attention(k, s, h, e)
    {
      RowElemKept(before, now, k.d.headSize, r, RowIndex(k, s, h), e);
    }
  }

  lemma WholeRange(k: Launch, s: int, h: int)
    requires Ready(k) && Row(k, s, h)
    ensures TokenRange(k, s, h, 0, k.lens[s]) && Length(k, s) == k.lens[s] >= 1
  {
    hide IsExp;
    assert SequenceReady(k, s);
  }

  lemma AttendedByRange(k: Launch, s: int, h: int, out: seq<real>, base: nat)
    requires Row(k, s, h) && base == RowIndex(k, s, h) * k.d.headSize && Averaged(k, s, h, 0, k.lens[s], out, base)
    ensures Attended(k, s, h, out)
  {
    hide Average, Logit, ValueAt;
  }

  /** Kernel v1: one softmax over each whole sequence. */
  method PagedAttentionV1(k: Launch, out: array<real>, logits: array<real>)
    requires Ready(k) && out != logits && out.Length == Rows(k) * k.d.headSize
    requires forall s :: 0 <= s < |k.lens| ==> BlocksFor(k.d, k.lens[s]) * k.d.blockSize <= logits.Length
    modifies out, logits
    ensures forall s, h :: Row(k, s, h) ==> Attended(k, s, h, out[..])
  {
    hide Ready, TokenRange, BlocksFor, Attended, Averaged, Max, Mass, Logit, RowIndex, Rows, RowElem;
    for s := 0 to |k.lens|
      invariant forall s', h :: Row(k, s', h) && s' < s ==> Attended(k, s', h, out[..])
    {
      for h := 0 to k.numHeads
        invariant forall s', h' :: Row(k, s', h') && (s' < s || (s' == s && h' < h)) ==> Attended(k, s', h', out[..])
      {
        WholeRange(k, s, h);
        RowBound(k, s, h);
        RowSpan(RowIndex(k, s, h), Rows(k), k.d.headSize);
        ghost var before := out[..];
        var _, _ := AttendRange(k, s, h, 0, k.lens[s], logits, out, RowIndex(k, s, h) * k.d.headSize);
        AttendedByRange(k, s, h, out[..], RowIndex(k, s, h) * k.d.headSize);
        forall s', h' | Row(k, s', h') && (s' < s || (s' == s && h' < h)) ensures Attended(k, s', h', out[..]) {
          if RowIndex(k, s', h') == RowIndex(k, s, h) { RowDistinct(k, s', h', s, h); }
          AttendedKept(k, s', h', RowIndex(k, s, h), before, out[..]);
        }
      }
    }
  }

  // ---------------------------------------------------------------- partitions

  function Parts(k: Launch, w: nat, s: int): int
    requires w > 0
  {
    if 0 <= s < |k.lens| then (k.lens[s] + w - 1) / w else 0
  }

  /** The place of one partition of one row in the auxiliary buffers. */
  function PartIndex(k: Launch, maxParts: nat, s: int, h: int, p: int): int {
    RowIndex(k, s, h) * maxParts + p
  }

  /** Partition sizes are whole blocks, and the buffers hold every partition. */
  ghost predicate Partitioned(k: Launch, w: nat, maxParts: nat) {
    && Ready(k) && w > 0 && w % k.d.blockSize == 0
    && forall s :: 0 <= s < |k.lens| ==> Parts(k, w, s) <= maxParts
  }

  lemma PartsAre(k: Launch, w: nat, maxParts: nat, s: int, h: int)
    requires Partitioned(k, w, maxParts) && Row(k, s, h)
    ensures PartsOf(Length(k, s), w, Parts(k, w, s)) && Parts(k, w, s) <= maxParts && Length(k, s) == k.lens[s]
    ensures IsExp(k.exp)
  {
    WholeRange(k, s, h);
    hide Ready, Row;
    LaunchShape(k, s, h);
    hide IsExp;
    Quotients(k.lens[s] + w - 1, w);
    var q := Parts(k, w, s);
    assert (q - 1) * w == q * w - w;
    if q <= 0 { MulMono(q, 0, w); }
  }

  /** The output and the three auxiliary buffers. */
  datatype Buffers = Buffers(out: seq<real>, maxLogits: seq<real>, expSums: seq<real>, tmp: seq<real>)

  ghost predicate Sized(k: Launch, maxParts: nat, b: Buffers) {
    && |b.out| == Rows(k) * k.d.headSize
    && |b.maxLogits| == |b.expSums| == Rows(k) * maxParts
    && |b.tmp| == Rows(k) * maxParts * k.d.headSize
  }

  /** One partition's softmax average is in the temporary output. */
  ghost predicate PartAveraged(k: Launch, w: nat, maxParts: nat, s: int, h: int, p: int, tmp: seq<real>) {
    forall e :: 0 <= e < k.d.headSize ==>
      RowElem(tmp, k.d.headSize, PartIndex(k, maxParts, s, h, p), e)
      == PartAverage(k.exp, Logit(k, s, h), Length(k, s), w, ValueAt(k, s, h, e))(p)
  }

  /** One partition's maximum, mass and average are stored. */
  ghost predicate PartStored(k: Launch, w: nat, maxParts: nat, s: int, h: int, p: int, b: Buffers) {
    && At(b.maxLogits, PartIndex(k, maxParts, s, h, p)) == PartMax(Logit(k, s, h), Length(k, s), w)(p)
    && At(b.expSums, PartIndex(k, maxParts, s, h, p)) == PartMass(k.exp, Logit(k, s, h), Length(k, s), w)(p) >= 0.0
    && PartAveraged(k, w, maxParts, s, h, p, b.tmp)
  }

  /** What the first phase leaves for one partition of one row. */
  ghost predicate PartDone(k: Launch, w: nat, maxParts: nat, s: int, h: int, p: int, b: Buffers)
    requires w > 0
  {
    if Parts(k, w, s) == 1 then p == 0 ==> Attended(k, s, h, b.out)
    else p < Parts(k, w, s) ==> PartStored(k, w, maxParts, s, h, p, b)
  }

  /** One partition of one row was written and nothing else. */
  ghost predicate OnlyPart(k: Launch, w: nat, maxParts: nat, s: int, h: int, p: int, before: Buffers, now: Buffers)
    requires w > 0
  {
    var r, i, m := RowIndex(k, s, h), PartIndex(k, maxParts, s, h, p), k.d.headSize;
    if Parts(k, w, s) == 1 then
      && SameOutside(before.out, now.out, r * m, r * m + m)
      && now == before.(out := now.out) && (p > 0 ==> now == before)
    else
      && now.out == before.out
      && SameOutside(before.maxLogits, now.maxLogits, i, i + 1)
      && SameOutside(before.expSums, now.expSums, i, i + 1)
      && SameOutside(before.tmp, now.tmp, i * m, i * m + m)
  }

  lemma PartIndexBound(k: Launch, maxParts: nat, s: int, h: int, p: int)
    requires Row(k, s, h) && 0 <= p < maxParts
    ensures 0 <= PartIndex(k, maxParts, s, h, p) < Rows(k) * maxParts
  {
    RowBound(k, s, h);
    DigitBound(RowIndex(k, s, h), p, Rows(k), maxParts);
  }

  lemma PartIndexDistinct(k: Launch, maxParts: nat, s: int, h: int, p: int, s': int, h': int, p': int)
    requires Row(k, s, h) && Row(k, s', h') && 0 <= p < maxParts && 0 <= p' < maxParts
    requires PartIndex(k, maxParts, s, h, p) == PartIndex(k, maxParts, s', h', p')
    ensures s == s' && h == h' && p == p'
  {
    Digits(RowIndex(k, s, h), p, RowIndex(k, s', h'), p', maxParts);
    RowDistinct(k, s, h, s', h');
  }

  lemma PartAveragedKept(k: Launch, w: nat, maxParts: nat, s: int, h: int, p: int, i: int, before: seq<real>, now: seq<real>)
    requires PartAveraged(k, w, maxParts, s, h, p, before) && i != PartIndex(k, maxParts, s, h, p)
    requires SameOutside(before, now, i * k.d.headSize, i * k.d.headSize + k.d.headSize)
    ensures PartAveraged(k, w, maxParts, s, h, p, now)
  {
    hide PartAverage, PartIndex, RowElem, SameOutside;
    var q := PartIndex(k, maxParts, s, h, p);
    forall e | 0 <= e < k.d.headSize ensures RowElem(now, k.d.headSize, q, e) == RowElem(before, k.d.headSize, q, e) {
      RowElemKept(before, now, k.d.headSize, i, q, e);
    }
  }

  lemma PartStoredKept(k: Launch, w: nat, maxParts: nat, s: int, h: int, p: int, i: int, before: Buffers, now: Buffers)
    requires PartStored(k, w, maxParts, s, h, p, before) && i != PartIndex(k, maxParts, s, h, p)
    requires SameOutside(before.maxLogits, now.maxLogits, i, i + 1) && SameOutside(before.expSums, now.expSums, i, i + 1)
    requires SameOutside(before.tmp, now.tmp, i * k.d.headSize, i * k.d.headSize + k.d.headSize)
    ensures PartStored(k, w, maxParts, s, h, p, now)
  {
    hide PartMax, PartMass, PartAveraged, PartIndex;
    PartAveragedKept(k, w, maxParts, s, h, p, i, before.tmp, now.tmp);
  }

  /** Writing one partition keeps what was stored for every other. */
  lemma OthersKept(k: Launch, w: nat, maxParts: nat, s: int, h: int, p: int, s': int, h': int, p': int, before: Buffers, now: Buffers)
    requires w > 0 && Row(k, s, h) && Row(k, s', h') && 0 <= p < maxParts && 0 <= p' < maxParts
    requires s' != s || h' != h || p' != p
    requires OnlyPart(k, w, maxParts, s, h, p, before, now) && PartDone(k, w, maxParts, s', h', p', before)
    ensures PartDone(k, w, maxParts, s', h', p', now)
  {
    hide Attended, PartStored, RowIndex, Parts, Row;
    if RowIndex(k, s', h') == RowIndex(k, s, h) { RowDistinct(k, s', h', s, h); }
    if PartIndex(k, maxParts, s', h', p') == PartIndex(k, maxParts, s, h, p) {
      PartIndexDistinct(k, maxParts, s', h', p', s, h, p);
    }
    if Parts(k, w, s') == 1 && p' == 0 {
      if Parts(k, w, s) == 1 && p == 0 { AttendedKept(k, s', h', RowIndex(k, s, h), before.out, now.out); }
    } else if Parts(k, w, s') != 1 && p' < Parts(k, w, s') {
      if Parts(k, w, s) == 1 {
        assert now == before.(out := now.out);
        StoredFrame(k, w, maxParts, s', h', p', before, now);
      } else {
        PartStoredKept(k, w, maxParts, s', h', p', PartIndex(k, maxParts, s, h, p), before, now);
      }
    }
  }

  lemma StoredFrame(k: Launch, w: nat, maxParts: nat, s: int, h: int, p: int, before: Buffers, now: Buffers)
    requires PartStored(k, w, maxParts, s, h, p, before) && now == before.(out := now.out)
    ensures PartStored(k, w, maxParts, s, h, p, now)
  {
    hide PartMax, PartMass, PartAveraged, PartIndex;
  }
}
