/** The partitioned kernel, phase by phase, and its result against the one-pass kernel's. */
module PagedAttentionV2 {
  import opened Arithmetic
  import opened Results
  import opened RealSums
  import opened Softmax
  import opened CacheLayout
  import opened CacheWrites
  import opened SoftmaxKernels
  import opened PagedAttention
  import opened PagedAttentionKernels

  // ---------------------------------------------------------------- phase 1: partitions

  /** A started partition is a token range on a block boundary. */
  lemma PartitionRange(k: Launch, w: nat, maxParts: nat, s: int, h: int, p: int)
    requires Partitioned(k, w, maxParts) && Row(k, s, h) && 0 <= p && p * w < k.lens[s]
    ensures Length(k, s) == k.lens[s] && 0 <= p * w < PartEnd(k.lens[s], w, p) <= p * w + w && p < Parts(k, w, s)
    ensures var first := p * w / k.d.blockSize;
            && 0 <= first && first * k.d.blockSize == p * w
            && TokenRange(k, s, h, first, PartEnd(k.lens[s], w, p) - p * w)
            && BlocksFor(k.d, PartEnd(k.lens[s], w, p) - p * w) * k.d.blockSize <= w
  {
    PartsAre(k, w, maxParts, s, h);
    var n, parts := k.lens[s], Parts(k, w, s);
    assert p < parts by {
      if p >= parts { MulMono(parts, p, w); }
    }
    hide Parts, Ready, Row;
    PartRange(n, w, parts, p);
    WholeMultiple(p, w, k.d.blockSize);
    RangeReadyBack(k, s, h);
    WholeBlocksInPart(k.d, w, PartEnd(n, w, p) - p * w);
  }

  lemma RangeReadyBack(k: Launch, s: int, h: int)
    requires Ready(k) && Row(k, s, h)
    ensures forall first: nat, size: nat :: size >= 1 && first * k.d.blockSize + size <= k.lens[s] ==> TokenRange(k, s, h, first, size)
  {
    hide Ready, Row;
  }

  lemma WholeMultiple(p: nat, w: nat, bs: nat)
    requires bs > 0 && w % bs == 0
    ensures 0 <= p * w / bs && (p * w / bs) * bs == p * w
  {
    Quotients(w, bs);
    Assoc(p, w / bs, bs);
    assert p * w == (p * (w / bs)) * bs;
    Quotients(p * w, bs);
    MulMono(0, p, w);
    Digits(p * w / bs, p * w % bs, p * (w / bs), 0, bs);
    if p * w / bs < 0 { MulMono(p * w / bs, -1, bs); }
  }

  lemma WholeBlocksInPart(d: Dims, w: nat, n: nat)
    requires w % d.blockSize == 0 && n <= w
    ensures BlocksFor(d, n) * d.blockSize <= w
  {
    BlockCount(d, n);
    Quotients(w, d.blockSize);
    var q := w / d.blockSize;
    if n > 0 && BlocksFor(d, n) - 1 >= q { MulMono(q, BlocksFor(d, n) - 1, d.blockSize); }
    MulMono(BlocksFor(d, n), if n > 0 && BlocksFor(d, n) - 1 >= q then BlocksFor(d, n) else if q < BlocksFor(d, n) then BlocksFor(d, n) else q, d.blockSize);
  }

  lemma PartAveragedByRange(k: Launch, w: nat, maxParts: nat, s: int, h: int, p: int, size: int, tmp: seq<real>, base: nat)
    requires base == PartIndex(k, maxParts, s, h, p) * k.d.headSize && p * w + size == PartEnd(Length(k, s), w, p)
    requires Averaged(k, s, h, p * w, size, tmp, base)
    ensures PartAveraged(k, w, maxParts, s, h, p, tmp)
  {
    hide Average, Logit, ValueAt, PartIndex, Length;
    forall e | 0 <= e < k.d.headSize
      ensures RowElem(tmp, k.d.headSize, PartIndex(k, maxParts, s, h, p), e)
              == PartAverage(k.exp, Logit(k, s, h), Length(k, s), w, ValueAt(k, s, h, e))(p)
    {
      assert At(tmp, base + e) == Average(k.exp, Logit(k, s, h), p * w, p * w + size, ValueAt(k, s, h, e));
    }
  }

  /** One partition's maximum and mass. */
  lemma PartValues(k: Launch, w: nat, s: int, h: int, p: int, size: int, max: real, sum: real)
    requires p * w + size == PartEnd(Length(k, s), w, p)
    requires max == Max(p * w, p * w + size, Logit(k, s, h))
    requires sum == Mass(k.exp, Logit(k, s, h), p * w, p * w + size, max)
    ensures max == PartMax(Logit(k, s, h), Length(k, s), w)(p)
    ensures sum == PartMass(k.exp, Logit(k, s, h), Length(k, s), w)(p)
  {
    hide Max, Mass, Logit, Length;
    assert PartMax(Logit(k, s, h), Length(k, s), w)(p) == Max(p * w, PartEnd(Length(k, s), w, p), Logit(k, s, h));
  }

  ghost function Snapshot(out: array<real>, maxLogits: array<real>, expSums: array<real>, tmp: array<real>): Buffers
    reads out, maxLogits, expSums, tmp
  {
    Buffers(out[..], maxLogits[..], expSums[..], tmp[..])
  }

  lemma SkippedPart(k: Launch, w: nat, maxParts: nat, s: int, h: int, p: int, b: Buffers)
    requires Partitioned(k, w, maxParts) && Row(k, s, h) && 0 <= p && p * w >= k.lens[s]
    ensures PartDone(k, w, maxParts, s, h, p, b) && OnlyPart(k, w, maxParts, s, h, p, b, b)
  {
    PartsAre(k, w, maxParts, s, h);
    hide Ready, Attended, PartStored, Row, RowIndex, PartIndex;
    var parts := Parts(k, w, s);
    if p < parts { MulMono(p, parts - 1, w); }
    hide Parts;
  }

  /** One partition of one row: into the output if it is the only one, else into the buffers. */
  method AttendPartition(k: Launch, w: nat, maxParts: nat, s: nat, h: nat, p: nat,
                         out: array<real>, maxLogits: array<real>, expSums: array<real>, tmp: array<real>)
    requires Partitioned(k, w, maxParts) && Row(k, s, h) && p < maxParts
    requires Sized(k, maxParts, Snapshot(out, maxLogits, expSums, tmp))
    requires |{out, maxLogits, expSums, tmp}| == 4
    modifies out, maxLogits, expSums, tmp
    ensures Sized(k, maxParts, Snapshot(out, maxLogits, expSums, tmp))
    ensures PartDone(k, w, maxParts, s, h, p, Snapshot(out, maxLogits, expSums, tmp))
    ensures OnlyPart(k, w, maxParts, s, h, p, old(Snapshot(out, maxLogits, expSums, tmp)), Snapshot(out, maxLogits, expSums, tmp))
  {
    hide Partitioned, Ready, Row, Averaged, Attended, PartAveraged, Max, Mass, Logit, RowIndex, PartIndex, Rows, PartMax, PartMass,
         TokenRange, BlocksFor, Parts, PartEnd, SameOutside, Length;
    FourApart(out, maxLogits, expSums, tmp);
    ghost var before := Snapshot(out, maxLogits, expSums, tmp);
    InBatch(k, w, maxParts, s, h);
    var start, seqLen := p * w, k.lens[s];
    if start >= seqLen {
      SkippedPart(k, w, maxParts, s, h, p, before);
      return;
    }
    PartitionRange(k, w, maxParts, s, h, p);
    var partNum := Parts(k, w, s);
    var tokenNum := (if seqLen < start + w then seqLen else start + w) - start;
    PartTokens(seqLen, w, p);
    var logits := new real[w](_ => 0.0);
    RowBound(k, s, h);
    RowSpan(RowIndex(k, s, h), Rows(k), k.d.headSize);
    PartIndexBound(k, maxParts, s, h, p);
    var idx := PartIndex(k, maxParts, s, h, p);
    RowSpan(idx, Rows(k) * maxParts, k.d.headSize);
    if partNum == 1 {
      OnlyPartition(k, w, s, p);
      var _, _ := AttendRange(k, s, h, start / k.d.blockSize, tokenNum, logits, out, RowIndex(k, s, h) * k.d.headSize);
      AttendedByRange(k, s, h, out[..], RowIndex(k, s, h) * k.d.headSize);
      OutsideOf(before.out, out[..], RowIndex(k, s, h) * k.d.headSize, RowIndex(k, s, h) * k.d.headSize + k.d.headSize);
    } else {
      var max, sum := AttendRange(k, s, h, start / k.d.blockSize, tokenNum, logits, tmp, idx * k.d.headSize);
      PartValues(k, w, s, h, p, tokenNum, max, sum);
      PartAveragedByRange(k, w, maxParts, s, h, p, tokenNum, tmp[..], idx * k.d.headSize);
      maxLogits[idx] := max;
      expSums[idx] := sum;
      assert At(maxLogits[..], idx) == max && At(expSums[..], idx) == sum;
      OutsideOf(before.maxLogits, maxLogits[..], idx, idx + 1);
      OutsideOf(before.expSums, expSums[..], idx, idx + 1);
      OutsideOf(before.tmp, tmp[..], idx * k.d.headSize, idx * k.d.headSize + k.d.headSize);
    }
  }

  lemma FourApart(a: array<real>, b: array<real>, c: array<real>, d: array<real>)
    requires |{a, b, c, d}| == 4
    ensures a != b && a != c && a != d && b != c && b != d && c != d
  {
    assert a == b ==> {a, b, c, d} == {b, c, d};
    assert a == c ==> {a, b, c, d} == {b, c, d};
    assert a == d ==> {a, b, c, d} == {b, c, d};
    assert b == c ==> {a, b, c, d} == {a, c, d};
    assert b == d ==> {a, b, c, d} == {a, c, d};
    assert c == d ==> {a, b, c, d} == {a, b, d};
    AtMostThree(b, c, d);
    AtMostThree(a, c, d);
    AtMostThree(a, b, d);
  }

  lemma AtMostThree(a: array<real>, b: array<real>, c: array<real>)
    ensures |{a, b, c}| <= 3
  {
  }

  lemma InBatch(k: Launch, w: nat, maxParts: nat, s: int, h: int)
    requires Partitioned(k, w, maxParts) && Row(k, s, h)
    ensures w > 0 && 0 <= s < |k.lens| && 0 <= h < k.numHeads && Ready(k)
  {
    hide Ready, Parts;
  }

  lemma PartTokens(n: int, w: int, p: int)
    requires 0 <= p * w < n && w > 0
    ensures p * w + ((if n < p * w + w then n else p * w + w) - p * w) == PartEnd(n, w, p)
  {
    assert (p + 1) * w == p * w + w;
  }

  lemma OnlyPartition(k: Launch, w: nat, s: int, p: nat)
    requires w > 0 && Parts(k, w, s) == 1 && p < 1 && 0 <= s < |k.lens|
    ensures p == 0 && p * w == 0 && PartEnd(k.lens[s], w, p) == k.lens[s]
  {
    Quotients(k.lens[s] + w - 1, w);
  }

  lemma OutsideOf(before: seq<real>, now: seq<real>, lo: int, hi: int)
    requires |now| == |before| && forall j :: 0 <= j < |before| && !(lo <= j < hi) ==> now[j] == before[j]
    ensures SameOutside(before, now, lo, hi)
  {
  }

  ghost predicate Before(s: int, p: int, h: int, s': int, p': int, h': int) {
    s < s' || (s == s' && (p < p' || (p == p' && h < h')))
  }

  /** Every partition before (s, p, h) in loop order is done. */
  ghost predicate DoneUpTo(k: Launch, w: nat, maxParts: nat, s: int, p: int, h: int, b: Buffers)
    requires w > 0
  {
    forall s', h', p' :: Row(k, s', h') && 0 <= p' < maxParts && Before(s', p', h', s, p, h) ==>
      PartDone(k, w, maxParts, s', h', p', b)
  }

  lemma OneMoreDone(k: Launch, w: nat, maxParts: nat, s: int, p: int, h: int, before: Buffers, now: Buffers)
    requires w > 0 && Row(k, s, h) && 0 <= p < maxParts && DoneUpTo(k, w, maxParts, s, p, h, before)
    requires PartDone(k, w, maxParts, s, h, p, now) && OnlyPart(k, w, maxParts, s, h, p, before, now)
    ensures DoneUpTo(k, w, maxParts, s, p, h + 1, now)
  {
    hide PartDone, OnlyPart, Row;
    forall s', h', p' | Row(k, s', h') && 0 <= p' < maxParts && Before(s', p', h', s, p, h + 1)
      ensures PartDone(k, w, maxParts, s', h', p', now)
    {
      if s' != s || h' != h || p' != p {
        OthersKept(k, w, maxParts, s, h, p, s', h', p', before, now);
      }
    }
  }

  lemma NextPartition(k: Launch, w: nat, maxParts: nat, s: int, p: int, b: Buffers)
    requires w > 0 && DoneUpTo(k, w, maxParts, s, p, k.numHeads, b)
    ensures DoneUpTo(k, w, maxParts, s, p + 1, 0, b)
  {
    hide PartDone;
  }

  lemma NextSequence(k: Launch, w: nat, maxParts: nat, s: int, b: Buffers)
    requires w > 0 && DoneUpTo(k, w, maxParts, s, maxParts, 0, b)
    ensures DoneUpTo(k, w, maxParts, s + 1, 0, 0, b)
  {
    hide PartDone;
  }

  lemma NothingDone(k: Launch, w: nat, maxParts: nat, b: Buffers)
    requires w > 0
    ensures DoneUpTo(k, w, maxParts, 0, 0, 0, b)
  {
    hide PartDone;
  }

  method AttendPartitions(k: Launch, w: nat, maxParts: nat,
                          out: array<real>, maxLogits: array<real>, expSums: array<real>, tmp: array<real>)
    requires Partitioned(k, w, maxParts) && Sized(k, maxParts, Snapshot(out, maxLogits, expSums, tmp))
    requires |{out, maxLogits, expSums, tmp}| == 4
    modifies out, maxLogits, expSums, tmp
    ensures Sized(k, maxParts, Snapshot(out, maxLogits, expSums, tmp)) && w > 0
    ensures DoneUpTo(k, w, maxParts, |k.lens|, 0, 0, Snapshot(out, maxLogits, expSums, tmp))
  {
    assert w > 0 by { hide Ready; assert Partitioned(k, w, maxParts); }
    hide Partitioned, Sized, DoneUpTo, PartDone, OnlyPart;
    NothingDone(k, w, maxParts, Snapshot(out, maxLogits, expSums, tmp));
    for s := 0 to |k.lens|
      invariant Sized(k, maxParts, Snapshot(out, maxLogits, expSums, tmp))
      invariant DoneUpTo(k, w, maxParts, s, 0, 0, Snapshot(out, maxLogits, expSums, tmp))
    {
      for p := 0 to maxParts
        invariant Sized(k, maxParts, Snapshot(out, maxLogits, expSums, tmp))
        invariant DoneUpTo(k, w, maxParts, s, p, 0, Snapshot(out, maxLogits, expSums, tmp))
      {
        for h := 0 to k.numHeads
          invariant Sized(k, maxParts, Snapshot(out, maxLogits, expSums, tmp))
          invariant DoneUpTo(k, w, maxParts, s, p, h, Snapshot(out, maxLogits, expSums, tmp))
        {
          ghost var before := Snapshot(out, maxLogits, expSums, tmp);
          AttendPartition(k, w, maxParts, s, h, p, out, maxLogits, expSums, tmp);
          OneMoreDone(k, w, maxParts, s, p, h, before, Snapshot(out, maxLogits, expSums, tmp));
        }
        NextPartition(k, w, maxParts, s, p, Snapshot(out, maxLogits, expSums, tmp));
      }
      NextSequence(k, w, maxParts, s, Snapshot(out, maxLogits, expSums, tmp));
    }
  }

  // ---------------------------------------------------------------- phase 2: factors

  ghost function Largest(k: Launch, s: int, h: int): real {
    Max(0, Length(k, s), Logit(k, s, h))
  }

  /** S: the one-pass softmax mass of a row. */
  ghost function Total(k: Launch, s: int, h: int): real {
    Mass(k.exp, Logit(k, s, h), 0, Length(k, s), Largest(k, s, h))
  }

  ghost function Factor(k: Launch, w: nat, s: int, h: int): int -> real {
    p => if Total(k, s, h) + EPSILON == 0.0 then 0.0
         else Rescaled(k.exp, PartMax(Logit(k, s, h), Length(k, s), w), PartMass(k.exp, Logit(k, s, h), Length(k, s), w),
                       Largest(k, s, h))(p) / (Total(k, s, h) + EPSILON)
  }

  /** After phase 1: every partition of the row is stored. */
  ghost predicate RowStored(k: Launch, w: nat, maxParts: nat, s: int, h: int, b: Buffers)
    requires w > 0
  {
    if Parts(k, w, s) == 1 then Attended(k, s, h, b.out)
    else forall p :: 0 <= p < Parts(k, w, s) ==> PartStored(k, w, maxParts, s, h, p, b)
  }

  /** After phase 2: every partition has its average and its factor. */
  ghost predicate RowFactored(k: Launch, w: nat, maxParts: nat, s: int, h: int, b: Buffers)
    requires w > 0
  {
    if Parts(k, w, s) == 1 then Attended(k, s, h, b.out)
    else forall p :: 0 <= p < Parts(k, w, s) ==>
           && At(b.expSums, PartIndex(k, maxParts, s, h, p)) == Factor(k, w, s, h)(p)
           && PartAveraged(k, w, maxParts, s, h, p, b.tmp)
  }

  lemma DonePart(k: Launch, w: nat, maxParts: nat, s: int, h: int, p: int, b: Buffers)
    requires w > 0 && Row(k, s, h) && 0 <= p < maxParts && DoneUpTo(k, w, maxParts, |k.lens|, 0, 0, b)
    ensures PartDone(k, w, maxParts, s, h, p, b)
  {
    hide PartDone;
  }

  lemma RowIsStored(k: Launch, w: nat, maxParts: nat, s: int, h: int, b: Buffers)
    requires Partitioned(k, w, maxParts) && Row(k, s, h) && w > 0 && DoneUpTo(k, w, maxParts, |k.lens|, 0, 0, b)
    ensures RowStored(k, w, maxParts, s, h, b)
  {
    hide Partitioned, Row, Attended, PartStored, Parts, DoneUpTo;
    PartsAre(k, w, maxParts, s, h);
    DonePart(k, w, maxParts, s, h, 0, b);
    forall p | 0 <= p < Parts(k, w, s) && Parts(k, w, s) != 1 ensures PartStored(k, w, maxParts, s, h, p, b) {
      DonePart(k, w, maxParts, s, h, p, b);
    }
  }

  lemma PartOfRow(k: Launch, maxParts: nat, s: int, h: int, p: int)
    requires Row(k, s, h) && 0 <= p < maxParts
    ensures PartIndex(k, maxParts, s, h, p) == RowIndex(k, s, h) * maxParts + p
    ensures 0 <= RowIndex(k, s, h) * maxParts && RowIndex(k, s, h) * maxParts + maxParts <= Rows(k) * maxParts
  {
    RowBound(k, s, h);
    hide RowIndex, Rows;
    RowSpan(RowIndex(k, s, h), Rows(k), maxParts);
  }

  /** The stored maxima and masses have the row's maximum and mass. */
  lemma FactorsOfRow(k: Launch, w: nat, maxParts: nat, s: int, h: int, maxima: int -> real, sums: int -> real)
    requires Partitioned(k, w, maxParts) && Row(k, s, h)
    requires forall p :: 0 <= p < Parts(k, w, s) ==> maxima(p) == PartMax(Logit(k, s, h), Length(k, s), w)(p)
    requires forall p :: 0 <= p < Parts(k, w, s) ==> sums(p) == PartMass(k.exp, Logit(k, s, h), Length(k, s), w)(p)
    ensures Max(0, Parts(k, w, s), maxima) == Largest(k, s, h)
    ensures Sum(0, Parts(k, w, s), Rescaled(k.exp, maxima, sums, Largest(k, s, h))) == Total(k, s, h) >= 1.0
    ensures forall p :: 0 <= p < Parts(k, w, s) ==>
              Rescaled(k.exp, maxima, sums, Largest(k, s, h))(p) / (Total(k, s, h) + EPSILON) == Factor(k, w, s, h)(p)
  {
    hide Partitioned, Row, Parts, PartMax, PartMass, Logit, Length, Max, Mass, IsExp;
    PartsAre(k, w, maxParts, s, h);
    var l, n, parts := Logit(k, s, h), Length(k, s), Parts(k, w, s);
    MaxOfParts(l, n, w, parts);
    MaxExt(0, parts, maxima, PartMax(l, n, w));
    MassOfParts(k.exp, l, n, w, parts, Largest(k, s, h));
    MassAtLeastOne(k.exp, l, 0, n);
    var stored, exact := Rescaled(k.exp, maxima, sums, Largest(k, s, h)),
                         Rescaled(k.exp, PartMax(l, n, w), PartMass(k.exp, l, n, w), Largest(k, s, h));
    forall p | 0 <= p < parts ensures stored(p) == exact(p) {}
    SumExt(0, parts, stored, exact);
  }

  lemma ElemOfPart(k: Launch, maxParts: nat, s: int, h: int, p: int, x: seq<real>)
    ensures Elem(x, RowIndex(k, s, h) * maxParts)(p) == At(x, PartIndex(k, maxParts, s, h, p))
  {
    StoredElem(x, RowIndex(k, s, h) * maxParts, p);
  }

  /** What reducing one row's sums does to the buffers. */
  lemma RowReduced(k: Launch, w: nat, maxParts: nat, s: int, h: int, b: Buffers, now: seq<real>, base: int, max: real, total: real)
    requires Partitioned(k, w, maxParts) && Row(k, s, h) && w > 0 && Parts(k, w, s) != 1
    requires RowStored(k, w, maxParts, s, h, b) && base == RowIndex(k, s, h) * maxParts
    requires max == Max(0, Parts(k, w, s), Elem(b.maxLogits, base))
    requires total == Sum(0, Parts(k, w, s), Rescaled(k.exp, Elem(b.maxLogits, base), Elem(b.expSums, base), max)) >= 0.0
    requires forall p :: 0 <= p < Parts(k, w, s) ==>
               Elem(now, base)(p) == Rescaled(k.exp, Elem(b.maxLogits, base), Elem(b.expSums, base), max)(p) / (total + EPSILON)
    ensures RowFactored(k, w, maxParts, s, h, b.(expSums := now))
  {
    hide Partitioned, Row, Parts, Max, Sum, Rescaled, Factor, RowIndex, PartIndex, Total, Largest, PartMax, PartMass, PartAveraged, Elem;
    forall p | 0 <= p < Parts(k, w, s)
      ensures Elem(b.maxLogits, base)(p) == PartMax(Logit(k, s, h), Length(k, s), w)(p)
      ensures Elem(b.expSums, base)(p) == PartMass(k.exp, Logit(k, s, h), Length(k, s), w)(p)
      ensures Elem(now, base)(p) == At(now, PartIndex(k, maxParts, s, h, p))
      ensures PartAveraged(k, w, maxParts, s, h, p, b.tmp)
    {
      assert PartStored(k, w, maxParts, s, h, p, b);
      ElemOfPart(k, maxParts, s, h, p, b.maxLogits);
      ElemOfPart(k, maxParts, s, h, p, b.expSums);
      ElemOfPart(k, maxParts, s, h, p, now);
    }
    FactorsOfRow(k, w, maxParts, s, h, Elem(b.maxLogits, base), Elem(b.expSums, base));
  }

  lemma StoredElem(s: seq<real>, base: int, p: int)
    ensures Elem(s, base)(p) == At(s, base + p)
  {
  }

  /** A stretch of an array that starts at a base address. */
  lemma StretchElem(now: seq<real>, base: int, n: int, f: int -> real, total: real)
    requires 0 <= base && base + n <= |now| && total >= 0.0
    requires forall j :: base <= j < base + n ==> now[j] == f(j - base) / (total + EPSILON)
    ensures forall p :: 0 <= p < n ==> Elem(now, base)(p) == f(p) / (total + EPSILON)
  {
    forall p | 0 <= p < n ensures Elem(now, base)(p) == f(p) / (total + EPSILON) {
      StoredElem(now, base, p);
      assert now[base + p] == f(base + p - base) / (total + EPSILON);
    }
  }

  /** Sums of one row were overwritten. */
  ghost predicate OnlySums(k: Launch, maxParts: nat, s: int, h: int, before: Buffers, now: Buffers) {
    && now == before.(expSums := now.expSums)
    && SameOutside(before.expSums, now.expSums, RowIndex(k, s, h) * maxParts, RowIndex(k, s, h) * maxParts + maxParts)
  }

  lemma OtherSum(k: Launch, maxParts: nat, s: int, h: int, s': int, h': int, p: int, before: Buffers, now: Buffers)
    requires OnlySums(k, maxParts, s, h, before, now) && Row(k, s, h) && Row(k, s', h') && (s' != s || h' != h) && 0 <= p < maxParts
    ensures At(now.expSums, PartIndex(k, maxParts, s', h', p)) == At(before.expSums, PartIndex(k, maxParts, s', h', p))
  {
    if RowIndex(k, s', h') == RowIndex(k, s, h) { RowDistinct(k, s', h', s, h); }
    hide RowIndex, Row;
    RowsApart(RowIndex(k, s, h), RowIndex(k, s', h'), maxParts, p);
  }

  lemma OtherStored(k: Launch, w: nat, maxParts: nat, s: int, h: int, s': int, h': int, before: Buffers, now: Buffers)
    requires w > 0 && Parts(k, w, s') <= maxParts
    requires OnlySums(k, maxParts, s, h, before, now) && Row(k, s, h) && Row(k, s', h') && (s' != s || h' != h)
    ensures RowStored(k, w, maxParts, s', h', before) ==> RowStored(k, w, maxParts, s', h', now)
    ensures RowFactored(k, w, maxParts, s', h', before) ==> RowFactored(k, w, maxParts, s', h', now)
  {
    hide Row, Attended, PartAveraged, Parts, PartMax, PartMass, Factor, PartIndex;
    forall p | 0 <= p < Parts(k, w, s')
      ensures At(now.expSums, PartIndex(k, maxParts, s', h', p)) == At(before.expSums, PartIndex(k, maxParts, s', h', p))
    {
      OtherSum(k, maxParts, s, h, s', h', p, before, now);
    }
    assert now.out == before.out && now.tmp == before.tmp && now.maxLogits == before.maxLogits;
    hide OnlySums;
    forall p | 0 <= p < Parts(k, w, s') && PartStored(k, w, maxParts, s', h', p, before)
      ensures PartStored(k, w, maxParts, s', h', p, now)
    {
    }
  }

  /** Rows before (s, h) have factors, the others are as phase 1 left them. */
  ghost predicate FactoredUpTo(k: Launch, w: nat, maxParts: nat, s: int, h: int, b: Buffers)
    requires w > 0
  {
    forall s', h' :: Row(k, s', h') ==>
      if s' < s || (s' == s && h' < h) then RowFactored(k, w, maxParts, s', h', b) else RowStored(k, w, maxParts, s', h', b)
  }

  lemma OneMoreFactored(k: Launch, w: nat, maxParts: nat, s: int, h: int, before: Buffers, now: Buffers)
    requires Partitioned(k, w, maxParts) && w > 0 && Row(k, s, h) && FactoredUpTo(k, w, maxParts, s, h, before)
    requires OnlySums(k, maxParts, s, h, before, now) && RowFactored(k, w, maxParts, s, h, now)
    ensures FactoredUpTo(k, w, maxParts, s, h + 1, now)
  {
    hide Ready, RowFactored, RowStored, OnlySums, Parts, Row;
    forall s', h' | Row(k, s', h')
      ensures if s' < s || (s' == s && h' < h + 1) then RowFactored(k, w, maxParts, s', h', now) else RowStored(k, w, maxParts, s', h', now)
    {
      if s' != s || h' != h {
        PartsAre(k, w, maxParts, s', h');
        OtherStored(k, w, maxParts, s, h, s', h', before, now);
      }
    }
  }

  lemma NextFactoredSequence(k: Launch, w: nat, maxParts: nat, s: int, b: Buffers)
    requires w > 0 && FactoredUpTo(k, w, maxParts, s, k.numHeads, b)
    ensures FactoredUpTo(k, w, maxParts, s + 1, 0, b)
  {
    hide RowFactored, RowStored;
  }

  lemma NothingFactored(k: Launch, w: nat, maxParts: nat, b: Buffers)
    requires Partitioned(k, w, maxParts) && w > 0 && DoneUpTo(k, w, maxParts, |k.lens|, 0, 0, b)
    ensures FactoredUpTo(k, w, maxParts, 0, 0, b)
  {
    hide Partitioned, DoneUpTo, RowFactored, RowStored;
    forall s, h | Row(k, s, h) ensures RowStored(k, w, maxParts, s, h, b) { RowIsStored(k, w, maxParts, s, h, b); }
  }

  lemma StoredSums(k: Launch, w: nat, maxParts: nat, s: int, h: int, b: Buffers)
    requires Partitioned(k, w, maxParts) && w > 0 && Row(k, s, h) && Sized(k, maxParts, b)
    requires RowStored(k, w, maxParts, s, h, b) && Parts(k, w, s) != 1
    ensures var base := RowIndex(k, s, h) * maxParts;
            && Parts(k, w, s) >= 1 && IsExp(k.exp)
            && 0 <= base && base + Parts(k, w, s) <= |b.maxLogits| == |b.expSums|
            && forall j :: base <= j < base + Parts(k, w, s) ==> b.expSums[j] >= 0.0
  {
    PartsAre(k, w, maxParts, s, h);
    PartOfRow(k, maxParts, s, h, 0);
    hide Ready, IsExp, Row, RowIndex, Rows, Parts, PartMax, PartMass, PartAveraged;
    var base := RowIndex(k, s, h) * maxParts;
    forall j | base <= j < base + Parts(k, w, s) ensures b.expSums[j] >= 0.0 {
      assert PartStored(k, w, maxParts, s, h, j - base, b);
      assert At(b.expSums, PartIndex(k, maxParts, s, h, j - base)) == b.expSums[j];
    }
  }

  /** Rescales the sums of one row into the factors of its partitions. */
  method ReduceRow(k: Launch, w: nat, maxParts: nat, s: nat, h: nat,
                   out: array<real>, maxLogits: array<real>, expSums: array<real>, tmp: array<real>)
    requires Partitioned(k, w, maxParts) && w > 0 && Row(k, s, h) && Sized(k, maxParts, Snapshot(out, maxLogits, expSums, tmp))
    requires |{out, maxLogits, expSums, tmp}| == 4
    requires RowStored(k, w, maxParts, s, h, Snapshot(out, maxLogits, expSums, tmp))
    modifies expSums
    ensures Sized(k, maxParts, Snapshot(out, maxLogits, expSums, tmp))
    ensures RowFactored(k, w, maxParts, s, h, Snapshot(out, maxLogits, expSums, tmp))
    ensures OnlySums(k, maxParts, s, h, old(Snapshot(out, maxLogits, expSums, tmp)), Snapshot(out, maxLogits, expSums, tmp))
  {
    FourApart(out, maxLogits, expSums, tmp);
    ghost var b := Snapshot(out, maxLogits, expSums, tmp);
    hide Partitioned, Ready, Row, RowIndex, Rows, Parts, PartStored, PartAveraged, Attended, Max, Sum, Rescaled, Elem, Factor,
         PartIndex, SameOutside;
    var partNum := Parts(k, w, s);
    var base := RowIndex(k, s, h) * maxParts;
    if partNum == 1 {
      OutsideOf(b.expSums, expSums[..], base, base + maxParts);
      return;
    }
    hide RowStored, RowFactored;
    StoredSums(k, w, maxParts, s, h, b);
    PartsAre(k, w, maxParts, s, h);
    ghost var max, total := ReducePartitionSoftmax(k.exp, maxLogits, expSums, base, partNum);
    StretchElem(expSums[..], base, partNum, Rescaled(k.exp, Elem(b.maxLogits, base), Elem(b.expSums, base), max), total);
    RowReduced(k, w, maxParts, s, h, b, expSums[..], base, max, total);
    OutsideOf(b.expSums, expSums[..], base, base + maxParts);
    assert Snapshot(out, maxLogits, expSums, tmp) == b.(expSums := expSums[..]);
  }

  method ReducePartitions(k: Launch, w: nat, maxParts: nat,
                          out: array<real>, maxLogits: array<real>, expSums: array<real>, tmp: array<real>)
    requires Partitioned(k, w, maxParts) && w > 0 && Sized(k, maxParts, Snapshot(out, maxLogits, expSums, tmp))
    requires |{out, maxLogits, expSums, tmp}| == 4
    requires DoneUpTo(k, w, maxParts, |k.lens|, 0, 0, Snapshot(out, maxLogits, expSums, tmp))
    modifies expSums
    ensures Sized(k, maxParts, Snapshot(out, maxLogits, expSums, tmp))
    ensures FactoredUpTo(k, w, maxParts, |k.lens|, 0, Snapshot(out, maxLogits, expSums, tmp))
  {
    hide Partitioned, Sized, DoneUpTo, FactoredUpTo, RowFactored, RowStored, OnlySums;
    NothingFactored(k, w, maxParts, Snapshot(out, maxLogits, expSums, tmp));
    for s := 0 to |k.lens|
      invariant Sized(k, maxParts, Snapshot(out, maxLogits, expSums, tmp))
      invariant FactoredUpTo(k, w, maxParts, s, 0, Snapshot(out, maxLogits, expSums, tmp))
    {
      for h := 0 to k.numHeads
        invariant Sized(k, maxParts, Snapshot(out, maxLogits, expSums, tmp))
        invariant FactoredUpTo(k, w, maxParts, s, h, Snapshot(out, maxLogits, expSums, tmp))
      {
        ghost var before := Snapshot(out, maxLogits, expSums, tmp);
        NextRowStored(k, w, maxParts, s, h, before);
        ReduceRow(k, w, maxParts, s, h, out, maxLogits, expSums, tmp);
        OneMoreFactored(k, w, maxParts, s, h, before, Snapshot(out, maxLogits, expSums, tmp));
      }
      NextFactoredSequence(k, w, maxParts, s, Snapshot(out, maxLogits, expSums, tmp));
    }
  }

  lemma NextRowStored(k: Launch, w: nat, maxParts: nat, s: int, h: int, b: Buffers)
    requires w > 0 && FactoredUpTo(k, w, maxParts, s, h, b) && Row(k, s, h)
    ensures RowStored(k, w, maxParts, s, h, b)
  {
    hide RowFactored, RowStored;
  }

  // ---------------------------------------------------------------- phase 3: combination

  ghost function Contributions(k: Launch, w: nat, s: int, h: int, e: int): int -> real {
    Contribution(k.exp, Logit(k, s, h), Length(k, s), w, ValueAt(k, s, h, e), Largest(k, s, h), Total(k, s, h))
  }

  /** What v2 leaves for one output element of a row with several partitions. */
  ghost function Combined(k: Launch, w: nat, s: int, h: int, e: int): real
    requires w > 0
  {
    Sum(0, Parts(k, w, s), Contributions(k, w, s, h, e))
  }

  /** The first n elements of a row are combined. */
  ghost predicate CombinedUpTo(k: Launch, w: nat, s: int, h: int, n: int, out: seq<real>)
    requires w > 0
  {
    forall e :: 0 <= e < n ==> RowElem(out, k.d.headSize, RowIndex(k, s, h), e) == Combined(k, w, s, h, e)
  }

  ghost predicate RowCombined(k: Launch, w: nat, s: int, h: int, out: seq<real>)
    requires w > 0
  {
    if Parts(k, w, s) == 1 then Attended(k, s, h, out) else CombinedUpTo(k, w, s, h, k.d.headSize, out)
  }

  /** A stored average times its factor is the partition's contribution. */
  lemma StoredContribution(k: Launch, w: nat, maxParts: nat, s: int, h: int, p: int, e: int, b: Buffers)
    requires w > 0 && Parts(k, w, s) != 1 && RowFactored(k, w, maxParts, s, h, b) && 0 <= p < Parts(k, w, s) && 0 <= e < k.d.headSize
    ensures RowElem(b.tmp, k.d.headSize, PartIndex(k, maxParts, s, h, p), e) * At(b.expSums, PartIndex(k, maxParts, s, h, p))
            == Contributions(k, w, s, h, e)(p)
  {
    hide PartAverage, PartIndex, Parts, Rescaled, Total, Largest, RowElem;
    assert PartAveraged(k, w, maxParts, s, h, p, b.tmp);
    assert At(b.expSums, PartIndex(k, maxParts, s, h, p)) == Factor(k, w, s, h)(p);
  }

  lemma PartBounds(k: Launch, w: nat, maxParts: nat, s: int, h: int, p: int, b: Buffers)
    requires Partitioned(k, w, maxParts) && Row(k, s, h) && w > 0 && Sized(k, maxParts, b) && 0 <= p < Parts(k, w, s)
    ensures 0 <= PartIndex(k, maxParts, s, h, p) < |b.expSums|
    ensures 0 <= PartIndex(k, maxParts, s, h, p) * k.d.headSize
    ensures PartIndex(k, maxParts, s, h, p) * k.d.headSize + k.d.headSize <= |b.tmp|
  {
    PartsAre(k, w, maxParts, s, h);
    hide Partitioned, Parts;
    PartIndexBound(k, maxParts, s, h, p);
    hide PartIndex, Rows, Row;
    RowSpan(PartIndex(k, maxParts, s, h, p), Rows(k) * maxParts, k.d.headSize);
  }

  /** Partial sums of the contributions to one group of elements. */
  ghost predicate AccSummed(k: Launch, w: nat, s: int, h: int, group: nat, n: int, acc: seq<real>)
    requires w > 0
  {
    |acc| == HEAD_PART
    && forall j :: 0 <= j < HEAD_PART ==> acc[j] == Sum(0, n, Contributions(k, w, s, h, group * HEAD_PART + j))
  }

  /** Adds up the partitions of one group of head elements. */
  method AccumulateGroup(k: Launch, w: nat, maxParts: nat, s: nat, h: nat, group: nat,
                         expSums: array<real>, tmp: array<real>, ghost b: Buffers) returns (acc: array<real>)
    requires Partitioned(k, w, maxParts) && w > 0 && Row(k, s, h) && Sized(k, maxParts, b)
    requires b.expSums == expSums[..] && b.tmp == tmp[..]
    requires Parts(k, w, s) != 1 && RowFactored(k, w, maxParts, s, h, b)
    requires group * HEAD_PART + HEAD_PART <= k.d.headSize
    ensures fresh(acc) && AccSummed(k, w, s, h, group, Parts(k, w, s), acc[..])
  {
    hide Partitioned, Row, Sized, RowFactored, Parts, PartIndex, Contributions;
    acc := new real[HEAD_PART](_ => 0.0);
    var partNum := Parts(k, w, s);
    PartsAre(k, w, maxParts, s, h);
    for i := 0 to partNum
      invariant AccSummed(k, w, s, h, group, i, acc[..])
    {
      PartBounds(k, w, maxParts, s, h, i, b);
      AddPartition(k, w, maxParts, s, h, group, i, expSums, tmp, b, acc);
    }
  }

  /** One partition's share of one group of head elements. */
  method AddPartition(k: Launch, w: nat, maxParts: nat, s: nat, h: nat, group: nat, i: nat,
                      expSums: array<real>, tmp: array<real>, ghost b: Buffers, acc: array<real>)
    requires w > 0 && b.expSums == expSums[..] && b.tmp == tmp[..] && acc != expSums && acc != tmp
    requires Parts(k, w, s) != 1 && i < Parts(k, w, s) && RowFactored(k, w, maxParts, s, h, b)
    requires group * HEAD_PART + HEAD_PART <= k.d.headSize
    requires 0 <= PartIndex(k, maxParts, s, h, i) < expSums.Length && 0 <= PartIndex(k, maxParts, s, h, i) * k.d.headSize
    requires PartIndex(k, maxParts, s, h, i) * k.d.headSize + k.d.headSize <= tmp.Length
    requires AccSummed(k, w, s, h, group, i, acc[..])
    modifies acc
    ensures AccSummed(k, w, s, h, group, i + 1, acc[..])
  {
    hide RowFactored, Parts, PartIndex, RowElem, Contributions;
    var idx := PartIndex(k, maxParts, s, h, i);
    assert acc.Length == HEAD_PART;
    for j := 0 to HEAD_PART
      invariant forall j' :: 0 <= j' < j ==> acc[j'] == Sum(0, i + 1, Contributions(k, w, s, h, group * HEAD_PART + j'))
      invariant forall j' :: j <= j' < HEAD_PART ==> acc[j'] == Sum(0, i, Contributions(k, w, s, h, group * HEAD_PART + j'))
    {
      var e := group * HEAD_PART + j;
      StoredContribution(k, w, maxParts, s, h, i, e, b);
      ElementOfRow(tmp[..], k.d.headSize, idx, e);
      acc[j] := acc[j] + tmp[idx * k.d.headSize + e] * expSums[idx];
    }
  }

  lemma ElementOfRow(x: seq<real>, m: int, r: int, e: int)
    requires 0 <= r * m && 0 <= e < m && r * m + m <= |x|
    ensures x[r * m + e] == RowElem(x, m, r, e)
  {
  }

  lemma ElementStored(k: Launch, w: nat, s: int, h: int, n: int, out: seq<real>, value: real)
    requires w > 0 && 0 <= n < k.d.headSize && CombinedUpTo(k, w, s, h, n, out) && value == Combined(k, w, s, h, n)
    requires 0 <= RowIndex(k, s, h) * k.d.headSize && RowIndex(k, s, h) * k.d.headSize + k.d.headSize <= |out|
    ensures CombinedUpTo(k, w, s, h, n + 1, out[RowIndex(k, s, h) * k.d.headSize + n := value])
  {
    hide Combined, RowIndex;
    var base := RowIndex(k, s, h) * k.d.headSize;
    forall e | 0 <= e < n + 1
      ensures RowElem(out[base + n := value], k.d.headSize, RowIndex(k, s, h), e) == Combined(k, w, s, h, e)
    {
      assert e < n ==> RowElem(out, k.d.headSize, RowIndex(k, s, h), e) == Combined(k, w, s, h, e);
    }
  }

  lemma AccIsCombined(k: Launch, w: nat, s: int, h: int, group: nat, acc: seq<real>, j: nat)
    requires w > 0 && AccSummed(k, w, s, h, group, Parts(k, w, s), acc) && j < HEAD_PART
    ensures acc[j] == Combined(k, w, s, h, group * HEAD_PART + j)
  {
    hide Contributions;
  }

  lemma NothingCombined(k: Launch, w: nat, s: int, h: int, out: seq<real>)
    requires w > 0
    ensures CombinedUpTo(k, w, s, h, 0, out)
  {
    hide Combined;
  }

  /** Combines the partitions of one row, if it has several. */
  method CombineRow(k: Launch, w: nat, maxParts: nat, s: nat, h: nat,
                    out: array<real>, maxLogits: array<real>, expSums: array<real>, tmp: array<real>)
    requires Partitioned(k, w, maxParts) && w > 0 && Row(k, s, h) && Sized(k, maxParts, Snapshot(out, maxLogits, expSums, tmp))
    requires |{out, maxLogits, expSums, tmp}| == 4
    requires RowFactored(k, w, maxParts, s, h, Snapshot(out, maxLogits, expSums, tmp))
    modifies out
    ensures Sized(k, maxParts, Snapshot(out, maxLogits, expSums, tmp))
    ensures RowCombined(k, w, s, h, out[..])
    ensures Snapshot(out, maxLogits, expSums, tmp) == old(Snapshot(out, maxLogits, expSums, tmp)).(out := out[..])
    ensures SameOutside(old(out[..]), out[..], RowIndex(k, s, h) * k.d.headSize, RowIndex(k, s, h) * k.d.headSize + k.d.headSize)
  {
    FourApart(out, maxLogits, expSums, tmp);
    hide Partitioned, Ready, Row, RowIndex, Rows, Parts, Attended, CombinedUpTo, AccSummed, PartAveraged, Factor, Combined, PartIndex;
    ghost var b := Snapshot(out, maxLogits, expSums, tmp);
    InBatch(k, w, maxParts, s, h);
    LaunchShape(k, s, h);
    if Parts(k, w, s) == 1 {
      return;
    }
    hide RowFactored;
    RowBound(k, s, h);
    RowSpan(RowIndex(k, s, h), Rows(k), k.d.headSize);
    var base := RowIndex(k, s, h) * k.d.headSize;
    NothingCombined(k, w, s, h, out[..]);
    for group := 0 to k.d.headSize / HEAD_PART
      invariant CombinedUpTo(k, w, s, h, group * HEAD_PART, out[..])
      invariant expSums[..] == b.expSums && tmp[..] == b.tmp && maxLogits[..] == b.maxLogits
      invariant SameOutside(b.out, out[..], base, base + k.d.headSize)
    {
      PartInHead(k.d, group);
      var acc := AccumulateGroup(k, w, maxParts, s, h, group, expSums, tmp, b);
      for j := 0 to HEAD_PART
        invariant AccSummed(k, w, s, h, group, Parts(k, w, s), acc[..])
        invariant CombinedUpTo(k, w, s, h, group * HEAD_PART + j, out[..])
        invariant expSums[..] == b.expSums && tmp[..] == b.tmp && maxLogits[..] == b.maxLogits
        invariant SameOutside(b.out, out[..], base, base + k.d.headSize)
      {
        AccIsCombined(k, w, s, h, group, acc[..], j);
        AccLength(k, w, s, h, group, acc[..]);
        ghost var now := out[..];
        ElementStored(k, w, s, h, group * HEAD_PART + j, now, acc[..][j]);
        out[base + (group * HEAD_PART + j)] := acc[j];
        assert out[..] == now[base + (group * HEAD_PART + j) := acc[..][j]];
      }
    }
  }

  lemma AccLength(k: Launch, w: nat, s: int, h: int, group: nat, acc: seq<real>)
    requires w > 0 && AccSummed(k, w, s, h, group, Parts(k, w, s), acc)
    ensures |acc| == HEAD_PART
  {
    hide Contributions;
  }

  /** Rows before (s, h) are combined, the others still have their factors. */
  ghost predicate CombinedRows(k: Launch, w: nat, maxParts: nat, s: int, h: int, b: Buffers)
    requires w > 0
  {
    forall s', h' :: Row(k, s', h') ==>
      if s' < s || (s' == s && h' < h) then RowCombined(k, w, s', h', b.out) else RowFactored(k, w, maxParts, s', h', b)
  }

  lemma OtherRows(k: Launch, w: nat, maxParts: nat, s: int, h: int, s': int, h': int, before: Buffers, now: Buffers)
    requires w > 0 && Row(k, s, h) && Row(k, s', h') && (s' != s || h' != h) && now == before.(out := now.out)
    requires SameOutside(before.out, now.out, RowIndex(k, s, h) * k.d.headSize, RowIndex(k, s, h) * k.d.headSize + k.d.headSize)
    ensures RowCombined(k, w, s', h', before.out) ==> RowCombined(k, w, s', h', now.out)
    ensures RowFactored(k, w, maxParts, s', h', before) ==> RowFactored(k, w, maxParts, s', h', now)
  {
    if RowIndex(k, s', h') == RowIndex(k, s, h) { RowDistinct(k, s', h', s, h); }
    hide RowIndex, Row, Parts, SameOutside, Combined, PartAveraged, Factor, PartIndex, RowElem, Attended;
    var r, r' := RowIndex(k, s, h), RowIndex(k, s', h');
    if Attended(k, s', h', before.out) { AttendedKept(k, s', h', r, before.out, now.out); }
    forall e | 0 <= e < k.d.headSize ensures RowElem(now.out, k.d.headSize, r', e) == RowElem(before.out, k.d.headSize, r', e) {
      RowElemKept(before.out, now.out, k.d.headSize, r, r', e);
    }
  }

  lemma OneMoreCombined(k: Launch, w: nat, maxParts: nat, s: int, h: int, before: Buffers, now: Buffers)
    requires w > 0 && Row(k, s, h) && CombinedRows(k, w, maxParts, s, h, before) && now == before.(out := now.out)
    requires SameOutside(before.out, now.out, RowIndex(k, s, h) * k.d.headSize, RowIndex(k, s, h) * k.d.headSize + k.d.headSize)
    requires RowCombined(k, w, s, h, now.out)
    ensures CombinedRows(k, w, maxParts, s, h + 1, now)
  {
    hide RowCombined, RowFactored, SameOutside, Row, RowIndex;
    forall s', h' | Row(k, s', h')
      ensures if s' < s || (s' == s && h' < h + 1) then RowCombined(k, w, s', h', now.out) else RowFactored(k, w, maxParts, s', h', now)
    {
      if s' != s || h' != h { OtherRows(k, w, maxParts, s, h, s', h', before, now); }
    }
  }

  lemma NextCombinedSequence(k: Launch, w: nat, maxParts: nat, s: int, b: Buffers)
    requires w > 0 && CombinedRows(k, w, maxParts, s, k.numHeads, b)
    ensures CombinedRows(k, w, maxParts, s + 1, 0, b)
  {
    hide RowCombined, RowFactored;
  }

  lemma NoRowsCombined(k: Launch, w: nat, maxParts: nat, b: Buffers)
    requires w > 0 && FactoredUpTo(k, w, maxParts, |k.lens|, 0, b)
    ensures CombinedRows(k, w, maxParts, 0, 0, b)
  {
    hide RowCombined, RowFactored, RowStored;
  }

  lemma NextRowFactored(k: Launch, w: nat, maxParts: nat, s: int, h: int, b: Buffers)
    requires w > 0 && CombinedRows(k, w, maxParts, s, h, b) && Row(k, s, h)
    ensures RowFactored(k, w, maxParts, s, h, b)
  {
    hide RowCombined, RowFactored;
  }

  method CombinePartitions(k: Launch, w: nat, maxParts: nat,
                           out: array<real>, maxLogits: array<real>, expSums: array<real>, tmp: array<real>)
    requires Partitioned(k, w, maxParts) && w > 0 && Sized(k, maxParts, Snapshot(out, maxLogits, expSums, tmp))
    requires |{out, maxLogits, expSums, tmp}| == 4
    requires FactoredUpTo(k, w, maxParts, |k.lens|, 0, Snapshot(out, maxLogits, expSums, tmp))
    modifies out
    ensures CombinedRows(k, w, maxParts, |k.lens|, 0, Snapshot(out, maxLogits, expSums, tmp))
  {
    hide Partitioned, Sized, FactoredUpTo, CombinedRows, RowFactored, RowCombined, SameOutside;
    NoRowsCombined(k, w, maxParts, Snapshot(out, maxLogits, expSums, tmp));
    for s := 0 to |k.lens|
      invariant Sized(k, maxParts, Snapshot(out, maxLogits, expSums, tmp))
      invariant CombinedRows(k, w, maxParts, s, 0, Snapshot(out, maxLogits, expSums, tmp))
    {
      for h := 0 to k.numHeads
        invariant Sized(k, maxParts, Snapshot(out, maxLogits, expSums, tmp))
        invariant CombinedRows(k, w, maxParts, s, h, Snapshot(out, maxLogits, expSums, tmp))
      {
        ghost var before := Snapshot(out, maxLogits, expSums, tmp);
        NextRowFactored(k, w, maxParts, s, h, before);
        CombineRow(k, w, maxParts, s, h, out, maxLogits, expSums, tmp);
        OneMoreCombined(k, w, maxParts, s, h, before, Snapshot(out, maxLogits, expSums, tmp));
      }
      NextCombinedSequence(k, w, maxParts, s, Snapshot(out, maxLogits, expSums, tmp));
    }
  }

  // ---------------------------------------------------------------- the kernel

  /** Kernel v2: partitions, then the factors, then the combination. */
  method PagedAttentionV2(k: Launch, w: nat, maxParts: nat,
                          out: array<real>, maxLogits: array<real>, expSums: array<real>, tmp: array<real>)
    requires Partitioned(k, w, maxParts) && Sized(k, maxParts, Snapshot(out, maxLogits, expSums, tmp))
    requires |{out, maxLogits, expSums, tmp}| == 4
    modifies out, maxLogits, expSums, tmp
    ensures w > 0 && forall s, h :: Row(k, s, h) ==> RowCombined(k, w, s, h, out[..])
  {
    hide Partitioned, Sized, DoneUpTo, FactoredUpTo, RowCombined;
    AttendPartitions(k, w, maxParts, out, maxLogits, expSums, tmp);
    ReducePartitions(k, w, maxParts, out, maxLogits, expSums, tmp);
    CombinePartitions(k, w, maxParts, out, maxLogits, expSums, tmp);
  }

  /** Every element of v2 is full attention, scaled by S / (S + EPSILON) if there are several partitions. */
  lemma ElementIs(k: Launch, w: nat, maxParts: nat, s: int, h: int, e: int, out: seq<real>)
    requires Partitioned(k, w, maxParts) && w > 0 && Row(k, s, h) && 0 <= e < k.d.headSize && RowCombined(k, w, s, h, out)
    ensures Total(k, s, h) >= 1.0
    ensures RowElem(out, k.d.headSize, RowIndex(k, s, h), e) ==
            if Parts(k, w, s) == 1 then Attention(k, s, h, e)
            else Attention(k, s, h, e) * (Total(k, s, h) / (Total(k, s, h) + EPSILON))
  {
    hide Partitioned, Row, Parts, RowIndex, RowElem, Logit, Length, ValueAt, Average, Mass, Contribution, IsExp;
    PartsAre(k, w, maxParts, s, h);
    PartitionedIsScaled(k.exp, Logit(k, s, h), Length(k, s), w, Parts(k, w, s), ValueAt(k, s, h, e));
  }

  /**
   v2 against v1. Given any outputs the two kernels leave for the same launch, a row of
   one partition is the same in both; with several partitions every element of v2 is
   v1's times S / (S + EPSILON), where S >= 1 is the row's softmax mass. So the two
   agree on an element exactly when there is one partition or the element is zero.
   */
  lemma V2AgainstV1(k: Launch, w: nat, maxParts: nat, s: int, h: int, e: int, out1: seq<real>, out2: seq<real>)
    requires Partitioned(k, w, maxParts) && w > 0 && Row(k, s, h) && 0 <= e < k.d.headSize
    requires Attended(k, s, h, out1) && RowCombined(k, w, s, h, out2)
    ensures Total(k, s, h) >= 1.0
    ensures var v1, v2 := RowElem(out1, k.d.headSize, RowIndex(k, s, h), e), RowElem(out2, k.d.headSize, RowIndex(k, s, h), e);
            && v1 == Attention(k, s, h, e)
            && (Parts(k, w, s) == 1 ==> v2 == v1)
            && (Parts(k, w, s) != 1 ==> v2 == v1 * (Total(k, s, h) / (Total(k, s, h) + EPSILON)))
            && (v2 == v1 <==> Parts(k, w, s) == 1 || v1 == 0.0)
  {
    hide Partitioned, Row, Parts, RowIndex, RowElem, Attention, Total, RowCombined;
    ElementIs(k, w, maxParts, s, h, e, out2);
    KeptAlmostAll(Total(k, s, h));
    ScaledEqual(Attention(k, s, h, e), Kept(Total(k, s, h)));
  }

  lemma ScaledEqual(v: real, r: real)
    requires r < 1.0
    ensures v * r == v <==> v == 0.0
  {
    if v * r == v { assert v * (1.0 - r) == 0.0; }
  }
}
