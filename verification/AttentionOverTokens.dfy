/** The attention kernels read back what was written: attention over the plain [token][head][element] rows. */
module AttentionOverTokens {
  import opened RealSums
  import opened CacheLayout
  import opened CacheWrites
  import opened AttentionKernels
  import opened PagedAttention

  /** The slot of token t of a sequence, through its block table. */
  ghost function TableSlot(k: Launch, s: int, t: int): int
    requires 0 <= s < |k.tables| && 0 <= t / k.d.blockSize < |k.tables[s]|
  {
    k.tables[s][t / k.d.blockSize] * k.d.blockSize + t % k.d.blockSize
  }

  /** Token t of sequence s sits in the slot that row i was written to, and no other row was. */
  ghost predicate WrittenAs(k: Launch, s: int, t: int, slots: seq<int>, i: nat) {
    && Row(k, s, 0) && 0 <= t < k.lens[s] && Ready(k) && i < |slots|
    && t / k.d.blockSize < |k.tables[s]|
    && OwnSlot(slots, i) && slots[i] == TableSlot(k, s, t)
  }

  lemma TableEntry(k: Launch, s: int, h: int, t: int)
    requires Ready(k) && Row(k, s, h) && 0 <= t < k.lens[s]
    ensures 0 <= t / k.d.blockSize < |k.tables[s]| && k.tables[s][t / k.d.blockSize] < k.d.blocks
    ensures 0 <= t % k.d.blockSize < k.d.blockSize && 0 <= KvHead(k, h) < k.d.heads
    ensures |k.keys| == |k.vals| == k.d.blocks * BlockElems(k.d)
  {
    WholeSequence(k, s, h);
    var b := t / k.d.blockSize;
    BlockCount(k.d, k.lens[s]);
    QuotientBound(t, BlocksFor(k.d, k.lens[s]), k.d.blockSize);
    assert 0 * k.d.blockSize == 0;
    BlockInTable(k, s, h, 0, k.lens[s], b);
    KvHeadBound(k, h);
  }

  lemma WholeSequence(k: Launch, s: int, h: int)
    requires Ready(k) && Row(k, s, h)
    ensures TokenRange(k, s, h, 0, k.lens[s])
  {
    assert SequenceReady(k, s);
  }

  /** The kernels' addresses are the layout's addresses of the token's slot. */
  lemma KernelAddress(k: Launch, s: int, h: int, t: int, e: int)
    requires Ready(k) && Row(k, s, h) && 0 <= t < k.lens[s] && 0 <= e < k.d.headSize
    requires 0 <= t / k.d.blockSize < |k.tables[s]|
    ensures Element(k.d, TableSlot(k, s, t), KvHead(k, h), e)
    ensures HeadBase(k, s, h, t / k.d.blockSize) + KOffset(k.d, t % k.d.blockSize, e)
            == KAddr(k.d, TableSlot(k, s, t), KvHead(k, h), e)
    ensures HeadBase(k, s, h, t / k.d.blockSize) + VOffset(k.d, t % k.d.blockSize, e)
            == VAddr(k.d, TableSlot(k, s, t), KvHead(k, h), e)
  {
    TableEntry(k, s, h, t);
    LaunchShape(k, s, h);
    hide Ready, KvHead, KOffset, VOffset, Base, SequenceReady;
    SlotOf(k.d, k.tables[s][t / k.d.blockSize], t % k.d.blockSize);
  }

  /** The plain dot product of a query head and one token's key row. */
  ghost function PlainProducts(d: Dims, q: seq<real>, qBase: int, row: seq<real>, head: int): int -> real {
    e => At(q, qBase + e) * RowAt(d, row, head, e)
  }

  /** The key element the kernel multiplies is the token's. */
  lemma KeyIsPlain(k: Launch, s: int, h: int, t: int, e: int, before: seq<real>, rows: seq<seq<real>>, slots: seq<int>, i: nat)
    requires WrittenAs(k, s, t, slots, i) && Row(k, s, h) && |slots| == |rows| && 0 <= e < k.d.headSize
    requires Stored(Keys, k.d, before, k.keys, rows, slots, |slots|)
    ensures At(k.keys, HeadBase(k, s, h, t / k.d.blockSize) + KOffset(k.d, t % k.d.blockSize, e)) == RowAt(k.d, rows[i], KvHead(k, h), e)
  {
    TableEntry(k, s, h, t);
    KernelAddress(k, s, h, t, e);
    hide Ready, Stored, OwnSlot, KvHead, KOffset, KAddr, HeadBase, RowAt, Element;
    ReadBack(Keys, k.d, before, k.keys, rows, slots, TableSlot(k, s, t), KvHead(k, h), e);
  }

  lemma ProductsArePlain(k: Launch, s: int, h: int, t: int, before: seq<real>, rows: seq<seq<real>>, slots: seq<int>, i: nat)
    requires WrittenAs(k, s, t, slots, i) && Row(k, s, h) && |slots| == |rows|
    requires Stored(Keys, k.d, before, k.keys, rows, slots, |slots|)
    ensures Score(k.d, Queries(k, s), h * k.d.headSize, k.keys, HeadBase(k, s, h, t / k.d.blockSize), t % k.d.blockSize)
            == Sum(0, k.d.headSize, PlainProducts(k.d, Queries(k, s), h * k.d.headSize, rows[i], KvHead(k, h)))
  {
    assert i < |rows|;
    hide Ready, OwnSlot, TableSlot, Row, Stored, KvHead, KOffset, HeadBase, RowAt, Queries, At;
    var qBase, kBase, offset := h * k.d.headSize, HeadBase(k, s, h, t / k.d.blockSize), t % k.d.blockSize;
    forall e | 0 <= e < k.d.headSize
      ensures Products(k.d, Queries(k, s), qBase, k.keys, kBase, offset)(e)
              == PlainProducts(k.d, Queries(k, s), qBase, rows[i], KvHead(k, h))(e)
    {
      KeyIsPlain(k, s, h, t, e, before, rows, slots, i);
      SameFactor(At(Queries(k, s), qBase + e), At(k.keys, kBase + KOffset(k.d, offset, e)), RowAt(k.d, rows[i], KvHead(k, h), e));
    }
    SumExt(0, k.d.headSize, Products(k.d, Queries(k, s), qBase, k.keys, kBase, offset),
           PlainProducts(k.d, Queries(k, s), qBase, rows[i], KvHead(k, h)));
  }

  lemma SameFactor(c: real, a: real, b: real)
    requires a == b
    ensures c * a == c * b && a * c == b * c
  {
  }

  /** The score of a token that was written to its own slot is the plain dot product with its key row. */
  lemma ScoreIsPlain(k: Launch, s: int, h: int, t: int, before: seq<real>, rows: seq<seq<real>>, slots: seq<int>, i: nat)
    requires WrittenAs(k, s, t, slots, i) && Row(k, s, h) && |slots| == |rows|
    requires Stored(Keys, k.d, before, k.keys, rows, slots, |slots|)
    ensures RawLogit(k, s, h)(t)
            == Sum(0, k.d.headSize, PlainProducts(k.d, Queries(k, s), h * k.d.headSize, rows[i], KvHead(k, h))) * k.scale
  {
    assert i < |rows|;
    hide Ready, OwnSlot, TableSlot, Row, Stored, KvHead, HeadBase, PlainProducts, Queries, Score;
    ProductsArePlain(k, s, h, t, before, rows, slots, i);
    SameFactor(k.scale,
               Score(k.d, Queries(k, s), h * k.d.headSize, k.keys, HeadBase(k, s, h, t / k.d.blockSize), t % k.d.blockSize),
               Sum(0, k.d.headSize, PlainProducts(k.d, Queries(k, s), h * k.d.headSize, rows[i], KvHead(k, h))));
  }

  /** And the values it weighs are the token's value row. */
  lemma ValueIsPlain(k: Launch, s: int, h: int, t: int, e: int, before: seq<real>, rows: seq<seq<real>>, slots: seq<int>, i: nat)
    requires WrittenAs(k, s, t, slots, i) && Row(k, s, h) && |slots| == |rows| && 0 <= e < k.d.headSize
    requires Stored(Values, k.d, before, k.vals, rows, slots, |slots|)
    ensures ValueAt(k, s, h, e)(t) == RowAt(k.d, rows[i], KvHead(k, h), e)
  {
    TableEntry(k, s, h, t);
    KernelAddress(k, s, h, t, e);
    hide Ready, Stored, OwnSlot, KvHead, VOffset, VAddr, HeadBase, RowAt, Element;
    ReadBack(Values, k.d, before, k.vals, rows, slots, TableSlot(k, s, t), KvHead(k, h), e);
  }
}
