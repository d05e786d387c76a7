/**
 The blocked key and value caches: where one element of one token's head lives,
 how tokens are written there, and how whole blocks are copied.
 */
module CacheLayout {
  import opened Arithmetic

  datatype RawDims = RawDims(heads: nat, headSize: nat, blockSize: nat, x: nat, blocks: nat)

  /** Cache dimensions; the packing factor x divides the head size. */
  type Dims = d: RawDims | d.heads > 0 && d.headSize > 0 && d.blockSize > 0 && d.x > 0 && d.headSize % d.x == 0
    witness RawDims(1, 1, 1, 1, 0)

  /** Elements of one head in one block. */
  function HeadElems(d: Dims): nat { d.headSize * d.blockSize }

  /** Elements of one block. */
  function BlockElems(d: Dims): nat { d.heads * HeadElems(d) }

  function Slots(d: Dims): nat { d.blocks * d.blockSize }

  /** Keys: [headSize / x][blockSize][x]. */
  function KOffset(d: Dims, offset: int, e: int): int {
    (e / d.x) * (d.x * d.blockSize) + offset * d.x + e % d.x
  }

  /** Values: [headSize][blockSize]. */
  function VOffset(d: Dims, offset: int, e: int): int {
    e * d.blockSize + offset
  }

  function Base(d: Dims, block: int, head: int): int {
    block * BlockElems(d) + head * HeadElems(d)
  }

  /** The address of element e of a head of the token in a slot of the key cache. */
  function KAddr(d: Dims, slot: int, head: int, e: int): int {
    Base(d, slot / d.blockSize, head) + KOffset(d, slot % d.blockSize, e)
  }

  function VAddr(d: Dims, slot: int, head: int, e: int): int {
    Base(d, slot / d.blockSize, head) + VOffset(d, slot % d.blockSize, e)
  }

  predicate Element(d: Dims, slot: int, head: int, e: int) {
    0 <= slot < Slots(d) && 0 <= head < d.heads && 0 <= e < d.headSize
  }

  // ---------------------------------------------------------------- mixed-radix arithmetic

  /** Two digits in radix m are determined by their value. */
  lemma Digits(a: int, b: int, a': int, b': int, m: int)
    requires 0 <= b < m && 0 <= b' < m && a * m + b == a' * m + b'
    ensures a == a' && b == b'
  {
    if a < a' { MulMono(a + 1, a', m); }
    if a' < a { MulMono(a' + 1, a, m); }
  }

  /** A value with a leading digit below n is below n * m. */
  lemma DigitBound(a: int, b: int, n: int, m: int)
    requires 0 <= a < n && 0 <= b < m
    ensures 0 <= a * m + b < n * m
  {
    MulMono(a + 1, n, m);
    MulMono(0, a, m);
  }

  lemma Quotients(n: int, m: int)
    requires m > 0
    ensures n == (n / m) * m + n % m && 0 <= n % m < m
  {
  }

  lemma QuotientBound(v: int, n: int, m: int)
    requires m > 0 && 0 <= v < n * m
    ensures 0 <= v / m < n
  {
    Quotients(v, m);
    if v / m >= n { MulMono(n, v / m, m); }
    if v / m < 0 { MulMono(v / m, -1, m); }
  }

  // ---------------------------------------------------------------- one head of one block

  /** Chunks of x elements in a head. */
  lemma Chunks(d: Dims)
    ensures d.headSize == (d.headSize / d.x) * d.x && d.headSize / d.x > 0
    ensures HeadElems(d) == (d.headSize / d.x) * (d.x * d.blockSize)
  {
    Quotients(d.headSize, d.x);
    if d.headSize / d.x <= 0 { MulMono(d.headSize / d.x, 0, d.x); }
    Assoc(d.headSize / d.x, d.x, d.blockSize);
  }

  lemma Assoc(a: int, b: int, c: int)
    ensures a * b * c == a * (b * c)
  {
  }

  lemma KOffsetBound(d: Dims, offset: int, e: int)
    requires 0 <= offset < d.blockSize && 0 <= e < d.headSize
    ensures 0 <= KOffset(d, offset, e) < HeadElems(d)
    ensures 0 <= offset * d.x + e % d.x < d.x * d.blockSize
    ensures 0 <= e / d.x < d.headSize / d.x
  {
    Chunks(d);
    Quotients(e, d.x);
    QuotientBound(e, d.headSize / d.x, d.x);
    DigitBound(offset, e % d.x, d.blockSize, d.x);
    DigitBound(e / d.x, offset * d.x + e % d.x, d.headSize / d.x, d.x * d.blockSize);
  }

  lemma KOffsetInjective(d: Dims, offset: int, e: int, offset': int, e': int)
    requires 0 <= offset < d.blockSize && 0 <= e < d.headSize
    requires 0 <= offset' < d.blockSize && 0 <= e' < d.headSize
    requires KOffset(d, offset, e) == KOffset(d, offset', e')
    ensures offset == offset' && e == e'
  {
    KOffsetBound(d, offset, e);
    KOffsetBound(d, offset', e');
    Digits(e / d.x, offset * d.x + e % d.x, e' / d.x, offset' * d.x + e' % d.x, d.x * d.blockSize);
    Quotients(e, d.x);
    Quotients(e', d.x);
    Digits(offset, e % d.x, offset', e' % d.x, d.x);
  }

  lemma VOffsetBound(d: Dims, offset: int, e: int)
    requires 0 <= offset < d.blockSize && 0 <= e < d.headSize
    ensures 0 <= VOffset(d, offset, e) < HeadElems(d)
  {
    DigitBound(e, offset, d.headSize, d.blockSize);
  }

  lemma VOffsetInjective(d: Dims, offset: int, e: int, offset': int, e': int)
    requires 0 <= offset < d.blockSize && 0 <= offset' < d.blockSize
    requires VOffset(d, offset, e) == VOffset(d, offset', e')
    ensures offset == offset' && e == e'
  {
    Digits(e, offset, e', offset', d.blockSize);
  }

  // ---------------------------------------------------------------- the whole cache

  lemma InHead(d: Dims, block: int, head: int, w: int)
    requires 0 <= block < d.blocks && 0 <= head < d.heads && 0 <= w < HeadElems(d)
    ensures 0 <= Base(d, block, head) + w < d.blocks * BlockElems(d)
    ensures 0 <= head * HeadElems(d) + w < BlockElems(d)
  {
    hide HeadElems;
    DigitBound(head, w, d.heads, HeadElems(d));
    DigitBound(block, head * HeadElems(d) + w, d.blocks, BlockElems(d));
  }

  lemma SameHead(d: Dims, block: int, head: int, w: int, block': int, head': int, w': int)
    requires 0 <= block < d.blocks && 0 <= head < d.heads && 0 <= w < HeadElems(d)
    requires 0 <= block' < d.blocks && 0 <= head' < d.heads && 0 <= w' < HeadElems(d)
    requires Base(d, block, head) + w == Base(d, block', head') + w'
    ensures block == block' && head == head' && w == w'
  {
    InHead(d, block, head, w);
    InHead(d, block', head', w');
    hide HeadElems;
    Digits(block, head * HeadElems(d) + w, block', head' * HeadElems(d) + w', BlockElems(d));
    Digits(head, w, head', w', HeadElems(d));
  }

  lemma SlotBlock(d: Dims, slot: int)
    requires 0 <= slot < Slots(d)
    ensures 0 <= slot / d.blockSize < d.blocks && 0 <= slot % d.blockSize < d.blockSize
  {
    QuotientBound(slot, d.blocks, d.blockSize);
  }

  /** Every element lies inside the key cache. */
  lemma KAddrBound(d: Dims, slot: int, head: int, e: int)
    requires Element(d, slot, head, e)
    ensures 0 <= KAddr(d, slot, head, e) < d.blocks * BlockElems(d)
  {
    hide Base, KOffset, HeadElems, BlockElems;
    SlotBlock(d, slot);
    KOffsetBound(d, slot % d.blockSize, e);
    InHead(d, slot / d.blockSize, head, KOffset(d, slot % d.blockSize, e));
  }

  lemma VAddrBound(d: Dims, slot: int, head: int, e: int)
    requires Element(d, slot, head, e)
    ensures 0 <= VAddr(d, slot, head, e) < d.blocks * BlockElems(d)
  {
    hide Base, VOffset, HeadElems, BlockElems;
    SlotBlock(d, slot);
    VOffsetBound(d, slot % d.blockSize, e);
    InHead(d, slot / d.blockSize, head, VOffset(d, slot % d.blockSize, e));
  }

  /** No two elements share an address. */
  lemma KAddrInjective(d: Dims, slot: int, head: int, e: int, slot': int, head': int, e': int)
    requires Element(d, slot, head, e) && Element(d, slot', head', e')
    requires KAddr(d, slot, head, e) == KAddr(d, slot', head', e')
    ensures slot == slot' && head == head' && e == e'
  {
    hide Base, KOffset, HeadElems;
    SlotBlock(d, slot);
    SlotBlock(d, slot');
    KOffsetBound(d, slot % d.blockSize, e);
    KOffsetBound(d, slot' % d.blockSize, e');
    SameHead(d, slot / d.blockSize, head, KOffset(d, slot % d.blockSize, e),
             slot' / d.blockSize, head', KOffset(d, slot' % d.blockSize, e'));
    KOffsetInjective(d, slot % d.blockSize, e, slot' % d.blockSize, e');
    Quotients(slot, d.blockSize);
    Quotients(slot', d.blockSize);
  }

  lemma VAddrInjective(d: Dims, slot: int, head: int, e: int, slot': int, head': int, e': int)
    requires Element(d, slot, head, e) && Element(d, slot', head', e')
    requires VAddr(d, slot, head, e) == VAddr(d, slot', head', e')
    ensures slot == slot' && head == head' && e == e'
  {
    hide Base, VOffset, HeadElems;
    SlotBlock(d, slot);
    SlotBlock(d, slot');
    VOffsetBound(d, slot % d.blockSize, e);
    VOffsetBound(d, slot' % d.blockSize, e');
    SameHead(d, slot / d.blockSize, head, VOffset(d, slot % d.blockSize, e),
             slot' / d.blockSize, head', VOffset(d, slot' % d.blockSize, e'));
    VOffsetInjective(d, slot % d.blockSize, e, slot' % d.blockSize, e');
    Quotients(slot, d.blockSize);
    Quotients(slot', d.blockSize);
  }

  /** An address of the cache splits into block, head and the rest. */
  lemma Decompose(d: Dims, a: int) returns (block: int, head: int, w: int)
    requires 0 <= a < d.blocks * BlockElems(d)
    ensures 0 <= block < d.blocks && 0 <= head < d.heads && 0 <= w < HeadElems(d)
    ensures a == Base(d, block, head) + w
  {
    assert HeadElems(d) > 0 && BlockElems(d) > 0 by {
      DigitBound(0, 0, d.headSize, d.blockSize);
      DigitBound(0, 0, d.heads, HeadElems(d));
    }
    hide HeadElems;
    block := a / BlockElems(d);
    var r := a % BlockElems(d);
    Quotients(a, BlockElems(d));
    QuotientBound(a, d.blocks, BlockElems(d));
    head, w := r / HeadElems(d), r % HeadElems(d);
    Quotients(r, HeadElems(d));
    QuotientBound(r, d.heads, HeadElems(d));
  }

  lemma SlotOf(d: Dims, block: int, offset: int)
    requires 0 <= block < d.blocks && 0 <= offset < d.blockSize
    ensures var slot := block * d.blockSize + offset;
            0 <= slot < Slots(d) && slot / d.blockSize == block && slot % d.blockSize == offset
  {
    var slot := block * d.blockSize + offset;
    DigitBound(block, offset, d.blocks, d.blockSize);
    Quotients(slot, d.blockSize);
    Digits(slot / d.blockSize, slot % d.blockSize, block, offset, d.blockSize);
  }

  /** Every address of the key cache belongs to an element: with injectivity, the layout is a bijection. */
  lemma KAddrSurjective(d: Dims, a: int) returns (slot: int, head: int, e: int)
    requires 0 <= a < d.blocks * BlockElems(d)
    ensures Element(d, slot, head, e) && KAddr(d, slot, head, e) == a
  {
    var block, w;
    block, head, w := Decompose(d, a);
    Chunks(d);
    var row := d.x * d.blockSize;
    DigitBound(0, 0, d.x, d.blockSize);
    var c, r := w / row, w % row;
    Quotients(w, row);
    QuotientBound(w, d.headSize / d.x, row);
    var offset, i := r / d.x, r % d.x;
    Quotients(r, d.x);
    QuotientBound(r, d.blockSize, d.x);
    e := c * d.x + i;
    DigitBound(c, i, d.headSize / d.x, d.x);
    Quotients(e, d.x);
    Digits(e / d.x, e % d.x, c, i, d.x);
    assert KOffset(d, offset, e) == w;
    hide HeadElems, BlockElems, KOffset, Base;
    slot := block * d.blockSize + offset;
    SlotOf(d, block, offset);
  }

  lemma VAddrSurjective(d: Dims, a: int) returns (slot: int, head: int, e: int)
    requires 0 <= a < d.blocks * BlockElems(d)
    ensures Element(d, slot, head, e) && VAddr(d, slot, head, e) == a
  {
    var block, w;
    block, head, w := Decompose(d, a);
    var offset := w % d.blockSize;
    e := w / d.blockSize;
    Quotients(w, d.blockSize);
    QuotientBound(w, d.headSize, d.blockSize);
    assert VOffset(d, offset, e) == w;
    hide HeadElems, BlockElems, VOffset, Base;
    slot := block * d.blockSize + offset;
    SlotOf(d, block, offset);
  }

  /** The key cache has shape [blocks][heads][headSize / x][blockSize][x], in row-major order. */
  lemma KeyShape(d: Dims, block: int, head: int, chunk: int, offset: int, i: int)
    requires 0 <= block < d.blocks && 0 <= head < d.heads && 0 <= chunk < d.headSize / d.x && 0 <= offset < d.blockSize && 0 <= i < d.x
    ensures KAddr(d, block * d.blockSize + offset, head, chunk * d.x + i)
            == (((block * d.heads + head) * (d.headSize / d.x) + chunk) * d.blockSize + offset) * d.x + i
  {
    SlotOf(d, block, offset);
    var e, n, b, x := chunk * d.x + i, d.headSize / d.x, d.blockSize, d.x;
    Quotients(e, x);
    Digits(e / x, e % x, chunk, i, x);
    Chunks(d);
    hide KAddr;
    assert KAddr(d, block * b + offset, head, e) == Base(d, block, head) + chunk * (x * b) + offset * x + i by { AddrParts(d, block, head, offset, e); }
    BaseIs(d, block, head, n * (x * b));
    Unfold(block * d.heads + head, n, x, b, chunk);
    Distribute3((block * d.heads + head) * n + chunk, b, offset, x);
  }

  lemma AddrParts(d: Dims, block: int, head: int, offset: int, e: int)
    requires 0 <= block < d.blocks && 0 <= offset < d.blockSize
    ensures KAddr(d, block * d.blockSize + offset, head, e) == Base(d, block, head) + (e / d.x) * (d.x * d.blockSize) + offset * d.x + e % d.x
    ensures VAddr(d, block * d.blockSize + offset, head, e) == Base(d, block, head) + e * d.blockSize + offset
  {
    SlotOf(d, block, offset);
  }

  lemma BaseIs(d: Dims, block: int, head: int, h: int)
    requires HeadElems(d) == h
    ensures Base(d, block, head) == (block * d.heads + head) * h
  {
    Assoc(block, d.heads, h);
    assert (block * d.heads + head) * h == (block * d.heads) * h + head * h;
  }

  lemma Unfold(r: int, n: int, x: int, b: int, c: int)
    ensures r * (n * (x * b)) + c * (x * b) == (r * n + c) * (b * x)
  {
    Assoc(r, n, x * b);
    assert x * b == b * x;
    assert (r * n + c) * (x * b) == (r * n) * (x * b) + c * (x * b);
  }

  lemma Distribute3(q: int, b: int, o: int, x: int)
    ensures q * (b * x) + o * x == (q * b + o) * x
  {
    Assoc(q, b, x);
    assert (q * b + o) * x == q * b * x + o * x;
  }

  /** The value cache has shape [blocks][heads][headSize][blockSize]. */
  lemma ValueShape(d: Dims, block: int, head: int, e: int, offset: int)
    requires 0 <= block < d.blocks && 0 <= head < d.heads && 0 <= e < d.headSize && 0 <= offset < d.blockSize
    ensures VAddr(d, block * d.blockSize + offset, head, e)
            == ((block * d.heads + head) * d.headSize + e) * d.blockSize + offset
  {
    AddrParts(d, block, head, offset, e);
    BaseIs(d, block, head, d.headSize * d.blockSize);
    hide VAddr;
    Distribute3(block * d.heads + head, d.headSize, e, d.blockSize);
  }
}
