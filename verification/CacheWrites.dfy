/** Writing tokens into the blocked caches, and copying whole blocks of them. */
module CacheWrites {
  import opened Arithmetic
  import opened Results
  import opened CacheLayout

  datatype Part = Keys | Values

  function Addr(part: Part, d: Dims, slot: int, head: int, e: int): int {
    match part
    case Keys => KAddr(d, slot, head, e)
    case Values => VAddr(d, slot, head, e)
  }

  lemma AddrBound(part: Part, d: Dims, slot: int, head: int, e: int)
    requires Element(d, slot, head, e)
    ensures 0 <= Addr(part, d, slot, head, e) < d.blocks * BlockElems(d)
  {
    hide KAddr, VAddr;
    match part
    case Keys => KAddrBound(d, slot, head, e);
    case Values => VAddrBound(d, slot, head, e);
  }

  /** The layout is one-to-one ... */
  lemma AddrInjective(part: Part, d: Dims, slot: int, head: int, e: int, slot': int, head': int, e': int)
    requires Element(d, slot, head, e) && Element(d, slot', head', e')
    requires Addr(part, d, slot, head, e) == Addr(part, d, slot', head', e')
    ensures slot == slot' && head == head' && e == e'
  {
    hide KAddr, VAddr, Element;
    match part
    case Keys => KAddrInjective(d, slot, head, e, slot', head', e');
    case Values => VAddrInjective(d, slot, head, e, slot', head', e');
  }

  // ---------------------------------------------------------------- what a cache holds

  ghost function At(s: seq<real>, i: int): real {
    if 0 <= i < |s| then s[i] else 0.0
  }

  /** Element e of a head of one token's row: [heads][headSize]. */
  ghost function RowAt(d: Dims, row: seq<real>, head: int, e: int): real {
    At(row, head * d.headSize + e)
  }

  /** The last of the first n tokens that was given a slot. */
  ghost function LastWriter(slots: seq<int>, n: nat, slot: int): Option<nat>
    requires n <= |slots|
  {
    if n == 0 then None else if slots[n - 1] == slot then Some(n - 1) else LastWriter(slots, n - 1, slot)
  }

  /** What the slot holds for one element after the first n tokens were written. */
  ghost function Holds(part: Part, d: Dims, before: seq<real>, rows: seq<seq<real>>, slots: seq<int>, n: nat,
                       slot: int, head: int, e: int): real
    requires n <= |slots| == |rows|
  {
    match LastWriter(slots, n, slot)
    case None => At(before, Addr(part, d, slot, head, e))
    case Some(i) => if i < |rows| then RowAt(d, rows[i], head, e) else 0.0
  }

  /** Every element of the cache is as the first n tokens left it. */
  ghost predicate Stored(part: Part, d: Dims, before: seq<real>, now: seq<real>, rows: seq<seq<real>>, slots: seq<int>, n: nat)
    requires n <= |slots| == |rows|
  {
    && |now| == |before|
    && forall slot, head, e :: Element(d, slot, head, e) ==>
         At(now, Addr(part, d, slot, head, e)) == Holds(part, d, before, rows, slots, n, slot, head, e)
  }

  /** One token is in place up to (but without) element e of a head. */
  ghost predicate Partly(part: Part, d: Dims, before: seq<real>, now: seq<real>, row: seq<real>, slot: int, head: int, upTo: int) {
    && |now| == |before|
    && forall s, h, e :: Element(d, s, h, e) ==>
         At(now, Addr(part, d, s, h, e))
         == if s == slot && (h < head || (h == head && e < upTo)) then RowAt(d, row, h, e) else At(before, Addr(part, d, s, h, e))
  }

  lemma WriteElement(part: Part, d: Dims, before: seq<real>, now: seq<real>, row: seq<real>, slot: int, head: int, e: int)
    requires Partly(part, d, before, now, row, slot, head, e) && Element(d, slot, head, e)
    requires |now| == d.blocks * BlockElems(d)
    ensures 0 <= Addr(part, d, slot, head, e) < |now|
    ensures Partly(part, d, before, now[Addr(part, d, slot, head, e) := RowAt(d, row, head, e)], row, slot, head, e + 1)
  {
    AddrBound(part, d, slot, head, e);
    hide Addr, RowAt, BlockElems;
    var a := Addr(part, d, slot, head, e);
    var now' := now[a := RowAt(d, row, head, e)];
    forall s, h, e' | Element(d, s, h, e')
      ensures At(now', Addr(part, d, s, h, e'))
              == if s == slot && (h < head || (h == head && e' < e + 1)) then RowAt(d, row, h, e') else At(before, Addr(part, d, s, h, e'))
    {
      if Addr(part, d, s, h, e') == a { AddrInjective(part, d, s, h, e', slot, head, e); }
    }
  }

  lemma NextHead(part: Part, d: Dims, before: seq<real>, now: seq<real>, row: seq<real>, slot: int, head: int)
    requires Partly(part, d, before, now, row, slot, head, d.headSize)
    ensures Partly(part, d, before, now, row, slot, head + 1, 0)
  {
    hide Addr, RowAt;
  }

  lemma NothingWritten(part: Part, d: Dims, before: seq<real>, row: seq<real>, slot: int)
    ensures Partly(part, d, before, before, row, slot, 0, 0)
  {
    hide Addr, RowAt;
  }

  lemma TokenStored(part: Part, d: Dims, start: seq<real>, before: seq<real>, now: seq<real>, rows: seq<seq<real>>,
                    slots: seq<int>, n: nat)
    requires n < |slots| == |rows| && Stored(part, d, start, before, rows, slots, n)
    requires Partly(part, d, before, now, rows[n], slots[n], d.heads, 0)
    ensures Stored(part, d, start, now, rows, slots, n + 1)
  {
    hide Addr, RowAt;
  }

  lemma TokenSkipped(part: Part, d: Dims, start: seq<real>, now: seq<real>, rows: seq<seq<real>>, slots: seq<int>, n: nat)
    requires n < |slots| == |rows| && Stored(part, d, start, now, rows, slots, n) && slots[n] < 0
    ensures Stored(part, d, start, now, rows, slots, n + 1)
  {
    hide Addr, RowAt;
  }

  lemma NothingStored(part: Part, d: Dims, before: seq<real>, rows: seq<seq<real>>, slots: seq<int>)
    requires |slots| == |rows|
    ensures Stored(part, d, before, before, rows, slots, 0)
  {
    hide Addr, RowAt;
  }

  /** Element i of the chunk that starts at src. */
  lemma ChunkAddr(d: Dims, slot: int, head: int, src: int, i: int)
    requires 0 <= slot < Slots(d) && 0 <= src < d.headSize && src % d.x == 0 && 0 <= i < d.x
    ensures src + i < d.headSize
    ensures BlockElems(d) * (slot / d.blockSize) + head * d.blockSize * d.headSize
            + (src * d.blockSize + (slot % d.blockSize) * d.x) + i == KAddr(d, slot, head, src + i)
  {
    var c := src / d.x;
    Quotients(src, d.x);
    Quotients(src + i, d.x);
    Digits((src + i) / d.x, (src + i) % d.x, c, i, d.x);
    Chunks(d);
    QuotientBound(src, d.headSize / d.x, d.x);
    DigitBound(c, i, d.headSize / d.x, d.x);
    Assoc(c, d.x, d.blockSize);
    Assoc(head, d.blockSize, d.headSize);
    assert d.headSize * d.blockSize == d.blockSize * d.headSize;
    assert BlockElems(d) * (slot / d.blockSize) == (slot / d.blockSize) * BlockElems(d);
    hide BlockElems;
  }

  lemma ElementAddr(d: Dims, slot: int, head: int, e: int)
    ensures BlockElems(d) * (slot / d.blockSize) + head * d.blockSize * d.headSize
            + (e * d.blockSize + slot % d.blockSize) == VAddr(d, slot, head, e)
  {
    Assoc(head, d.blockSize, d.headSize);
    assert d.headSize * d.blockSize == d.blockSize * d.headSize;
    assert BlockElems(d) * (slot / d.blockSize) == (slot / d.blockSize) * BlockElems(d);
    hide BlockElems;
  }

  lemma RowInBounds(d: Dims, row: seq<real>, head: int, e: int)
    requires 0 <= head < d.heads && 0 <= e < d.headSize && |row| >= d.heads * d.headSize
    ensures 0 <= head * d.headSize + e < |row| && row[head * d.headSize + e] == RowAt(d, row, head, e)
  {
    DigitBound(head, e, d.heads, d.headSize);
  }

  lemma NextChunk(d: Dims, src: int)
    requires 0 <= src && src % d.x == 0
    ensures (src + d.x) % d.x == 0
    ensures src < d.headSize ==> src + d.x <= d.headSize
  {
    Quotients(src, d.x);
    Quotients(d.headSize, d.x);
    Quotients(src + d.x, d.x);
    Digits((src + d.x) / d.x, (src + d.x) % d.x, src / d.x + 1, 0, d.x);
    if src < d.headSize && src / d.x >= d.headSize / d.x { MulMono(d.headSize / d.x, src / d.x, d.x); }
    MulMono(src / d.x + 1, if src / d.x < d.headSize / d.x then d.headSize / d.x else src / d.x + 1, d.x);
  }

  // ---------------------------------------------------------------- the kernel

  /** One head of one token's key, chunk by chunk. */
  method WriteKeyHead(d: Dims, keyCache: array<real>, row: seq<real>, slot: nat, head: nat, ghost before: seq<real>)
    requires keyCache.Length == d.blocks * BlockElems(d) && slot < Slots(d) && head < d.heads
    requires |row| >= d.heads * d.headSize && Partly(Keys, d, before, keyCache[..], row, slot, head, 0)
    modifies keyCache
    ensures Partly(Keys, d, before, keyCache[..], row, slot, head + 1, 0)
  {
    hide Partly, KAddr, RowAt, BlockElems, HeadElems;
    var blockIndex, blockOffset := slot / d.blockSize, slot % d.blockSize;
    var target := BlockElems(d) * blockIndex + head * d.blockSize * d.headSize;
    var src := 0;
    while src < d.headSize
      invariant 0 <= src <= d.headSize && src % d.x == 0
      invariant Partly(Keys, d, before, keyCache[..], row, slot, head, src)
    {
      NextChunk(d, src);
      var offset := src * d.blockSize + blockOffset * d.x;
      for i := 0 to d.x
        invariant Partly(Keys, d, before, keyCache[..], row, slot, head, src + i)
      {
        ChunkAddr(d, slot, head, src, i);
        RowInBounds(d, row, head, src + i);
        WriteElement(Keys, d, before, keyCache[..], row, slot, head, src + i);
        ghost var now := keyCache[..];
        keyCache[target + offset + i] := row[head * d.headSize + (src + i)];
        assert keyCache[..] == now[KAddr(d, slot, head, src + i) := RowAt(d, row, head, src + i)];
      }
      src := src + d.x;
    }
    NextHead(Keys, d, before, keyCache[..], row, slot, head);
  }

  method WriteValueHead(d: Dims, valueCache: array<real>, row: seq<real>, slot: nat, head: nat, ghost before: seq<real>)
    requires valueCache.Length == d.blocks * BlockElems(d) && slot < Slots(d) && head < d.heads
    requires |row| >= d.heads * d.headSize && Partly(Values, d, before, valueCache[..], row, slot, head, 0)
    modifies valueCache
    ensures Partly(Values, d, before, valueCache[..], row, slot, head + 1, 0)
  {
    hide Partly, VAddr, RowAt, BlockElems, HeadElems;
    var blockIndex, blockOffset := slot / d.blockSize, slot % d.blockSize;
    var target := BlockElems(d) * blockIndex + head * d.blockSize * d.headSize;
    for e := 0 to d.headSize
      invariant Partly(Values, d, before, valueCache[..], row, slot, head, e)
    {
      var offset := e * d.blockSize + blockOffset;
      ElementAddr(d, slot, head, e);
      RowInBounds(d, row, head, e);
      WriteElement(Values, d, before, valueCache[..], row, slot, head, e);
      ghost var now := valueCache[..];
      valueCache[target + offset] := row[head * d.headSize + e];
      assert valueCache[..] == now[VAddr(d, slot, head, e) := RowAt(d, row, head, e)];
    }
    NextHead(Values, d, before, valueCache[..], row, slot, head);
  }

  /** Scatters each token with a non-negative slot into both caches. */
  method ReshapeAndCache(d: Dims, key: seq<seq<real>>, value: seq<seq<real>>, keyCache: array<real>, valueCache: array<real>,
                         slotMapping: seq<int>)
    requires |key| == |value| == |slotMapping| && keyCache != valueCache
    requires keyCache.Length == valueCache.Length == d.blocks * BlockElems(d)
    requires forall i :: 0 <= i < |key| ==>
               slotMapping[i] < Slots(d) && |key[i]| >= d.heads * d.headSize && |value[i]| >= d.heads * d.headSize
    modifies keyCache, valueCache
    ensures Stored(Keys, d, old(keyCache[..]), keyCache[..], key, slotMapping, |slotMapping|)
    ensures Stored(Values, d, old(valueCache[..]), valueCache[..], value, slotMapping, |slotMapping|)
  {
    hide Stored, Partly, BlockElems, HeadElems;
    ghost var k0, v0 := keyCache[..], valueCache[..];
    NothingStored(Keys, d, k0, key, slotMapping);
    NothingStored(Values, d, v0, value, slotMapping);
    for token := 0 to |slotMapping|
      invariant Stored(Keys, d, k0, keyCache[..], key, slotMapping, token)
      invariant Stored(Values, d, v0, valueCache[..], value, slotMapping, token)
    {
      var slot := slotMapping[token];
      if slot >= 0 {
        ghost var k, v := keyCache[..], valueCache[..];
        NothingWritten(Keys, d, k, key[token], slot);
        NothingWritten(Values, d, v, value[token], slot);
        for head := 0 to d.heads
          invariant Partly(Keys, d, k, keyCache[..], key[token], slot, head, 0)
          invariant Partly(Values, d, v, valueCache[..], value[token], slot, head, 0)
        {
          WriteKeyHead(d, keyCache, key[token], slot, head, k);
          WriteValueHead(d, valueCache, value[token], slot, head, v);
        }
        TokenStored(Keys, d, k0, k, keyCache[..], key, slotMapping, token);
        TokenStored(Values, d, v0, v, valueCache[..], value, slotMapping, token);
      } else {
        TokenSkipped(Keys, d, k0, keyCache[..], key, slotMapping, token);
        TokenSkipped(Values, d, v0, valueCache[..], value, slotMapping, token);
      }
    }
  }

  /** Tokens with slots of their own do not overwrite each other. */
  ghost predicate OwnSlot(slots: seq<int>, i: nat)
    requires i < |slots|
  {
    slots[i] >= 0 && forall j :: 0 <= j < |slots| && slots[j] == slots[i] ==> j == i
  }

  lemma {:induction false} OnlyWriter(slots: seq<int>, n: nat, i: nat)
    requires i < n <= |slots| && OwnSlot(slots, i)
    ensures LastWriter(slots, n, slots[i]) == Some(i)
  {
    if i < n - 1 { OnlyWriter(slots, n - 1, i); }
  }

  lemma {:induction false} NoWriter(slots: seq<int>, n: nat, slot: int)
    requires n <= |slots| && slot !in slots
    ensures LastWriter(slots, n, slot) == None
  {
    if n > 0 { NoWriter(slots, n - 1, slot); }
  }

  /** A token with its own slot is read back unchanged, and slots no token was given keep what they held. */
  lemma ReadBack(part: Part, d: Dims, before: seq<real>, now: seq<real>, rows: seq<seq<real>>, slots: seq<int>,
                 slot: int, head: int, e: int)
    requires |slots| == |rows| && Stored(part, d, before, now, rows, slots, |slots|) && Element(d, slot, head, e)
    ensures forall i :: 0 <= i < |slots| && OwnSlot(slots, i) && slots[i] == slot ==>
              At(now, Addr(part, d, slot, head, e)) == RowAt(d, rows[i], head, e)
    ensures slot !in slots ==> At(now, Addr(part, d, slot, head, e)) == At(before, Addr(part, d, slot, head, e))
  {
    hide Addr, RowAt, OwnSlot, Element;
    forall i | 0 <= i < |slots| && OwnSlot(slots, i) && slots[i] == slot
      ensures At(now, Addr(part, d, slot, head, e)) == RowAt(d, rows[i], head, e)
    {
      OnlyWriter(slots, |slots|, i);
    }
    if slot !in slots { NoWriter(slots, |slots|, slot); }
  }

  // ---------------------------------------------------------------- copying blocks

  /** The block whose first contents block b holds after the first n copies. */
  ghost function Origin(pairs: seq<(nat, nat)>, n: nat, b: nat): nat
    requires n <= |pairs|
  {
    if n == 0 then b
    else if pairs[n - 1].1 == b then Origin(pairs, n - 1, pairs[n - 1].0) else Origin(pairs, n - 1, b)
  }

  /** Element o of block b. */
  ghost function Cell(s: seq<real>, elems: nat, b: nat, o: int): real {
    At(s, b * elems + o)
  }

  /** Every block holds what its origin held. */
  ghost predicate Moved(before: seq<real>, now: seq<real>, elems: nat, blocks: nat, pairs: seq<(nat, nat)>, n: nat)
    requires n <= |pairs|
  {
    && |now| == |before|
    && forall b: nat, o :: b < blocks && 0 <= o < elems ==>
         Cell(now, elems, b, o) == Cell(before, elems, Origin(pairs, n, b), o)
  }

  /** The first upTo elements of a block are copied. */
  ghost predicate PartCopied(before: seq<real>, now: seq<real>, elems: nat, src: nat, dst: nat, upTo: nat) {
    && |now| == |before|
    && forall b: nat, o :: 0 <= o < elems ==>
         Cell(now, elems, b, o) == Cell(before, elems, if b == dst && o < upTo then src else b, o)
  }

  lemma CopyElement(before: seq<real>, now: seq<real>, elems: nat, src: nat, dst: nat, o: nat)
    requires PartCopied(before, now, elems, src, dst, o) && o < elems
    requires src * elems + o < |now| && dst * elems + o < |now|
    ensures PartCopied(before, now[dst * elems + o := now[src * elems + o]], elems, src, dst, o + 1)
  {
    var now' := now[dst * elems + o := now[src * elems + o]];
    assert Cell(now, elems, src, o) == Cell(before, elems, src, o);
    forall b: nat, o' | 0 <= o' < elems
      ensures Cell(now', elems, b, o') == Cell(before, elems, if b == dst && o' < o + 1 then src else b, o')
    {
      if b * elems + o' == dst * elems + o { Digits(b, o', dst, o, elems); }
      assert Cell(now, elems, b, o') == Cell(before, elems, if b == dst && o' < o then src else b, o');
    }
  }

  method CopyBlock(cache: array<real>, elems: nat, src: nat, dst: nat, blocks: nat)
    requires src < blocks && dst < blocks && cache.Length == blocks * elems
    modifies cache
    ensures PartCopied(old(cache[..]), cache[..], elems, src, dst, elems)
  {
    ghost var before := cache[..];
    for o := 0 to elems
      invariant PartCopied(before, cache[..], elems, src, dst, o)
    {
      DigitBound(src, o, blocks, elems);
      DigitBound(dst, o, blocks, elems);
      CopyElement(before, cache[..], elems, src, dst, o);
      ghost var now := cache[..];
      hide PartCopied;
      cache[dst * elems + o] := cache[src * elems + o];
      assert cache[..] == now[dst * elems + o := now[src * elems + o]];
    }
  }

  lemma NothingMoved(before: seq<real>, elems: nat, blocks: nat, pairs: seq<(nat, nat)>)
    ensures Moved(before, before, elems, blocks, pairs, 0)
  {
  }

  lemma CopyMoved(start: seq<real>, before: seq<real>, now: seq<real>, elems: nat, blocks: nat, pairs: seq<(nat, nat)>, n: nat)
    requires n < |pairs| && Moved(start, before, elems, blocks, pairs, n)
    requires pairs[n].0 < blocks && PartCopied(before, now, elems, pairs[n].0, pairs[n].1, elems)
    ensures Moved(start, now, elems, blocks, pairs, n + 1)
  {
    hide Cell;
    forall b: nat, o | b < blocks && 0 <= o < elems
      ensures Cell(now, elems, b, o) == Cell(start, elems, Origin(pairs, n + 1, b), o)
    {
      assert Cell(now, elems, b, o) == Cell(before, elems, if b == pairs[n].1 then pairs[n].0 else b, o);
    }
  }

  /** One layer's caches: each pair's block is copied in both, in order. */
  method CopyBlocks(keyCache: array<real>, valueCache: array<real>, elems: nat, blocks: nat, pairs: seq<(nat, nat)>)
    requires keyCache != valueCache && keyCache.Length == valueCache.Length == blocks * elems
    requires forall i :: 0 <= i < |pairs| ==> pairs[i].0 < blocks && pairs[i].1 < blocks
    modifies keyCache, valueCache
    ensures Moved(old(keyCache[..]), keyCache[..], elems, blocks, pairs, |pairs|)
    ensures Moved(old(valueCache[..]), valueCache[..], elems, blocks, pairs, |pairs|)
  {
    hide Moved, PartCopied;
    ghost var k0, v0 := keyCache[..], valueCache[..];
    NothingMoved(k0, elems, blocks, pairs);
    NothingMoved(v0, elems, blocks, pairs);
    for i := 0 to |pairs|
      invariant Moved(k0, keyCache[..], elems, blocks, pairs, i)
      invariant Moved(v0, valueCache[..], elems, blocks, pairs, i)
    {
      ghost var k, v := keyCache[..], valueCache[..];
      CopyBlock(keyCache, elems, pairs[i].0, pairs[i].1, blocks);
      CopyBlock(valueCache, elems, pairs[i].0, pairs[i].1, blocks);
      CopyMoved(k0, k, keyCache[..], elems, blocks, pairs, i);
      CopyMoved(v0, v, valueCache[..], elems, blocks, pairs, i);
    }
  }

  /** Destinations that are no source and occur once, as copy-on-write lists have them. */
  ghost predicate FreshTargets(pairs: seq<(nat, nat)>) {
    && (forall i, j :: 0 <= i < |pairs| && 0 <= j < |pairs| ==> pairs[i].0 != pairs[j].1)
    && forall i, j :: 0 <= i < j < |pairs| ==> pairs[i].1 != pairs[j].1
  }

  lemma {:induction false} OriginKept(pairs: seq<(nat, nat)>, n: nat, b: nat)
    requires n <= |pairs| && forall i :: 0 <= i < n ==> pairs[i].1 != b
    ensures Origin(pairs, n, b) == b
  {
    if n > 0 { OriginKept(pairs, n - 1, b); }
  }

  /** With fresh targets the order of the copies does not matter: each target holds its source's first contents. */
  lemma {:induction false} OriginIsSource(pairs: seq<(nat, nat)>, n: nat, i: nat)
    requires FreshTargets(pairs) && i < n <= |pairs|
    ensures Origin(pairs, n, pairs[i].1) == pairs[i].0
  {
    if i == n - 1 {
      OriginKept(pairs, n - 1, pairs[i].0);
    } else {
      OriginIsSource(pairs, n - 1, i);
    }
  }
}
