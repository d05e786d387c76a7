/**
 The state of eLLM's token- and layer-granular KV block store, and the ledger
 that ties its free deques and reference counts to its two entry maps.
 */
module KVState {
  import opened Arithmetic

  datatype RawConfig = RawConfig(numLayers: nat, blockSize: nat, numBlocks: nat, groupSize: nat)

  /** Cache dimensions that passed the constructor's checks. */
  type Config = c: RawConfig | c.numLayers > 0 && c.blockSize > 0 && c.numBlocks > 0 && c.groupSize > 0
    witness RawConfig(1, 1, 1, 1)

  function CeilDiv(a: nat, b: nat): nat
    requires b > 0
  {
    (a + b - 1) / b
  }

  function Groups(c: Config): nat {
    CeilDiv(c.numLayers, c.groupSize)
  }

  /** The number of logical blocks that cover n tokens. */
  function NumBlocks(c: Config, n: nat): nat {
    CeilDiv(n, c.blockSize)
  }

  /** The number of logical blocks that n tokens fill. */
  function WholeBlocks(c: Config, n: nat): nat {
    n / c.blockSize
  }

  predicate Aligned(c: Config, n: nat) {
    n % c.blockSize == 0
  }

  /** How many of n tokens lie in one logical block. */
  function NumFilled(c: Config, n: nat, block: nat): nat {
    var remaining := n - block * c.blockSize;
    var atLeastZero := if remaining < 0 then 0 else remaining;
    if atLeastZero < c.blockSize then atLeastZero else c.blockSize
  }

  datatype Key = Key(seqId: int, block: nat, group: nat)

  datatype Entry = Entry(seqId: int, tokenStart: nat, layerStart: nat, block: nat,
                         phys: nat, numFilled: nat, temporary: bool)

  /** The permanent entry for key k of a sequence of n tokens, stored in block phys. */
  function PermanentEntry(c: Config, k: Key, n: nat, phys: nat): Entry {
    Entry(k.seqId, k.block * c.blockSize, k.group * c.groupSize, k.block, phys, NumFilled(c, n, k.block), false)
  }

  /** The entry that holds a full recomputed prefix block. */
  function TemporaryEntry(c: Config, k: Key, phys: nat): Entry {
    Entry(k.seqId, k.block * c.blockSize, k.group * c.groupSize, k.block, phys, c.blockSize, true)
  }

  datatype State = State(
    free: seq<seq<nat>>,
    refs: seq<seq<nat>>,
    entries: map<Key, Entry>,
    temps: map<Key, Entry>,
    lens: map<int, nat>,
    evicted: map<int, nat>)

  /** The keys whose entry names physical block b of group g. */
  ghost function Holders(m: map<Key, Entry>, g: nat, b: nat): set<Key> {
    set k | k in m && k.group == g && m[k].phys == b
  }

  ghost predicate NoDup<T(!new)>(s: seq<T>) {
    forall i, j :: 0 <= i < j < |s| ==> s[i] != s[j]
  }

  /** One group's pool: the deque lists, without repetition, exactly the unreferenced blocks. */
  ghost predicate PoolOk(free: seq<nat>, refs: seq<nat>, n: nat) {
    && |refs| == n
    && NoDup(free)
    && (forall b :: b in free ==> b < n && refs[b] == 0)
    && (forall b :: 0 <= b < n && refs[b] == 0 ==> b in free)
  }

  ghost predicate InRange(c: Config, m: map<Key, Entry>) {
    forall k :: k in m ==> k.group < Groups(c) && m[k].phys < c.numBlocks
  }

  /**
   Every reference count is the number of permanent entries plus the number of
   temporary entries naming the block, plus the holds in x: blocks that an
   operation in progress has taken but not yet recorded.
   */
  ghost predicate Ledger(c: Config, s: State, x: multiset<(nat, nat)>) {
    && |s.free| == |s.refs| == Groups(c)
    && (forall g :: 0 <= g < Groups(c) ==> PoolOk(s.free[g], s.refs[g], c.numBlocks))
    && InRange(c, s.entries) && InRange(c, s.temps)
    && (forall g, b :: 0 <= g < Groups(c) && 0 <= b < c.numBlocks ==>
          s.refs[g][b] == |Holders(s.entries, g, b)| + |Holders(s.temps, g, b)| + x[(g, b)])
  }

  /** A sequence's permanent keys are exactly its retained blocks in every group. */
  ghost predicate Retained(c: Config, s: State, k: Key) {
    && k.seqId in s.lens && k.seqId in s.evicted
    && s.evicted[k.seqId] <= k.block < NumBlocks(c, s.lens[k.seqId])
    && k.group < Groups(c)
  }

  ghost predicate TablesOk(c: Config, s: State) {
    && s.lens.Keys == s.evicted.Keys
    && (forall id :: id in s.lens ==> s.lens[id] > 0 && s.evicted[id] <= NumBlocks(c, s.lens[id]))
    && (forall k :: k in s.entries <==> Retained(c, s, k))
    && (forall k :: k in s.entries ==>
          s.entries[k] == PermanentEntry(c, k, s.lens[k.seqId], s.entries[k].phys))
  }

  /** Active temporaries are whole evicted prefixes, in one group at a time per sequence. */
  ghost predicate TempsOk(c: Config, s: State) {
    && (forall k :: k in s.temps ==>
          && k.seqId in s.evicted && k.block < s.evicted[k.seqId]
          && s.temps[k] == TemporaryEntry(c, k, s.temps[k].phys))
    && (forall k, l: nat :: k in s.temps && l < s.evicted[k.seqId] ==> Key(k.seqId, l, k.group) in s.temps)
    && (forall k, k' :: k in s.temps && k' in s.temps && k.seqId == k'.seqId ==> k.group == k'.group)
  }

  ghost predicate Inv(c: Config, s: State) {
    Ledger(c, s, multiset{}) && TablesOk(c, s) && TempsOk(c, s)
  }

  /** The same tables, lengths and reference counts; free deques equal up to order. */
  ghost predicate Unchanged(s: State, t: State) {
    && t.entries == s.entries && t.temps == s.temps && t.lens == s.lens && t.evicted == s.evicted
    && t.refs == s.refs
    && |t.free| == |s.free|
    && forall g :: 0 <= g < |s.free| ==> multiset(t.free[g]) == multiset(s.free[g])
  }

  // ---------------------------------------------------------------- arithmetic

  lemma CeilDivBounds(a: nat, b: nat)
    requires b > 0
    ensures CeilDiv(a, b) * b >= a
    ensures a > 0 ==> CeilDiv(a, b) > 0 && (CeilDiv(a, b) - 1) * b < a
    ensures a == 0 ==> CeilDiv(a, b) == 0
  {
    var q := (a + b - 1) / b;
    assert a + b - 1 == q * b + (a + b - 1) % b;
    assert (q - 1) * b == q * b - b;
    if q == 0 { assert q * b == 0; }
  }

  /** Appending to n tokens opens a new block exactly when n fills its blocks. */
  lemma BlocksOnAppend(c: Config, n: nat)
    ensures NumBlocks(c, n + 1) == WholeBlocks(c, n) + 1
    ensures NumBlocks(c, n) == WholeBlocks(c, n) + if Aligned(c, n) then 0 else 1
  {
    var b, q, r := c.blockSize, n / c.blockSize, n % c.blockSize;
    assert n == q * b + r;
    assert (q + 1) * b == q * b + b;
    DivUnique(n + b, b, q + 1, r);
    if r == 0 {
      DivUnique(n + b - 1, b, q, b - 1);
    } else {
      DivUnique(n + b - 1, b, q + 1, r - 1);
    }
  }

  /** The fill of each block when a token is appended to n tokens. */
  lemma FillOnAppend(c: Config, n: nat, block: nat)
    requires block <= WholeBlocks(c, n)
    ensures block < WholeBlocks(c, n) ==> NumFilled(c, n, block) == NumFilled(c, n + 1, block) == c.blockSize
    ensures block == WholeBlocks(c, n) ==> NumFilled(c, n, block) == n % c.blockSize
    ensures block == WholeBlocks(c, n) ==> NumFilled(c, n + 1, block) == NumFilled(c, n, block) + 1
  {
    var b, q := c.blockSize, n / c.blockSize;
    assert n == q * b + n % b;
    if block < q {
      MulMono(block + 1, q, b);
      assert (block + 1) * b == block * b + b;
    }
  }

  /** Every covered block holds at least one token, at most blockSize, and none beyond n. */
  lemma FillBounds(c: Config, n: nat, block: nat)
    requires block < NumBlocks(c, n)
    ensures 1 <= NumFilled(c, n, block) <= c.blockSize
    ensures block * c.blockSize + NumFilled(c, n, block) <= n
  {
    CeilDivBounds(n, c.blockSize);
    var q := NumBlocks(c, n);
    MulMono(block, q - 1, c.blockSize);
  }

  /** Token t lies in block t / blockSize, at offset t % blockSize. */
  lemma TokenInBlock(c: Config, n: nat, t: nat)
    requires t < n
    ensures t / c.blockSize < NumBlocks(c, n)
    ensures t == (t / c.blockSize) * c.blockSize + t % c.blockSize
    ensures t % c.blockSize < NumFilled(c, n, t / c.blockSize)
  {
    var b, q := c.blockSize, t / c.blockSize;
    assert t == q * b + t % b;
    CeilDivBounds(n, b);
    var nb := NumBlocks(c, n);
    if nb <= q { MulMono(nb, q, b); }
  }

  // ---------------------------------------------------------------- layer groups

  /** n groups cover all the layers, and n - 1 would not. */
  predicate PartitionsLayers(c: Config, n: nat) {
    n > 0 && (n - 1) * c.groupSize < c.numLayers <= n * c.groupSize
  }

  lemma GroupsPartition(c: Config)
    ensures PartitionsLayers(c, Groups(c))
  {
    CeilDivBounds(c.numLayers, c.groupSize);
  }

  /** So every one of them has a first layer ... */
  lemma GroupHasLayer(c: Config, n: nat, g: nat)
    requires PartitionsLayers(c, n) && g < n
    ensures g * c.groupSize < c.numLayers && g * c.groupSize / c.groupSize == g
  {
    MulMono(g, n - 1, c.groupSize);
    DivUnique(g * c.groupSize, c.groupSize, g, 0);
  }

  /** ... and every layer lies in one of them. */
  lemma LayerInGroup(c: Config, n: nat, l: nat)
    requires PartitionsLayers(c, n) && l < c.numLayers
    ensures l / c.groupSize < n
  {
    var q := l / c.groupSize;
    assert l == q * c.groupSize + l % c.groupSize;
    if n <= q { MulMono(n, q, c.groupSize); }
  }

  /**
   What an entry says of itself: it belongs to its key's sequence, block and group, starts at
   the first token of the block and at the first layer of the group, and tells which kind it is.
   */
  lemma EntryAddress(c: Config, s: State, k: Key)
    requires Inv(c, s) && (k in s.entries || k in s.temps)
    ensures var e := if k in s.entries then s.entries[k] else s.temps[k];
            && e.seqId == k.seqId && e.block == k.block && e.temporary == (k !in s.entries)
            && e.tokenStart / c.blockSize == k.block && e.tokenStart % c.blockSize == 0
            && e.layerStart < c.numLayers && e.layerStart / c.groupSize == k.group && e.layerStart % c.groupSize == 0
  {
    hide NumBlocks, NumFilled;
    CeilDivBounds(c.numLayers, c.groupSize);
    assert k.group < Groups(c);
    MulMono(k.group, Groups(c) - 1, c.groupSize);
    DivUnique(k.group * c.groupSize, c.groupSize, k.group, 0);
    DivUnique(k.block * c.blockSize, c.blockSize, k.block, 0);
  }

  // ---------------------------------------------------------------- counting holders

  lemma HoldersAdd(m: map<Key, Entry>, k: Key, e: Entry, g: nat, b: nat)
    requires k !in m
    ensures |Holders(m[k := e], g, b)| == |Holders(m, g, b)| + (if k.group == g && e.phys == b then 1 else 0)
  {
    var m' := m[k := e];
    if k.group == g && e.phys == b {
      assert Holders(m', g, b) == Holders(m, g, b) + {k};
    } else {
      assert Holders(m', g, b) == Holders(m, g, b);
    }
  }

  lemma HoldersRemove(m: map<Key, Entry>, k: Key, g: nat, b: nat)
    requires k in m
    ensures |Holders(m, g, b)| == |Holders(m - {k}, g, b)| + (if k.group == g && m[k].phys == b then 1 else 0)
  {
    var m' := m - {k};
    assert m'[k := m[k]] == m;
    HoldersAdd(m', k, m[k], g, b);
  }

  /** A hold in progress becomes a permanent entry. */
  lemma Attach(c: Config, s: State, x: multiset<(nat, nat)>, k: Key, e: Entry)
    requires k !in s.entries && k.group < Groups(c) && e.phys < c.numBlocks
    requires Ledger(c, s, x + multiset{(k.group, e.phys)})
    ensures Ledger(c, s.(entries := s.entries[k := e]), x)
  {
    forall g, b | 0 <= g < Groups(c) && 0 <= b < c.numBlocks
      ensures s.refs[g][b] == |Holders(s.entries[k := e], g, b)| + |Holders(s.temps, g, b)| + x[(g, b)]
    {
      HoldersAdd(s.entries, k, e, g, b);
      assert (x + multiset{(k.group, e.phys)})[(g, b)] == x[(g, b)] + (if k.group == g && e.phys == b then 1 else 0);
    }
  }

  /** Popping a permanent entry leaves its block held by the operation in progress. */
  lemma Detach(c: Config, s: State, x: multiset<(nat, nat)>, k: Key)
    requires k in s.entries && Ledger(c, s, x)
    ensures Ledger(c, s.(entries := s.entries - {k}), x + multiset{(k.group, s.entries[k].phys)})
  {
    var y := x + multiset{(k.group, s.entries[k].phys)};
    forall g, b | 0 <= g < Groups(c) && 0 <= b < c.numBlocks
      ensures s.refs[g][b] == |Holders(s.entries - {k}, g, b)| + |Holders(s.temps, g, b)| + y[(g, b)]
    {
      HoldersRemove(s.entries, k, g, b);
    }
  }

  /** Lengths and prefixes are no part of the ledger. */
  lemma LedgerFrame(c: Config, s: State, x: multiset<(nat, nat)>, lens: map<int, nat>, evicted: map<int, nat>)
    requires Ledger(c, s, x)
    ensures Ledger(c, s.(lens := lens, evicted := evicted), x)
  {
  }

  /** Permanent and temporary entries play the same part in the ledger. */
  function Flip(s: State): State {
    s.(entries := s.temps, temps := s.entries)
  }

  lemma AttachTemp(c: Config, s: State, x: multiset<(nat, nat)>, k: Key, e: Entry)
    requires k !in s.temps && k.group < Groups(c) && e.phys < c.numBlocks
    requires Ledger(c, s, x + multiset{(k.group, e.phys)})
    ensures Ledger(c, s.(temps := s.temps[k := e]), x)
  {
    Attach(c, Flip(s), x, k, e);
  }

  lemma DetachTemp(c: Config, s: State, x: multiset<(nat, nat)>, k: Key)
    requires k in s.temps && Ledger(c, s, x)
    ensures Ledger(c, s.(temps := s.temps - {k}), x + multiset{(k.group, s.temps[k].phys)})
  {
    Detach(c, Flip(s), x, k);
  }

  /** A held block is in range and not free. */
  lemma HeldBlock(c: Config, s: State, x: multiset<(nat, nat)>, k: Key)
    requires Ledger(c, s, x) && k in s.entries
    ensures k.group < |s.refs| == |s.free| && s.entries[k].phys < |s.refs[k.group]|
    ensures s.entries[k].phys < c.numBlocks && s.refs[k.group][s.entries[k].phys] >= 1
  {
    assert k in Holders(s.entries, k.group, s.entries[k].phys);
  }

  /** A block with reference count one has no second holder. */
  lemma SoleHolder(c: Config, s: State, k: Key, k': Key)
    requires Ledger(c, s, multiset{})
    requires k in s.entries && k' in s.entries && k != k' && k.group == k'.group
    requires s.refs[k.group][s.entries[k].phys] == 1
    ensures s.entries[k'].phys != s.entries[k].phys
  {
    var h := Holders(s.entries, k.group, s.entries[k].phys);
    assert k in h;
    assert |h - {k}| == |h| - 1;
    assert k' in h ==> k' in h - {k};
  }

  /** A temporary block belongs to no permanent entry if it is referenced once. */
  lemma SoleTemp(c: Config, s: State, k: Key, k': Key)
    requires Ledger(c, s, multiset{})
    requires k in s.temps && k' in s.entries && k.group == k'.group
    requires s.refs[k.group][s.temps[k].phys] == 1
    ensures s.entries[k'].phys != s.temps[k].phys
  {
    var g, b := k.group, s.temps[k].phys;
    assert k in Holders(s.temps, g, b);
    assert s.entries[k'].phys == b ==> k' in Holders(s.entries, g, b);
  }

  lemma SubsetSize<T>(a: set<T>, b: set<T>)
    requires a <= b
    ensures |a| <= |b|
  {
    assert b == a + (b - a);
  }

  // ---------------------------------------------------------------- the maps determine the pools

  lemma {:induction false} DistinctSize<T(!new)>(s: seq<T>)
    requires NoDup(s)
    ensures |set x | x in s| == |s|
  {
    if s != [] {
      var n := |s| - 1;
      DistinctSize(s[..n]);
      assert s == s[..n] + [s[n]] && s[n] !in s[..n];
      assert (set x | x in s) == (set x | x in s[..n]) + {s[n]};
    } else {
      assert (set x | x in s) == {};
    }
  }

  lemma SameMembersSameMultiset(a: seq<nat>, b: seq<nat>)
    requires NoDup(a) && NoDup(b) && forall x :: x in a <==> x in b
    ensures multiset(a) == multiset(b)
  {
    NoDupMultiset(a);
    NoDupMultiset(b);
    forall x: nat ensures multiset(a)[x] == multiset(b)[x] {
      assert x in multiset(a) <==> x in a;
      assert x in multiset(b) <==> x in b;
    }
  }

  lemma {:induction false} NoDupMultiset(a: seq<nat>)
    requires NoDup(a)
    ensures forall x :: multiset(a)[x] <= 1
  {
    if a != [] {
      var n := |a| - 1;
      assert a == a[..n] + [a[n]];
      NoDupMultiset(a[..n]);
      assert a[n] !in a[..n];
      assert multiset(a) == multiset(a[..n]) + multiset{a[n]};
    }
  }

  lemma SameMultiset(a: seq<nat>, b: seq<nat>)
    requires multiset(a) == multiset(b) && NoDup(a)
    ensures NoDup(b) && forall x :: x in a <==> x in b
  {
    NoDupMultiset(a);
    forall i, j | 0 <= i < j < |b| ensures b[i] != b[j] {
      var front, rest := b[..j], b[j..];
      assert b == front + rest;
      assert multiset(b) == multiset(front) + multiset(rest);
      assert b[i] == front[i] && b[i] in multiset(front);
      assert b[j] == rest[0] && b[j] in multiset(rest);
      assert multiset(b)[b[i]] <= 1;
    }
    assert forall x :: x in a <==> x in multiset(a);
    assert forall x :: x in b <==> x in multiset(b);
  }

  /** Reference counts and free sets are a function of the two entry maps. */
  lemma MapsDeterminePools(c: Config, s: State, t: State)
    requires Ledger(c, s, multiset{}) && Ledger(c, t, multiset{})
    requires t.entries == s.entries && t.temps == s.temps
    ensures t.refs == s.refs
    ensures forall g :: 0 <= g < Groups(c) ==> multiset(t.free[g]) == multiset(s.free[g]) && |t.free[g]| == |s.free[g]|
  {
    forall g | 0 <= g < Groups(c)
      ensures t.refs[g] == s.refs[g] && multiset(t.free[g]) == multiset(s.free[g]) && |t.free[g]| == |s.free[g]|
    {
      assert PoolOk(s.free[g], s.refs[g], c.numBlocks) && PoolOk(t.free[g], t.refs[g], c.numBlocks);
      forall b | 0 <= b < c.numBlocks ensures t.refs[g][b] == s.refs[g][b] {}
      SameMembersSameMultiset(t.free[g], s.free[g]);
      assert |multiset(t.free[g])| == |t.free[g]| && |multiset(s.free[g])| == |s.free[g]|;
    }
  }
}
