/**
 The conventional manager over a memory: with the block copies and moves that its operations
 ask for, every sequence reads its own tokens through its own table.
 */
module V1Memory {
  import opened Arithmetic
  import opened KVState
  import opened V1State
  import opened V1Swap
  import opened V1Spec
  import K = KVMemory

  type Token = K.Token

  /** Contents by physical block and offset in the block. */
  type Memory = (Ref, int) -> Token

  /** Tokens per block. */
  type BlockSize = b: nat | b > 0 witness 1

  /** Whole-block copies on the GPU, in order: each from its first to its second block. */
  ghost function ApplyCopies(mem: Memory, copies: seq<(nat, nat)>): Memory {
    if copies == [] then mem else
    var before, last := ApplyCopies(mem, copies[..|copies| - 1]), copies[|copies| - 1];
    (r, o) => if r == Ref(GPU, last.1) then before(Ref(GPU, last.0), o) else before(r, o)
  }

  ghost function Write(mem: Memory, r: Ref, o: int, token: Token): Memory {
    (q, p) => if q == r && p == o then token else mem(q, p)
  }

  /** The contents of every mapped block are on the other device, and nothing else changed. */
  ghost predicate Moved(mem: Memory, mem': Memory, src: Device, dst: Device, mu: map<nat, nat>) {
    && (forall b, o :: b in mu ==> mem'(Ref(dst, mu[b]), o) == mem(Ref(src, b), o))
    && forall r, o :: (forall b :: b in mu ==> r != Ref(dst, mu[b])) ==> mem'(r, o) == mem(r, o)
  }

  datatype World = World(m: Blocks, mem: Memory, toks: map<int, seq<Token>>)

  /** The table reads the tokens, each at its block and offset, and has no block to spare. */
  ghost predicate Reads(b: BlockSize, t: Table, mem: Memory, toks: seq<Token>) {
    && Covers(b, |t|, |toks|)
    && forall tau: nat :: tau < |toks| ==> tau / b < |t| && mem(t[tau / b], tau % b) == toks[tau]
  }

  ghost predicate Covers(b: BlockSize, blocks: nat, n: nat) {
    n <= blocks * b && (blocks > 0 ==> (blocks - 1) * b < n)
  }

  ghost predicate View(b: BlockSize, w: World) {
    && Invariant(w.m) && w.toks.Keys == w.m.tables.Keys
    && forall id :: id in w.m.tables ==> Reads(b, w.m.tables[id], w.mem, w.toks[id])
  }

  // ---------------------------------------------------------------- operations

  datatype Op =
    | Allocate(waiting: seq<int>, numSeqs: nat, tokens: seq<Token>)
    | Append(id: int, token: Token)
    | Fork(parent: int, child: int)
    | Free(id: int)
    | Swap(ids: seq<int>, src: Device, dst: Device)

  /** Sequences as private token lists. */
  ghost function Reference(toks: map<int, seq<Token>>, op: Op): map<int, seq<Token>> {
    match op
    case Allocate(waiting, _, tokens) => toks + map id | id in waiting :: tokens
    case Append(id, token) => if id in toks then toks[id := toks[id] + [token]] else toks
    case Fork(parent, child) => if parent in toks then toks[child := toks[parent]] else toks
    case Free(id) => toks - {id}
    case Swap(_, _, _) => toks
  }

  /** The prefill writes the prompt into the new blocks and nowhere else. */
  ghost predicate Prefilled(b: BlockSize, t: Table, tokens: seq<Token>, mem: Memory, mem': Memory) {
    && (forall tau: nat :: tau < |tokens| ==> tau / b < |t| && mem'(t[tau / b], tau % b) == tokens[tau])
    && forall r, o :: r !in t ==> mem'(r, o) == mem(r, o)
  }

  /**
   One successful operation that keeps the counts exact, with its memory traffic: the
   copies of an append before the write of its token.
   */
  ghost predicate Step(b: BlockSize, w: World, w': World, op: Op) {
    && Invariant(w'.m) && w'.toks == Reference(w.toks, op)
    && match op
       case Allocate(waiting, numSeqs, tokens) =>
         var n := CeilDiv(|tokens|, b);
         && NoDup(waiting) && (forall id :: id in waiting ==> id !in w.m.tables)
         && Allocated(w.m, w'.m, waiting, numSeqs, n) && Prefilled(b, FirstBlocks(w.m.gpu, n), tokens, w.mem, w'.mem)
       case Append(id, token) =>
         && id in w.toks && CanAppend(w.m, id, CeilDiv(|w.toks[id]| + 1, b))
         && exists copies :: AppendTraffic(b, w, w', id, token, copies)
       case Fork(parent, child) =>
         && parent in w.m.tables && (child !in w.m.tables || w.m.tables[child] == []) && parent != child
         && w'.m.tables == w.m.tables[child := w.m.tables[parent]] && w'.mem == w.mem
       case Free(id) => w'.m.tables == w.m.tables - {id} && w'.mem == w.mem
       case Swap(ids, src, dst) =>
         && src != dst && OnDevice(w.m.tables, ids, src)
         && exists mu :: Transferred(w.m, w'.m, ids, src, dst, mu) && Moved(w.mem, w'.mem, src, dst, mu)
  }

  /** The returned copies are performed first, and the token is written to its place in the new table. */
  ghost predicate AppendTraffic(b: BlockSize, w: World, w': World, id: int, token: Token, copies: seq<(nat, nat)>) {
    && id in w.toks && id in w'.m.tables && |w.toks[id]| / b < |w'.m.tables[id]|
    && Appended(w.m, w'.m, id, CeilDiv(|w.toks[id]| + 1, b), copies)
    && w'.mem == Write(ApplyCopies(w.mem, copies), w'.m.tables[id][|w.toks[id]| / b], |w.toks[id]| % b, token)
  }

  // ---------------------------------------------------------------- append

  lemma CoveredBlocks(b: BlockSize, blocks: nat, n: nat)
    requires Covers(b, blocks, n)
    ensures CeilDiv(n + 1, b) == n / b + 1 && blocks <= n / b + 1 && (blocks < n / b + 1 ==> blocks == n / b && n % b == 0)
  {
    NextBlock(b, n);
    DivMod(b, n);
    hide CeilDiv;
    BlocksCovering(b, blocks, n / b, n % b);
  }

  lemma NextBlock(b: BlockSize, n: nat)
    ensures CeilDiv(n + 1, b) == n / b + 1
  {
    var q := n / b;
    assert n == q * b + n % b && (q + 1) * b == q * b + b;
    DivUnique(n + b, b, q + 1, n % b);
  }

  lemma DivMod(b: BlockSize, n: nat)
    ensures n == n / b * b + n % b && 0 <= n % b < b
  {
  }

  lemma BlocksCovering(b: BlockSize, blocks: nat, q: nat, r: nat)
    requires r < b && Covers(b, blocks, q * b + r)
    ensures blocks <= q + 1 && (blocks < q + 1 ==> blocks == q && r == 0)
  {
    assert (q + 1) * b == q * b + b;
    assert (blocks + 1) * b == blocks * b + b;
    if blocks > q + 1 { MulMono(q + 1, blocks - 1, b); }
    if blocks < q { MulMono(blocks + 1, q, b); }
  }

  lemma NowCovered(b: BlockSize, n: nat)
    ensures Covers(b, n / b + 1, n + 1)
  {
    var q := n / b;
    assert n == q * b + n % b && (q + 1) * b == q * b + b;
  }

  /** The block that an append writes to: it was free, or the sequence alone holds it. */
  lemma TargetIsOwn(s: Blocks, t: Blocks, id: int, logicalBlocks: nat, copies: seq<(nat, nat)>, other: int)
    requires Invariant(s) && Appended(s, t, id, logicalBlocks, copies) && other in s.tables
    ensures id in t.tables && t.tables[id] != []
    ensures var table, target := s.tables[id], t.tables[id][|t.tables[id]| - 1];
            && (other != id ==> target !in s.tables[other])
            && (other == id ==> forall j :: 0 <= j < |table| && j < |t.tables[id]| - 1 ==> table[j] != target)
  {
    var table, target := s.tables[id], t.tables[id][|t.tables[id]| - 1];
    assert TableOk(s, table);
    if |table| < logicalBlocks || Refs(s, table[|table| - 1]) != 1 {
      FreeIsUnreferenced(s);
      hide Consistent, Appended;
      UnreferencedIsNowhere(s, multiset{}, target, other);
    } else if other != id {
      OnlyHolder(s, id, other, target);
    }
  }

  lemma FreeIsUnreferenced(s: Blocks)
    requires Good(s.gpu) && s.gpu.free != []
    ensures Known(s, Ref(GPU, s.gpu.free[0])) && Refs(s, Ref(GPU, s.gpu.free[0])) == 0
  {
    assert s.gpu.free[0] in s.gpu.free;
  }

  lemma OnlyHolder(s: Blocks, id: int, other: int, r: Ref)
    requires Invariant(s) && id in s.tables && other in s.tables && other != id && r in s.tables[id] && Known(s, r) && Refs(s, r) == 1
    ensures r !in s.tables[other]
  {
    hide PoolOk, AllTablesOk;
    var holders := HoldersOf(s.tables, r);
    assert |holders| == 1 && id in holders;
    if r in s.tables[other] { assert {id, other} <= holders; SubsetSize({id, other}, holders); }
  }

  /** What the copies leave at each address: the target of a copy has the old last block's contents. */
  lemma CopiedTo(s: Blocks, t: Blocks, id: int, logicalBlocks: nat, copies: seq<(nat, nat)>, mem: Memory, r: Ref, o: int)
    requires Appended(s, t, id, logicalBlocks, copies)
    ensures ApplyCopies(mem, copies)(r, o) ==
            if |s.tables[id]| >= logicalBlocks && r == t.tables[id][|t.tables[id]| - 1]
            then mem(s.tables[id][|s.tables[id]| - 1], o) else mem(r, o)
  {
    if copies != [] { assert copies[..0] == []; }
  }

  /** Everything but the tail of the sequence stays where it was. */
  lemma AppendedShape(s: Blocks, t: Blocks, id: int, logicalBlocks: nat, copies: seq<(nat, nat)>)
    requires Appended(s, t, id, logicalBlocks, copies)
    ensures id in s.tables && id in t.tables && t.tables.Keys == s.tables.Keys
    ensures forall other :: other in s.tables && other != id ==> t.tables[other] == s.tables[other]
    ensures |t.tables[id]| == |s.tables[id]| + if |s.tables[id]| < logicalBlocks then 1 else 0
    ensures forall j :: 0 <= j < |s.tables[id]| && j < |t.tables[id]| - 1 ==> t.tables[id][j] == s.tables[id][j]
  {
  }

  /** The copies carry each old entry's contents to the entry that replaces it. */
  ghost predicate Carried(t: Table, t': Table, mem: Memory, copied: Memory) {
    |t| <= |t'| && forall j: nat, o: int :: j < |t| ==> copied(t'[j], o) == mem(t[j], o)
  }

  lemma OwnCarried(s: Blocks, t: Blocks, id: int, logicalBlocks: nat, copies: seq<(nat, nat)>, mem: Memory)
    requires Invariant(s) && Appended(s, t, id, logicalBlocks, copies)
    ensures id in s.tables && id in t.tables && Carried(s.tables[id], t.tables[id], mem, ApplyCopies(mem, copies))
  {
    AppendedShape(s, t, id, logicalBlocks, copies);
    TargetIsOwn(s, t, id, logicalBlocks, copies, id);
    hide Invariant, Appended, ApplyCopies;
    var copied := ApplyCopies(mem, copies);
    forall j: nat, o: int | j < |s.tables[id]| ensures copied(t.tables[id][j], o) == mem(s.tables[id][j], o) {
      CopiedTo(s, t, id, logicalBlocks, copies, mem, t.tables[id][j], o);
    }
  }

  lemma OwnReads(b: BlockSize, t: Table, t': Table, mem: Memory, copied: Memory, toks: seq<Token>, token: Token)
    requires Reads(b, t, mem, toks) && Carried(t, t', mem, copied) && |t'| == |toks| / b + 1
    requires forall j :: 0 <= j < |t'| - 1 ==> t'[j] != t'[|t'| - 1]
    ensures Reads(b, t', Write(copied, t'[|t'| - 1], |toks| % b, token), toks + [token])
  {
    var n, mem' := |toks|, Write(copied, t'[|t'| - 1], |toks| % b, token);
    NowCovered(b, n);
    forall tau: nat | tau < n + 1 ensures tau / b < |t'| && mem'(t'[tau / b], tau % b) == (toks + [token])[tau] {
      OwnReadsAt(b, t, t', mem, copied, toks, token, tau);
    }
    hide Write, Carried;
  }

  lemma OwnReadsAt(b: BlockSize, t: Table, t': Table, mem: Memory, copied: Memory, toks: seq<Token>, token: Token, tau: nat)
    requires Reads(b, t, mem, toks) && Carried(t, t', mem, copied) && |t'| == |toks| / b + 1 && tau < |toks| + 1
    requires forall j :: 0 <= j < |t'| - 1 ==> t'[j] != t'[|t'| - 1]
    ensures tau / b < |t'|
    ensures Write(copied, t'[|t'| - 1], |toks| % b, token)(t'[tau / b], tau % b) == (toks + [token])[tau]
  {
    SameOrEarlier(b, tau, |toks|);
    if tau < |toks| { ReadsAt(b, t, mem, toks, tau); }
    var j, o, last, at := tau / b, tau % b, |t'| - 1, |toks| % b;
    hide Reads, Covers;
    if tau < |toks| { assert copied(t'[j], o) == mem(t[j], o); }
    assert Write(copied, t'[last], at, token)(t'[j], o) == if t'[j] == t'[last] && o == at then token else copied(t'[j], o);
  }

  lemma ReadsAt(b: BlockSize, t: Table, mem: Memory, toks: seq<Token>, tau: nat)
    requires Reads(b, t, mem, toks) && tau < |toks|
    ensures tau / b < |t| && mem(t[tau / b], tau % b) == toks[tau]
  {
    hide Covers;
  }

  lemma OtherReads(b: BlockSize, u: Table, mem: Memory, copied: Memory, target: Ref, offset: int, toks: seq<Token>, token: Token)
    requires Reads(b, u, mem, toks) && target !in u && forall r, o :: r != target ==> copied(r, o) == mem(r, o)
    ensures Reads(b, u, Write(copied, target, offset, token), toks)
  {
    hide Covers;
    assert forall tau: nat :: tau < |toks| ==> u[tau / b] in u;
  }

  lemma AppendReads(b: BlockSize, w: World, w': World, id: int, token: Token, copies: seq<(nat, nat)>, other: int)
    requires View(b, w) && AppendTraffic(b, w, w', id, token, copies) && other in w.m.tables
    requires CanAppend(w.m, id, CeilDiv(|w.toks[id]| + 1, b))
    ensures other in w'.m.tables
    ensures Reads(b, w'.m.tables[other], w'.mem, if other == id then w.toks[id] + [token] else w.toks[other])
  {
    var n, logical := |w.toks[id]|, CeilDiv(|w.toks[id]| + 1, b);
    AppendedShape(w.m, w'.m, id, logical, copies);
    TableOf(b, w, id);
    TableOf(b, w, other);
    CoveredBlocks(b, |w.m.tables[id]|, n);
    hide View, Reads, Appended, CeilDiv, ApplyCopies, Covers, Carried, Write, Invariant, CanAppend;
    TargetIsOwn(w.m, w'.m, id, logical, copies, other);
    var t', copied := w'.m.tables[id], ApplyCopies(w.mem, copies);
    assert |t'| == n / b + 1;
    if other == id {
      OwnCarried(w.m, w'.m, id, logical, copies, w.mem);
      OwnReads(b, w.m.tables[id], t', w.mem, copied, w.toks[id], token);
    } else {
      forall r, o | r != t'[|t'| - 1] ensures copied(r, o) == w.mem(r, o) { CopiedTo(w.m, w'.m, id, logical, copies, w.mem, r, o); }
      OtherReads(b, w.m.tables[other], w.mem, copied, t'[|t'| - 1], n % b, w.toks[other], token);
    }
  }

  lemma TableOf(b: BlockSize, w: World, id: int)
    requires View(b, w) && id in w.m.tables
    ensures Invariant(w.m) && id in w.toks && Reads(b, w.m.tables[id], w.mem, w.toks[id])
    ensures Covers(b, |w.m.tables[id]|, |w.toks[id]|)
  {
    hide Invariant, Covers;
  }

  /** An earlier token lies in an earlier block, or in the same one at another offset. */
  lemma SameOrEarlier(b: BlockSize, tau: nat, n: nat)
    requires tau < n + 1
    ensures tau / b <= n / b && (tau / b == n / b && tau % b == n % b ==> tau == n)
  {
    assert tau == (tau / b) * b + tau % b && n == (n / b) * b + n % b;
    assert (n / b + 1) * b == (n / b) * b + b;
    if tau / b > n / b { MulMono(n / b + 1, tau / b, b); }
  }

  // ---------------------------------------------------------------- the other operations

  lemma AllocateReads(b: BlockSize, w: World, w': World, op: Op, id: int)
    requires View(b, w) && Step(b, w, w', op) && op.Allocate? && id in w'.m.tables
    ensures id in w'.toks && Reads(b, w'.m.tables[id], w'.mem, w'.toks[id])
  {
    hide Invariant, Reads, CeilDiv;
    var n := CeilDiv(|op.tokens|, b);
    if id in op.waiting {
      PromptReads(b, FirstBlocks(w.m.gpu, n), op.tokens, w.mem, w'.mem);
    } else {
      TableOf(b, w, id);
      var t := w.m.tables[id];
      forall r | r in t ensures r !in FirstBlocks(w.m.gpu, n) { NotTaken(w.m, id, n, r); }
      SameBlocksRead(b, t, w.mem, w'.mem, w.toks[id]);
    }
  }

  lemma PromptReads(b: BlockSize, t: Table, tokens: seq<Token>, mem: Memory, mem': Memory)
    requires Prefilled(b, t, tokens, mem, mem') && |t| == CeilDiv(|tokens|, b)
    ensures Reads(b, t, mem', tokens)
  {
    CeilDivBounds(|tokens|, b);
    hide CeilDiv;
  }

  lemma SameBlocksRead(b: BlockSize, t: Table, mem: Memory, mem': Memory, toks: seq<Token>)
    requires Reads(b, t, mem, toks) && forall r, o :: r in t ==> mem'(r, o) == mem(r, o)
    ensures Reads(b, t, mem', toks)
  {
    hide Covers;
    assert forall tau: nat :: tau < |toks| ==> t[tau / b] in t;
  }

  lemma NotTaken(s: Blocks, id: int, n: nat, r: Ref)
    requires Invariant(s) && id in s.tables && r in s.tables[id] && n <= |s.gpu.free|
    ensures r !in FirstBlocks(s.gpu, n)
  {
    InFirst(s.gpu, n, r);
    if r in FirstBlocks(s.gpu, n) {
      assert s.gpu.free[..n] <= s.gpu.free;
      assert r.number in s.gpu.free;
      var i :| 0 <= i < |s.tables[id]| && s.tables[id][i] == r;
      HeldIsReferenced(s, multiset{}, id, i);
    }
  }

  lemma MappedReads(b: BlockSize, t: Table, t': Table, mem: Memory, mem': Memory, src: Device, dst: Device, mu: map<nat, nat>,
                    toks: seq<Token>)
    requires Reads(b, t, mem, toks) && MappedTable(mu, src, dst, t, t') && Moved(mem, mem', src, dst, mu)
    ensures Reads(b, t', mem', toks)
  {
    forall tau: nat | tau < |toks| ensures tau / b < |t'| && mem'(t'[tau / b], tau % b) == toks[tau] {
      ReadsAt(b, t, mem, toks, tau);
      MappedAt(t, t', mem, mem', src, dst, mu, tau / b, tau % b);
    }
    hide MappedTable, Moved, Covers;
  }

  lemma MappedAt(t: Table, t': Table, mem: Memory, mem': Memory, src: Device, dst: Device, mu: map<nat, nat>, j: nat, o: int)
    requires MappedTable(mu, src, dst, t, t') && Moved(mem, mem', src, dst, mu) && j < |t|
    ensures mem'(t'[j], o) == mem(t[j], o)
  {
    assert t[j] == Ref(src, t[j].number);
  }

  lemma SwapReads(b: BlockSize, w: World, w': World, ids: seq<int>, src: Device, dst: Device, mu: map<nat, nat>, id: int)
    requires View(b, w) && Transferred(w.m, w'.m, ids, src, dst, mu) && Moved(w.mem, w'.mem, src, dst, mu)
    requires w'.toks == w.toks && id in w.m.tables
    ensures id in w'.m.tables && id in w'.toks && Reads(b, w'.m.tables[id], w'.mem, w'.toks[id])
  {
    hide Invariant, Reads, MappedTable, Injective;
    TableOf(b, w, id);
    var t := w.m.tables[id];
    if id in ids {
      MappedReads(b, t, w'.m.tables[id], w.mem, w'.mem, src, dst, mu, w.toks[id]);
    } else {
      forall r, o | r in t ensures w'.mem(r, o) == w.mem(r, o) {
        forall c | c in mu ensures r != Ref(dst, mu[c]) { NotTarget(w.m, w'.m, ids, src, dst, mu, id, c, r); }
      }
      SameBlocksRead(b, t, w.mem, w'.mem, w.toks[id]);
    }
  }

  lemma NotTarget(s: Blocks, t: Blocks, ids: seq<int>, src: Device, dst: Device, mu: map<nat, nat>, id: int, c: nat, r: Ref)
    requires Invariant(s) && Transferred(s, t, ids, src, dst, mu) && id in s.tables && r in s.tables[id] && c in mu
    ensures r != Ref(dst, mu[c])
  {
    hide Consistent, MappedTable, Injective;
    UnreferencedIsNowhere(s, multiset{}, Ref(dst, mu[c]), id);
  }

  // ---------------------------------------------------------------- steps and runs

  /**
   Copy-on-write refines private sequences in the conventional manager too: after every
   operation and its traffic, each sequence reads its own tokens through its table.
   */
  lemma StepReads(b: BlockSize, w: World, w': World, op: Op)
    requires View(b, w) && Step(b, w, w', op)
    ensures View(b, w')
  {
    hide Reads, Invariant, CanAppend;
    if op.Append? {
      AppendKeepsView(b, w, w', op);
    } else if op.Swap? {
      SwapKeepsView(b, w, w', op);
    } else {
      forall id | id in w'.m.tables ensures id in w'.toks && Reads(b, w'.m.tables[id], w'.mem, w'.toks[id]) {
        if op.Allocate? { AllocateReads(b, w, w', op, id); }
      }
    }
  }

  lemma AppendKeepsView(b: BlockSize, w: World, w': World, op: Op)
    requires View(b, w) && Step(b, w, w', op) && op.Append?
    ensures View(b, w')
  {
    hide Reads, Invariant, CanAppend, AppendTraffic;
    var copies :| AppendTraffic(b, w, w', op.id, op.token, copies);
    TrafficShape(b, w, w', op.id, op.token, copies);
    forall other | other in w'.m.tables ensures other in w'.toks && Reads(b, w'.m.tables[other], w'.mem, w'.toks[other]) {
      AppendReads(b, w, w', op.id, op.token, copies, other);
    }
  }

  lemma TrafficShape(b: BlockSize, w: World, w': World, id: int, token: Token, copies: seq<(nat, nat)>)
    requires AppendTraffic(b, w, w', id, token, copies)
    ensures id in w.toks && id in w.m.tables && w'.m.tables.Keys == w.m.tables.Keys
  {
    hide Appended, ApplyCopies;
    AppendedShape(w.m, w'.m, id, CeilDiv(|w.toks[id]| + 1, b), copies);
  }

  lemma SwapKeepsView(b: BlockSize, w: World, w': World, op: Op)
    requires View(b, w) && Step(b, w, w', op) && op.Swap?
    ensures View(b, w')
  {
    hide Reads, Invariant, MappedTable, Injective, Moved;
    var mu :| Transferred(w.m, w'.m, op.ids, op.src, op.dst, mu) && Moved(w.mem, w'.mem, op.src, op.dst, mu);
    forall id | id in w'.m.tables ensures id in w'.toks && Reads(b, w'.m.tables[id], w'.mem, w'.toks[id]) {
      SwapReads(b, w, w', op.ids, op.src, op.dst, mu, id);
    }
  }

  ghost predicate IsRun(b: BlockSize, ws: seq<World>, ops: seq<Op>) {
    && |ws| == |ops| + 1 && Invariant(ws[0].m) && ws[0].m.tables == map[] && ws[0].toks == map[]
    && forall i :: 0 <= i < |ops| ==> Step(b, ws[i], ws[i + 1], ops[i])
  }

  ghost function ReferenceRun(ops: seq<Op>): map<int, seq<Token>> {
    if ops == [] then map[] else Reference(ReferenceRun(ops[..|ops| - 1]), ops[|ops| - 1])
  }

  /** At every point of every run from the empty manager, each sequence reads its own token list. */
  lemma {:induction false} RunReads(b: BlockSize, ws: seq<World>, ops: seq<Op>, n: nat)
    requires IsRun(b, ws, ops) && n <= |ops|
    ensures View(b, ws[n]) && ws[n].toks == ReferenceRun(ops[..n])
  {
    hide Invariant, Reads, Reference;
    if n > 0 {
      RunReads(b, ws, ops, n - 1);
      assert Step(b, ws[n - 1], ws[n - 1 + 1], ops[n - 1]);
      StepReads(b, ws[n - 1], ws[n], ops[n - 1]);
      assert ops[..n][..n - 1] == ops[..n - 1];
    }
  }
}
