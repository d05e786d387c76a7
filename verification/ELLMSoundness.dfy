/** The block manager's tests against its operations: when a yes means the operation cannot raise. */
module ELLMSoundness {
  import opened Arithmetic
  import opened KVState
  import opened KVSpec
  import opened KVAppend
  import opened KVSharing
  import opened KVRecompute
  import opened KVPlans
  import opened ELLMSwap
  import opened ELLMAdmission
  import opened ELLMBlockManager

  // ---------------------------------------------------------------- can_append_slots

  /** can_append_slots said yes to a group whose sequences grew by at most one token. */
  ghost predicate Admitted(c: Config, s: State, running: Group) {
    && Inv(c, s) && |s.free| == Groups(c) && DistinctIds(running)
    && (forall i :: 0 <= i < |running| ==>
          Countable(c, s, running[i]) && running[i].len <= s.lens[running[i].id] + 1)
    && forall g :: 0 <= g < Groups(c) ==> |s.free[g]| >= CountSum(c, s, running, g)
  }

  /** The sequences of the group that grew, each once, in whatever order they are appended to. */
  ghost predicate GrownOnce(s: State, running: Group, order: seq<int>) {
    && NoDup(order)
    && forall j :: 0 <= j < |order| ==> order[j] in s.lens && Grew(s, running, order[j])
  }

  ghost predicate Grew(s: State, running: Group, id: int) {
    exists i :: 0 <= i < |running| && running[i].id == id && id in s.lens && running[i].len == s.lens[id] + 1
  }

  /** However far the appends get, the next one cannot raise. */
  ghost predicate NeverRaises(c: Config, s: State, order: seq<int>) {
    forall run :: AppendRun(c, run, order) && run[0] == s && |run| <= |order|
                  ==> CanAppend(c, run[|run| - 1], order[|run| - 1])
  }

  ghost predicate AdmissionSound(c: Config) {
    forall s, running, order :: Admitted(c, s, running) && GrownOnce(s, running, order) ==> NeverRaises(c, s, order)
  }

  lemma NextIsFirstInBlock(c: Config, n: nat)
    requires c.blockSize >= 2
    ensures (n + 1) % c.blockSize == 1 <==> Aligned(c, n)
  {
    var b := c.blockSize;
    assert n == (n / b) * b + n % b;
    if n % b < b - 1 {
      DivUnique(n + 1, b, n / b, n % b + 1);
    } else {
      assert (n / b + 1) * b == (n / b) * b + b;
      DivUnique(n + 1, b, n / b + 1, 0);
    }
  }

  /** For one more token the manager counts exactly the groups in which the append takes a block. */
  lemma CountedIsNeeded(c: Config, s: State, q: Seq, g: nat)
    requires c.blockSize >= 2 && q.id in s.lens && q.len == s.lens[q.id] + 1 && g < Groups(c)
    requires PoolSizes(c, s) && InRange(c, s.entries)
    ensures Counted(c, s, q, g) <==> NeedsBlock(c, s, q.id, g)
  {
    hide WholeBlocks, PoolSizes, InRange, Groups;
    NextIsFirstInBlock(c, s.lens[q.id]);
    hide Aligned;
    AlignedNeeds(c, s, q.id, g);
  }

  lemma AlignedNeeds(c: Config, s: State, id: int, g: nat)
    requires id in s.lens && g < Groups(c) && PoolSizes(c, s) && InRange(c, s.entries)
    ensures Aligned(c, s.lens[id]) ==> NeedsBlock(c, s, id, g)
  {
  }

  ghost function NeedSet(c: Config, s: State, ids: seq<int>, g: nat): set<int>
    requires g < Groups(c) && PoolSizes(c, s) && InRange(c, s.entries)
  {
    set id | id in ids && id in s.lens && NeedsBlock(c, s, id, g)
  }

  ghost function CountSet(c: Config, s: State, seqs: Group, g: nat): set<int>
    requires g < Groups(c)
  {
    set i | 0 <= i < |seqs| && Counted(c, s, seqs[i], g) :: seqs[i].id
  }

  lemma NeedSetCons(c: Config, s: State, first: int, rest: seq<int>, g: nat)
    requires g < Groups(c) && PoolSizes(c, s) && InRange(c, s.entries)
    ensures NeedSet(c, s, [first] + rest, g)
            == NeedSet(c, s, rest, g) + if first in s.lens && NeedsBlock(c, s, first, g) then {first} else {}
  {
    hide NeedsBlock, Groups, PoolSizes, InRange;
  }

  lemma {:induction false} NeedIsSize(c: Config, s: State, ids: seq<int>, g: nat)
    requires NoDup(ids) && g < Groups(c) && PoolSizes(c, s) && InRange(c, s.entries)
    ensures AppendNeed(c, s, ids, g) == |NeedSet(c, s, ids, g)|
  {
    hide NeedsBlock, Groups, PoolSizes, InRange;
    if ids == [] {
      assert NeedSet(c, s, ids, g) == {};
    } else {
      var rest := ids[1..];
      assert ids == [ids[0]] + rest && ids[0] !in rest;
      NeedIsSize(c, s, rest, g);
      NeedSetCons(c, s, ids[0], rest, g);
    }
  }

  lemma CountSetSnoc(c: Config, s: State, seqs: Group, g: nat, id: int)
    requires seqs != [] && g < Groups(c)
    ensures var n := |seqs| - 1;
            id in CountSet(c, s, seqs, g) <==>
            id in CountSet(c, s, seqs[..n], g) || (Counted(c, s, seqs[n], g) && id == seqs[n].id)
  {
    hide Counted, Groups;
    var n := |seqs| - 1;
    var front := seqs[..n];
    if id in CountSet(c, s, front, g) {
      var i :| 0 <= i < n && Counted(c, s, front[i], g) && front[i].id == id;
      assert Counted(c, s, seqs[i], g);
    }
    if id in CountSet(c, s, seqs, g) {
      var i :| 0 <= i <= n && Counted(c, s, seqs[i], g) && seqs[i].id == id;
      assert i < n ==> Counted(c, s, front[i], g);
    }
  }

  lemma LastNotBefore(c: Config, s: State, seqs: Group, g: nat)
    requires seqs != [] && DistinctIds(seqs) && g < Groups(c)
    ensures DistinctIds(seqs[..|seqs| - 1]) && seqs[|seqs| - 1].id !in CountSet(c, s, seqs[..|seqs| - 1], g)
  {
    hide Counted, Groups;
  }

  lemma {:induction false} CountIsSize(c: Config, s: State, seqs: Group, g: nat)
    requires DistinctIds(seqs) && g < Groups(c)
    ensures CountSum(c, s, seqs, g) == |CountSet(c, s, seqs, g)|
  {
    hide Counted, Groups;
    if seqs == [] {
      assert CountSet(c, s, seqs, g) == {};
    } else {
      var n := |seqs| - 1;
      var before := CountSet(c, s, seqs[..n], g);
      LastNotBefore(c, s, seqs, g);
      CountIsSize(c, s, seqs[..n], g);
      assert CountSet(c, s, seqs, g) == if Counted(c, s, seqs[n], g) then before + {seqs[n].id} else before by {
        hide CountSet;
        forall id { CountSetSnoc(c, s, seqs, g, id); }
      }
    }
  }

  /** The need of any order of the grown sequences is within the manager's count. */
  lemma CountCoversNeed(c: Config, s: State, running: Group, order: seq<int>, g: nat)
    requires c.blockSize >= 2 && Admitted(c, s, running) && GrownOnce(s, running, order) && g < Groups(c)
    requires PoolSizes(c, s) && InRange(c, s.entries)
    ensures AppendNeed(c, s, order, g) <= CountSum(c, s, running, g)
  {
    hide Inv, Counted, NeedsBlock, Groups, PoolSizes, InRange, Countable, CountSum, AppendNeed;
    NeedIsSize(c, s, order, g);
    CountIsSize(c, s, running, g);
    forall id | id in NeedSet(c, s, order, g) ensures id in CountSet(c, s, running, g) {
      assert Grew(s, running, id);
      var i :| 0 <= i < |running| && running[i].id == id && running[i].len == s.lens[id] + 1;
      CountedIsNeeded(c, s, running[i], g);
    }
    SubsetSize(NeedSet(c, s, order, g), CountSet(c, s, running, g));
  }

  lemma CountableIsRetained(c: Config, s: State, q: Seq)
    requires Inv(c, s) && c.blockSize >= 2 && Countable(c, s, q) && q.len == s.lens[q.id] + 1
    ensures TailRetained(c, s, q.id)
  {
    hide Inv, WholeBlocks;
    LiveIds(c, s);
    NextIsFirstInBlock(c, s.lens[q.id]);
  }

  lemma AdmittedHasRoom(c: Config, s: State, running: Group, order: seq<int>)
    requires c.blockSize >= 2 && Admitted(c, s, running) && GrownOnce(s, running, order)
    ensures Inv(c, s) && RoomToAppend(c, s, order)
  {
    hide Inv, Groups, PoolSizes, InRange, Countable, CountSum, AppendNeed, TailRetained;
    InvPools(c, s);
    forall j | 0 <= j < |order| ensures TailRetained(c, s, order[j]) {
      assert Grew(s, running, order[j]);
      var i :| 0 <= i < |running| && running[i].id == order[j] && running[i].len == s.lens[order[j]] + 1;
      CountableIsRetained(c, s, running[i]);
    }
    forall g | 0 <= g < Groups(c) ensures |s.free[g]| >= AppendNeed(c, s, order, g) {
      CountCoversNeed(c, s, running, order, g);
    }
  }

  lemma SoundFromTwo(c: Config, s: State, running: Group, order: seq<int>)
    requires c.blockSize >= 2 && Admitted(c, s, running) && GrownOnce(s, running, order)
    ensures NeverRaises(c, s, order)
  {
    hide Admitted, GrownOnce, Inv, RoomToAppend, CanAppend;
    AdmittedHasRoom(c, s, running, order);
    assert NoDup(order) by { OrderIsDistinct(s, running, order); }
    forall run | AppendRun(c, run, order) && run[0] == s && |run| <= |order|
      ensures CanAppend(c, run[|run| - 1], order[|run| - 1])
    {
      AppendsNeverRaise(c, run, order);
    }
  }

  lemma OrderIsDistinct(s: State, running: Group, order: seq<int>)
    requires GrownOnce(s, running, order)
    ensures NoDup(order)
  {
  }

  /** Block size one: a single sequence that fills every block of every group. */
  ghost function FullState(c: Config): State {
    State(seq<seq<nat>>(Groups(c), g => []),
          seq<seq<nat>>(Groups(c), g => seq<nat>(c.numBlocks, b => 1)),
          map k | k in Span(c, 0, 0, c.numBlocks) :: PermanentEntry(c, k, c.numBlocks, k.block),
          map[], map[0 := c.numBlocks], map[0 := 0])
  }

  lemma FullStateInv(c: Config)
    requires c.blockSize == 1
    ensures Inv(c, FullState(c))
  {
    var s := FullState(c);
    assert NumBlocks(c, c.numBlocks) == c.numBlocks;
    forall g, b | 0 <= g < Groups(c) && 0 <= b < c.numBlocks
      ensures s.refs[g][b] == |Holders(s.entries, g, b)| + |Holders(s.temps, g, b)| + multiset{}[(g, b)]
    {
      assert Key(0, b, g) in s.entries;
      assert Holders(s.entries, g, b) == {Key(0, b, g)};
      assert Holders(s.temps, g, b) == {};
    }
    assert Ledger(c, s, multiset{});
    assert TablesOk(c, s);
  }

  lemma OneCounted(c: Config, s: State, q: Seq, g: nat)
    requires c.blockSize == 1 && g < Groups(c)
    ensures CountSum(c, s, [q], g) == 0
  {
    NothingCounted(c, s);
    CountSnoc(c, s, [q], 0, g);
    assert [q][..0] == [] && [q][..1] == [q];
    hide NeedsBlock, PoolSizes, InRange, Groups, CountSum;
  }

  /** With one token per block the manager counts nothing for the new block. */
  lemma UnsoundAtOne(c: Config)
    requires c.blockSize == 1
    ensures !AdmissionSound(c)
  {
    var s, q := FullState(c), Seq(0, c.numBlocks + 1, RUNNING);
    FullStateInv(c);
    hide Inv;
    SomeGroup(c);
    InvPools(c, s);
    forall g | 0 <= g < Groups(c) ensures CountSum(c, s, [q], g) == 0 { OneCounted(c, s, q, g); }
    assert Admitted(c, s, [q]);
    assert [q][0].id == 0;
    assert GrownOnce(s, [q], [0]);
    var run := [s];
    assert AppendRun(c, run, [0]) && run[0] == s;
    assert NeedsBlock(c, s, 0, 0) && s.free[0] == [];
    assert !CanAppend(c, run[|run| - 1], [0][|run| - 1]);
  }

  /** can_append_slots is a sound admission test exactly for blocks of two tokens or more. */
  lemma AppendAdmission(c: Config)
    ensures AdmissionSound(c) <==> c.blockSize >= 2
  {
    hide Admitted, GrownOnce, NeverRaises;
    if c.blockSize >= 2 {
      forall s, running, order | Admitted(c, s, running) && GrownOnce(s, running, order)
        ensures NeverRaises(c, s, order)
      {
        SoundFromTwo(c, s, running, order);
      }
    } else {
      UnsoundAtOne(c);
    }
  }

  // ---------------------------------------------------------------- can_allocate

  /** can_allocate's OK, for new sequences of positive length, means allocate cannot raise. */
  lemma AllocateAdmission(c: Config, s: State, waiting: Group, watermark: nat)
    requires |s.free| == Groups(c)
    requires forall q :: q in waiting ==> q.id !in s.lens && q.len > 0
    requires forall g :: 0 <= g < Groups(c) ==> NeedSum(c, Requests(waiting)) + watermark <= |s.free[g]|
    ensures AllocatableAll(c, s, Requests(waiting))
  {
    hide Groups, NeedSum, NumBlocks, WholeBlocks, Aligned;
    RequestsAre(waiting);
    WholeZero(c);
  }

  // ---------------------------------------------------------------- eviction ratio

  /** The recomputed layers' share of n blocks, rounded down. */
  function Share(c: Config, n: nat, cached: nat): int
    requires cached <= c.numLayers
  {
    n * (c.numLayers - cached) / c.numLayers
  }

  lemma DivWithin(a: nat, n: nat, m: nat)
    requires m > 0 && a <= n * m
    ensures 0 <= a / m <= n
  {
    var q := a / m;
    assert a == q * m + a % m;
    assert (n + 1) * m == n * m + m;
    if q > n { MulMono(n + 1, q, m); }
  }

  /** What rounding a down leaves of n whole parts of size m is the rest rounded up. */
  lemma CeilRest(a: nat, b: nat, n: nat, m: nat)
    requires m > 0 && a + b == n * m
    ensures CeilDiv(b, m) == n - a / m
  {
    var q, r := a / m, a % m;
    assert a == q * m + r;
    assert (n - q) * m == n * m - q * m;
    DivUnique(b + m - 1, m, n - q, m - 1 - r);
  }

  /** Rounding k of m parts up is n less the other parts rounded down. */
  lemma CeilComplement(n: nat, k: nat, m: nat)
    requires m > 0 && k <= m
    ensures CeilDiv(n * k, m) == n - n * (m - k) / m
    ensures 0 <= n * (m - k) / m <= n
  {
    hide CeilDiv;
    MulMono(0, m - k, n);
    MulMono(0, k, n);
    assert n * (m - k) + n * k == n * m;
    DivWithin(n * (m - k), n, m);
    CeilRest(n * (m - k), n * k, n, m);
  }

  /**
   What is retained of n blocks: the fewest that make up the cached layers' share, and at
   least one; all of them if all layers may be cached, whatever number was asked for.
   */
  lemma RetainedShare(c: Config, n: nat, cached: int)
    requires n >= 1
    ensures EvictedBlocks(c, n, ClampLayers(c, cached)) < n
    ensures var kept := n - EvictedBlocks(c, n, ClampLayers(c, cached));
            && (cached <= 0 ==> kept == 1)
            && (cached >= c.numLayers ==> kept == n)
            && (0 <= cached <= c.numLayers ==> kept * c.numLayers >= n * cached && (kept == 1 || (kept - 1) * c.numLayers < n * cached))
  {
    var k, m := ClampLayers(c, cached), c.numLayers;
    MulMono(k, m, n);
    MulMono(0, k, n);
    assert n * k == k * n && n * m == m * n && n * 0 == 0;
    CeilDivBounds(n * k, m);
    hide CeilDiv;
    if CeilDiv(n * k, m) > n { MulMono(n, CeilDiv(n * k, m) - 1, m); }
    if cached >= m { AllLayers(n, m); }
    MulMono(1, if CeilDiv(n * k, m) < 1 then 1 else CeilDiv(n * k, m), m);
  }

  lemma AllLayers(n: nat, m: nat)
    requires m > 0
    ensures CeilDiv(n * m, m) == n
  {
    DivUnique(n * m + m - 1, m, n, m - 1);
  }

  /** The evicted share, without the ceiling: all but one block at most. */
  lemma EvictedShare(c: Config, n: nat, cached: nat)
    requires n >= 1 && cached <= c.numLayers
    ensures EvictedBlocks(c, n, cached) == if Share(c, n, cached) < n - 1 then Share(c, n, cached) else n - 1
  {
    hide CeilDiv;
    CeilComplement(n, cached, c.numLayers);
  }

  lemma DivMono(a: nat, b: nat, d: nat)
    requires a <= b && d > 0
    ensures a / d <= b / d
  {
    assert a == (a / d) * d + a % d && b == (b / d) * d + b % d;
    assert (b / d + 1) * d == (b / d) * d + d;
    if a / d > b / d { MulMono(b / d + 1, a / d, d); }
  }

  lemma ShareMono(c: Config, n: nat, n': nat, cached: nat, cached': nat)
    requires n <= n' && cached' <= cached <= c.numLayers
    ensures Share(c, n, cached) <= Share(c, n', cached')
  {
    var k, k' := c.numLayers - cached, c.numLayers - cached';
    MulMono(n, n', k);
    MulMono(k, k', n');
    assert n * k <= n' * k && n' * k == k * n' && k' * n' == n' * k';
    DivMono(n * k, n' * k', c.numLayers);
  }

  /** A longer sequence or a lower cached-layer setting never evicts less. */
  lemma EvictedMono(c: Config, n: nat, n': nat, cached: nat, cached': nat)
    requires 1 <= n <= n' && cached' <= cached <= c.numLayers
    ensures EvictedBlocks(c, n, cached) <= EvictedBlocks(c, n', cached')
  {
    hide EvictedBlocks, Share;
    EvictedShare(c, n, cached);
    EvictedShare(c, n', cached');
    ShareMono(c, n, n', cached, cached');
  }

  lemma LengthPositive(c: Config, s: State, id: int)
    requires Inv(c, s) && id in s.lens
    ensures s.lens[id] > 0 && NumBlocks(c, s.lens[id]) >= 1
  {
    hide Ledger, TempsOk, NumBlocks;
    assert s.lens[id] > 0;
    CeilDivBounds(s.lens[id], c.blockSize);
    NumBlocksIs(c, s.lens[id]);
  }

  lemma NumBlocksIs(c: Config, n: nat)
    ensures NumBlocks(c, n) == CeilDiv(n, c.blockSize)
  {
  }

  lemma QuotientAtLeast(m: nat, b: nat, e: nat)
    requires b > 0 && e * b <= m
    ensures e <= m / b
  {
    var q := m / b;
    assert m == q * b + m % b && (q + 1) * b == q * b + b;
    if q < e { MulMono(q + 1, e, b); }
  }

  /** Fewer blocks than the sequence has are whole blocks of it, before its newest token. */
  lemma EvictedFits(c: Config, n: nat, e: nat)
    requires n > 0 && e <= NumBlocks(c, n) - 1
    ensures ClampedBlocks(c, n, e * c.blockSize) == e && e <= (n - 1) / c.blockSize
  {
    var b, most := c.blockSize, NumBlocks(c, n) - 1;
    CeilDivBounds(n, b);
    MulMono(e, most, b);
    assert e * b < n;
    hide NumBlocks;
    DivUnique(e * b, b, e, 0);
    QuotientAtLeast(n - 1, b, e);
  }

  /** The prefix that evicting to the ratio asks for. */
  ghost function Asked(c: Config, n: nat, cached: int): nat {
    EvictedBlocks(c, NumBlocks(c, n), ClampLayers(c, cached))
  }

  /**
   Evicting to the ratio is accepted exactly when no more than the asked prefix is gone
   already, takes exactly that prefix and always leaves the newest block.
   */
  lemma RatioAccepted(c: Config, s: State, id: int, cached: int)
    requires Inv(c, s) && s.temps == map[] && id in s.lens && id in s.evicted
    ensures var e := Asked(c, s.lens[id], cached);
            && ClampedBlocks(c, s.lens[id], e * c.blockSize) == e && e <= (s.lens[id] - 1) / c.blockSize
            && (CanEvict(c, s, id, e * c.blockSize) <==> s.evicted[id] <= e)
  {
    LengthPositive(c, s, id);
    EvictedShare(c, NumBlocks(c, s.lens[id]), ClampLayers(c, cached));
    EvictedFits(c, s.lens[id], Asked(c, s.lens[id], cached));
    hide Inv, EvictedBlocks, NumBlocks;
  }

  /** A longer sequence or a lower setting never asks for less. */
  lemma AskedMono(c: Config, n: nat, n': nat, cached: int, cached': int)
    requires 0 < n <= n' && ClampLayers(c, cached') <= ClampLayers(c, cached)
    ensures Asked(c, n, cached) <= Asked(c, n', cached')
  {
    CeilDivBounds(n, c.blockSize);
    NumBlocksIs(c, n);
    NumBlocksIs(c, n');
    DivMono(n + c.blockSize - 1, n' + c.blockSize - 1, c.blockSize);
    EvictedMono(c, NumBlocks(c, n), NumBlocks(c, n'), ClampLayers(c, cached), ClampLayers(c, cached'));
    hide EvictedBlocks, ClampLayers;
  }
}
