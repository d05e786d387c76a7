/** What the conventional manager's operations do to its state, and when they keep the counts exact. */
module V1Spec {
  import opened Results
  import opened KVState
  import opened V1State
  import opened V1Swap
  import opened V1Moves

  // ---------------------------------------------------------------- append

  /** append_slots returns, rather than raising, exactly in these states. */
  ghost predicate CanAppend(m: Blocks, id: int, logicalBlocks: nat) {
    && id in m.tables
    && var t := m.tables[id];
       if |t| < logicalBlocks then |t| == logicalBlocks - 1 && m.gpu.free != []
       else t != [] && t[|t| - 1].device == GPU && (Refs(m, t[|t| - 1]) == 1 || m.gpu.free != [])
  }

  /** A new block, the last block in place, or a copy of a shared last block. */
  ghost predicate Appended(s: Blocks, t: Blocks, id: int, logicalBlocks: nat, copies: seq<(nat, nat)>) {
    && id in s.tables
    && var table := s.tables[id];
       if |table| < logicalBlocks then
         && s.gpu.free != [] && s.gpu.free[0] < |s.gpu.refs| && copies == []
         && t == s.(gpu := Take(s.gpu), tables := s.tables[id := table + [Ref(GPU, s.gpu.free[0])]])
       else
         && table != []
         && var last := table[|table| - 1];
            if Refs(s, last) == 1 then t == s && copies == []
            else
              && last.device == GPU && s.gpu.free != [] && s.gpu.free[0] < |s.gpu.refs| && last.number < |s.gpu.refs|
              && var new' := s.gpu.free[0];
                 && Take(s.gpu).refs[last.number] > 0 && copies == [(last.number, new')]
                 && t == s.(gpu := Release(Take(s.gpu), last.number),
                            tables := s.tables[id := table[|table| - 1 := Ref(GPU, new')]])
  }

  /** The table matches the logical blocks: it lacks only the newest, or ends in a GPU block. */
  ghost predicate TableFits(m: Blocks, id: int, logicalBlocks: nat) {
    && id in m.tables
    && var t := m.tables[id];
       if |t| < logicalBlocks then |t| == logicalBlocks - 1 else t != [] && t[|t| - 1].device == GPU
  }

  /** Which exception append_slots raises when it does. */
  ghost function AppendError(m: Blocks, id: int, logicalBlocks: nat): Error {
    if id !in m.tables then KeyError
    else if |m.tables[id]| >= logicalBlocks && m.tables[id] == [] then IndexError
    else if !TableFits(m, id, logicalBlocks) then AssertionError
    else ValueError
  }

  lemma GrowKeepsInvariant(s: Blocks, id: int)
    requires Invariant(s) && id in s.tables && s.gpu.free != []
    ensures s.gpu.free[0] < |s.gpu.refs|
    ensures Invariant(s.(gpu := Take(s.gpu), tables := s.tables[id := s.tables[id] + [Ref(GPU, s.gpu.free[0])]]))
  {
    hide Consistent;
    TakeStep(s, multiset{}, GPU);
    var d := Ref(GPU, s.gpu.free[0]);
    UnreferencedIsNowhere(s, multiset{}, d, id);
    assert multiset{} + multiset{d} == multiset{d};
    PushStep(s.(gpu := Take(s.gpu)), multiset{}, id, d);
  }

  lemma CopyKeepsInvariant(s: Blocks, id: int)
    requires Invariant(s) && id in s.tables && s.tables[id] != [] && s.gpu.free != []
    requires s.tables[id][|s.tables[id]| - 1].device == GPU
    ensures s.gpu.free[0] < |s.gpu.refs|
    ensures var last := s.tables[id][|s.tables[id]| - 1];
            && last.number < |s.gpu.refs| && Take(s.gpu).refs[last.number] > 0
            && Invariant(s.(gpu := Release(Take(s.gpu), last.number),
                            tables := s.tables[id := s.tables[id][|s.tables[id]| - 1 := Ref(GPU, s.gpu.free[0])]]))
  {
    hide Consistent;
    TakeStep(s, multiset{}, GPU);
    var i, d := |s.tables[id]| - 1, Ref(GPU, s.gpu.free[0]);
    var last := s.tables[id][i];
    UnreferencedIsNowhere(s, multiset{}, d, id);
    HeldIsReferenced(s, multiset{}, id, i);
    var v := s.(gpu := Take(s.gpu));
    assert multiset{} + multiset{d} == multiset{d} && multiset{} + multiset{last} == multiset{last};
    ReplaceStep(v, multiset{}, id, i, d);
    ReleaseStep(v.(tables := v.tables[id := v.tables[id][i := d]]), multiset{}, last);
  }

  lemma AppendKeepsInvariant(s: Blocks, t: Blocks, id: int, logicalBlocks: nat, copies: seq<(nat, nat)>)
    requires Invariant(s) && Appended(s, t, id, logicalBlocks, copies)
    ensures Invariant(t) && |t.gpu.free| + 1 >= |s.gpu.free|
  {
    hide Invariant;
    if |s.tables[id]| < logicalBlocks {
      GrowKeepsInvariant(s, id);
    } else if Refs(s, s.tables[id][|s.tables[id]| - 1]) != 1 {
      CopyKeepsInvariant(s, id);
    }
  }

  // ---------------------------------------------------------------- fork and free

  /** Forking keeps the counts exact precisely when the child had no blocks to forget. */
  lemma ForkKeepsInvariant(s: Blocks, v: Blocks, parent: int, child: int)
    requires parent in s.tables && v.tables == s.tables
    requires TableOk(v, s.tables[parent]) && Consistent(v, multiset{} + multiset(s.tables[parent]))
    ensures Invariant(v.(tables := v.tables[child := s.tables[parent]])) <==> child !in s.tables || s.tables[child] == []
  {
    var t := s.tables[parent];
    var n := v.(tables := v.tables[child := t]);
    hide PoolOk;
    assert AllTablesOk(n) by { assert TableOk(n, t); }
    forall q | Known(n, q)
      ensures Refs(n, q) == |HoldersOf(n.tables, q)| + multiset{}[q] <==> child !in v.tables || q !in v.tables[child]
    {
      HoldersAfter(v.tables, child, t, q);
      OnceInTable(t, q);
    }
    if child in v.tables && v.tables[child] != [] {
      var q := v.tables[child][0];
      assert TableOk(v, v.tables[child]) && q in v.tables[child] && Known(n, q);
    }
  }

  // ---------------------------------------------------------------- allocate

  /** The table of the first n free GPU blocks. */
  ghost function FirstBlocks(p: Pool, n: nat): Table
    requires n <= |p.free|
  {
    seq(n, i requires 0 <= i < n => Ref(GPU, p.free[i]))
  }

  /** Every waiting sequence gets the same table; every block gets the count of the whole group. */
  ghost predicate Allocated(s: Blocks, t: Blocks, waiting: seq<int>, numSeqs: nat, n: nat) {
    && n <= |s.gpu.free| && t.cpu == s.cpu && t.gpu.free == s.gpu.free[n..] && |t.gpu.refs| == |s.gpu.refs|
    && (forall b :: 0 <= b < |s.gpu.refs| ==> t.gpu.refs[b] == if b in s.gpu.free[..n] then numSeqs else s.gpu.refs[b])
    && t.tables.Keys == s.tables.Keys + (set id | id in waiting)
    && (forall id :: id in s.tables && id !in waiting ==> t.tables[id] == s.tables[id])
    && forall id :: id in waiting ==> id in t.tables && t.tables[id] == FirstBlocks(s.gpu, n)
  }

  /** Every block that was free has the count of the whole group; an allocation that fails leaves it so. */
  ghost predicate AllCounted(p: Pool, q: Pool, numSeqs: nat) {
    |q.refs| == |p.refs| && forall b :: 0 <= b < |p.refs| ==> q.refs[b] == if b in p.free then numSeqs else p.refs[b]
  }

  /** A failed allocation loses every block that was free. */
  lemma FailedAllocation(s: Blocks, t: Blocks, numSeqs: nat)
    requires Invariant(s) && t.tables == s.tables && t.cpu == s.cpu && t.gpu.free == [] && AllCounted(s.gpu, t.gpu, numSeqs)
    ensures Invariant(t) <==> s.gpu.free == []
  {
    if s.gpu.free == [] {
      assert t.gpu.refs == s.gpu.refs;
    } else {
      var b := s.gpu.free[0];
      assert b in s.gpu.free;
      var r := Ref(GPU, b);
      assert Refs(s, r) == 0 && Known(s, r) && Known(t, r) && Refs(t, r) == numSeqs;
      hide PoolOk, AllTablesOk;
      assert |HoldersOf(s.tables, r)| == 0;
      NeedsToBeFree(t.gpu, b);
    }
  }

  lemma NeedsToBeFree(p: Pool, b: nat)
    requires b < |p.refs|
    ensures Good(p) && p.refs[b] == 0 ==> b in p.free
  {
  }

  lemma InFirst(p: Pool, n: nat, r: Ref)
    requires n <= |p.free|
    ensures r in FirstBlocks(p, n) <==> r.device == GPU && r.number in p.free[..n]
  {
    if r in FirstBlocks(p, n) {
      var i :| 0 <= i < n && FirstBlocks(p, n)[i] == r;
      assert p.free[..n][i] == r.number;
    }
    if r.device == GPU && r.number in p.free[..n] {
      var i :| 0 <= i < n && p.free[..n][i] == r.number;
      assert FirstBlocks(p, n)[i] == r;
    }
  }

  lemma AllocatedHolders(s: Blocks, t: Blocks, waiting: seq<int>, numSeqs: nat, n: nat, r: Ref)
    requires Invariant(s) && Allocated(s, t, waiting, numSeqs, n) && NoDup(waiting) && Known(s, r)
    requires forall id :: id in waiting ==> id !in s.tables
    ensures r.device == GPU && r.number in s.gpu.free[..n] ==> |HoldersOf(t.tables, r)| == |waiting|
    ensures !(r.device == GPU && r.number in s.gpu.free[..n]) ==> HoldersOf(t.tables, r) == HoldersOf(s.tables, r)
  {
    InFirst(s.gpu, n, r);
    if r.device == GPU && r.number in s.gpu.free[..n] {
      assert Refs(s, r) == 0 by {
        var i :| 0 <= i < n && s.gpu.free[..n][i] == r.number;
        assert s.gpu.free[i] in s.gpu.free;
      }
      hide Consistent, PoolOk;
      forall id | id in s.tables ensures r !in s.tables[id] { UnreferencedIsNowhere(s, multiset{}, r, id) by { assert Invariant(s); } }
      var all := set id | id in waiting;
      forall id ensures id in HoldersOf(t.tables, r) <==> id in all {
        if id in s.tables && id !in waiting { assert t.tables[id] == s.tables[id]; }
      }
      assert HoldersOf(t.tables, r) == all;
      DistinctSize(waiting);
    } else {
      hide Consistent;
      forall id ensures id in HoldersOf(t.tables, r) <==> id in HoldersOf(s.tables, r) {}
    }
  }

  lemma FirstBlocksOk(s: Blocks, t: Blocks, n: nat)
    requires Good(s.gpu) && n <= |s.gpu.free| && |t.gpu.refs| == |s.gpu.refs|
    ensures TableOk(t, FirstBlocks(s.gpu, n))
  {
    forall i | 0 <= i < n ensures s.gpu.free[i] < |s.gpu.refs| { assert s.gpu.free[i] in s.gpu.free; }
  }

  lemma RestGood(p: Pool, q: Pool, n: nat, count: nat)
    requires Good(p) && n <= |p.free| && q.free == p.free[n..] && |q.refs| == |p.refs| && (n > 0 ==> count > 0)
    requires forall b :: 0 <= b < |p.refs| ==> q.refs[b] == if b in p.free[..n] then count else p.refs[b]
    ensures Good(q)
  {
    assert p.free == p.free[..n] + p.free[n..];
    forall b | b in q.free ensures b < |q.refs| && q.refs[b] == 0 {
      var i :| 0 <= i < |q.free| && q.free[i] == b;
      assert p.free[n + i] == b && b in p.free;
      assert b !in p.free[..n] by {
        assert forall j :: 0 <= j < n ==> p.free[j] != p.free[n + i];
      }
    }
    forall b | 0 <= b < |q.refs| && q.refs[b] == 0 ensures b in q.free {
      assert b in p.free;
      assert n == 0 ==> b !in p.free[..n];
    }
  }

  /** Allocation keeps the counts exact precisely when the whole group is waiting, or there is nothing to allocate. */
  lemma AllocateKeepsInvariant(s: Blocks, t: Blocks, waiting: seq<int>, numSeqs: nat, n: nat)
    requires Invariant(s) && Allocated(s, t, waiting, numSeqs, n) && NoDup(waiting) && waiting != []
    requires forall id :: id in waiting ==> id !in s.tables
    ensures Invariant(t) <==> numSeqs == |waiting| || n == 0
  {
    FirstBlocksOk(s, t, n);
    forall r | Known(s, r)
      ensures r.device == GPU && r.number in s.gpu.free[..n] ==> |HoldersOf(t.tables, r)| == |waiting|
      ensures !(r.device == GPU && r.number in s.gpu.free[..n]) ==> HoldersOf(t.tables, r) == HoldersOf(s.tables, r)
    {
      AllocatedHolders(s, t, waiting, numSeqs, n, r);
    }
    if numSeqs == |waiting| || n == 0 {
      RestGood(s.gpu, t.gpu, n, numSeqs);
      AllocatedTables(s, t, waiting, numSeqs, n);
      hide PoolOk, HoldersOf, AllTablesOk;
      forall r | Known(t, r) ensures Refs(t, r) == |HoldersOf(t.tables, r)| + multiset{}[r] { assert Known(s, r); }
    } else {
      var r := Ref(GPU, s.gpu.free[0]);
      assert s.gpu.free[0] in s.gpu.free && s.gpu.free[..n][0] == r.number;
      assert Known(s, r) && Known(t, r) && Refs(t, r) == numSeqs;
    }
  }

  lemma AllocatedTables(s: Blocks, t: Blocks, waiting: seq<int>, numSeqs: nat, n: nat)
    requires AllTablesOk(s) && Allocated(s, t, waiting, numSeqs, n) && TableOk(t, FirstBlocks(s.gpu, n))
    ensures AllTablesOk(t)
  {
    forall id | id in t.tables ensures TableOk(t, t.tables[id]) {
      if id !in waiting { assert TableOk(s, s.tables[id]); }
    }
  }

  // ---------------------------------------------------------------- after a swap in

  /** A run of appends, one per sequence. */
  ghost predicate AppendRun(run: seq<Blocks>, ids: seq<int>, logicalBlocks: map<int, nat>) {
    && 0 < |run| <= |ids| + 1 && Invariant(run[0])
    && forall i :: 0 <= i < |run| - 1 ==>
         ids[i] in logicalBlocks && AppendedSomehow(run[i], run[i + 1], ids[i], logicalBlocks[ids[i]])
  }

  ghost predicate AppendedSomehow(s: Blocks, t: Blocks, id: int, logicalBlocks: nat) {
    exists copies :: Appended(s, t, id, logicalBlocks, copies)
  }

  lemma {:induction false} AppendRunFree(run: seq<Blocks>, ids: seq<int>, logicalBlocks: map<int, nat>, n: nat)
    requires AppendRun(run, ids, logicalBlocks) && n < |run|
    ensures Invariant(run[n]) && |run[n].gpu.free| + n >= |run[0].gpu.free|
  {
    hide Invariant, Appended;
    if n > 0 {
      AppendRunFree(run, ids, logicalBlocks, n - 1);
      assert AppendedSomehow(run[n - 1], run[n - 1 + 1], ids[n - 1], logicalBlocks[ids[n - 1]]);
      var copies :| Appended(run[n - 1], run[n], ids[n - 1], logicalBlocks[ids[n - 1]], copies);
      AppendKeepsInvariant(run[n - 1], run[n], ids[n - 1], logicalBlocks[ids[n - 1]], copies);
    }
  }

  /** An append changes no other sequence's table. */
  lemma OthersTables(s: Blocks, t: Blocks, id: int, logicalBlocks: nat, other: int)
    requires AppendedSomehow(s, t, id, logicalBlocks) && other != id
    ensures other in s.tables <==> other in t.tables
    ensures other in s.tables ==> t.tables[other] == s.tables[other]
  {
  }

  lemma {:induction false} TableStays(run: seq<Blocks>, ids: seq<int>, logicalBlocks: map<int, nat>, n: nat, i: nat)
    requires AppendRun(run, ids, logicalBlocks) && NoDup(ids) && n < |run| && n <= i < |ids| && ids[i] in run[0].tables
    ensures ids[i] in run[n].tables && run[n].tables[ids[i]] == run[0].tables[ids[i]]
  {
    hide Invariant, Appended;
    if n > 0 {
      TableStays(run, ids, logicalBlocks, n - 1, i);
      assert AppendedSomehow(run[n - 1], run[n - 1 + 1], ids[n - 1], logicalBlocks[ids[n - 1]]);
      OthersTables(run[n - 1], run[n], ids[n - 1], logicalBlocks[ids[n - 1]], ids[i]);
    }
  }

  /**
   can_append_slots says yes when there is a free block per running sequence. Then one
   append per sequence, in any order and whatever they share, never raises: however far
   the appends get, the next one finds a table that fits, as at the start, and a block.
   */
  lemma AppendsNeverRaise(run: seq<Blocks>, ids: seq<int>, logicalBlocks: map<int, nat>)
    requires AppendRun(run, ids, logicalBlocks) && NoDup(ids) && |run| <= |ids| <= |run[0].gpu.free|
    requires forall i :: 0 <= i < |ids| ==> ids[i] in logicalBlocks && TableFits(run[0], ids[i], logicalBlocks[ids[i]])
    ensures CanAppend(run[|run| - 1], ids[|run| - 1], logicalBlocks[ids[|run| - 1]])
  {
    hide Invariant;
    var n := |run| - 1;
    assert TableFits(run[0], ids[n], logicalBlocks[ids[n]]);
    AppendRunFree(run, ids, logicalBlocks, n);
    TableStays(run, ids, logicalBlocks, n, n);
  }

  /**
   can_swap_in asks for a free block per swapped sequence on top of the blocks of all the
   unfinished sequences, so the swap in fits and after it one append per sequence never
   finds the GPU pool empty.
   */
  lemma SwapInReserves(s: Blocks, t: Blocks, swapped: seq<int>, unfinished: seq<int>, mu: map<nat, nat>, watermark: nat,
                       run: seq<Blocks>, logicalBlocks: map<int, nat>)
    requires forall i :: 0 <= i < |swapped| ==> swapped[i] in unfinished
    requires |s.gpu.free| - (|BlocksOf(s.tables, unfinished)| + |swapped|) >= watermark
    requires Transferred(s, t, swapped, CPU, GPU, mu)
    requires AppendRun(run, swapped, logicalBlocks) && run[0] == t && |run| <= |swapped|
    ensures |BlocksOf(s.tables, swapped)| <= |s.gpu.free| && run[|run| - 1].gpu.free != []
  {
    hide Invariant, Appended, MappedTable, Injective;
    FewerBlocks(s.tables, swapped, unfinished);
    SourceCount(mu, CPU);
    assert SourceRefs(mu, CPU) <= BlocksOf(s.tables, swapped);
    SubsetSize(SourceRefs(mu, CPU), BlocksOf(s.tables, swapped));
    AppendRunFree(run, swapped, logicalBlocks, |run| - 1);
  }

  lemma FewerBlocks(tables: map<int, Table>, some: seq<int>, all: seq<int>)
    requires forall i :: 0 <= i < |some| ==> some[i] in all
    ensures |BlocksOf(tables, some)| <= |BlocksOf(tables, all)|
  {
    forall r | r in BlocksOf(tables, some) ensures r in BlocksOf(tables, all) {
      var id, i := BlockFrom(tables, some, r);
      BlockIn(tables, all, id, i);
    }
    SubsetSize(BlocksOf(tables, some), BlocksOf(tables, all));
  }
}
