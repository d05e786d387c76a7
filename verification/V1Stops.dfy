/** Where a swap of the conventional manager stops when the destination runs out, and what it leaves behind. */
module V1Stops {
  import opened Results
  import opened KVState
  import opened V1State
  import opened V1Swap
  import opened V1Moves

  // ---------------------------------------------------------------- when the destination runs out

  /**
   The move stopped at entry i of the n-th sequence, with no block left at the
   destination. The sequences before it have moved. Its own table was not replaced yet,
   although the counts are already those of the half-moved table in v.
   */
  ghost predicate StoppedAt(s: Blocks, t: Blocks, ids: seq<int>, src: Device, dst: Device, n: nat, i: nat, v: Blocks, mu: map<nat, nat>) {
    && n < |ids| && ids[n] in s.tables && i < |s.tables[ids[n]]| && ids[n] in v.tables
    && Consistent(v, multiset{}) && Moving(s, v, ids, src, dst, mu) && MovedUpTo(s, v, ids, n, src, dst, mu, {ids[n]})
    && HalfMoved(mu, src, dst, s.tables[ids[n]], v.tables[ids[n]], i) && PoolOn(v, dst).free == []
    && s.tables[ids[n]][i].number !in mu
    && t == v.(tables := v.tables[ids[n] := s.tables[ids[n]]])
  }

  ghost predicate Stopped(s: Blocks, t: Blocks, ids: seq<int>, src: Device, dst: Device) {
    exists n: nat, i: nat, v: Blocks, mu: map<nat, nat> :: StoppedAt(s, t, ids, src, dst, n, i, v, mu)
  }

  /** The counts match the tables precisely when it stopped at the first entry of a sequence. */
  lemma ExactAtFirstEntry(s: Blocks, t: Blocks, ids: seq<int>, src: Device, dst: Device, n: nat, i: nat, v: Blocks, mu: map<nat, nat>)
    requires Invariant(s) && src != dst && OnDevice(s.tables, ids, src) && StoppedAt(s, t, ids, src, dst, n, i, v, mu)
    ensures Invariant(t) <==> i == 0
  {
    hide Invariant, Moving, MovedUpTo, Consistent;
    var id := ids[n];
    if i == 0 {
      assert v.tables[id] == s.tables[id];
      assert t == v;
      assert Invariant(v) by { IsInvariant(v); }
    } else {
      var q := v.tables[id][0];
      assert q in v.tables[id] && q.device == dst;
      forall r | r in s.tables[id] ensures r != q {
        var j :| 0 <= j < |s.tables[id]| && s.tables[id][j] == r;
        SourceDevice(s.tables, ids, src, id, j);
      }
      LostHolder(v, t, id, s.tables[id], q);
    }
  }

  lemma IsInvariant(v: Blocks)
    requires Consistent(v, multiset{})
    ensures Invariant(v)
  {
    hide Consistent;
  }

  /** Taking a block out of a table without dropping the reference breaks the count. */
  lemma LostHolder(v: Blocks, t: Blocks, id: int, table: Table, q: Ref)
    requires Consistent(v, multiset{}) && id in v.tables && q in v.tables[id] && q !in table && t == v.(tables := v.tables[id := table])
    ensures !Invariant(t)
  {
    hide PoolOk;
    HoldersAfter(v.tables, id, table, q);
    assert TableOk(v, v.tables[id]);
    assert Known(v, q) && Known(t, q) && Refs(t, q) == Refs(v, q);
    assert id in HoldersOf(v.tables, q);
  }

  // ---------------------------------------------------------------- the place is determined by the state before

  /** The blocks of the first n listed tables and of the first i entries of the next. */
  ghost function UsedBefore(tables: map<int, Table>, ids: seq<int>, n: nat, i: nat): set<Ref>
    requires n < |ids| && ids[n] in tables && i <= |tables[ids[n]]|
  {
    BlocksOf(tables, ids[..n]) + set j | 0 <= j < i :: tables[ids[n]][j]
  }

  /** The blocks before entry i of table n are as many as the destination has free, and the entry is none of them. */
  ghost predicate RunsOutAt(s: Blocks, ids: seq<int>, dst: Device, n: nat, i: nat) {
    && n < |ids| && ids[n] in s.tables && i < |s.tables[ids[n]]|
    && |UsedBefore(s.tables, ids, n, i)| == |PoolOn(s, dst).free| && s.tables[ids[n]][i] !in UsedBefore(s.tables, ids, n, i)
  }

  /** Whatever comes before the stop is mapped. */
  lemma UsedIsMapped(s: Blocks, t: Blocks, ids: seq<int>, src: Device, dst: Device, n: nat, i: nat, v: Blocks, mu: map<nat, nat>, r: Ref)
    requires StoppedAt(s, t, ids, src, dst, n, i, v, mu) && r in UsedBefore(s.tables, ids, n, i)
    ensures r.device == src && r.number in mu
  {
    hide Consistent, Moving;
    if r in BlocksOf(s.tables, ids[..n]) {
      var id, j := BlockFrom(s.tables, ids[..n], r);
      var k :| 0 <= k < n && ids[..n][k] == id;
      assert MappedTable(mu, src, dst, s.tables[ids[k]], v.tables[ids[k]]);
    }
  }

  /** Whatever is mapped comes before the stop: its new block was free and has a holder now. */
  lemma MappedIsUsed(s: Blocks, t: Blocks, ids: seq<int>, src: Device, dst: Device, n: nat, i: nat, v: Blocks, mu: map<nat, nat>, b: nat)
    requires Invariant(s) && OnDevice(s.tables, ids, src) && src != dst
    requires StoppedAt(s, t, ids, src, dst, n, i, v, mu) && b in mu
    ensures Ref(src, b) in UsedBefore(s.tables, ids, n, i)
  {
    var q := Ref(dst, mu[b]);
    var id := NewHolder(s, v, ids, src, dst, mu, b);
    UnreferencedIsNowhere(s, multiset{}, q, id);
    var j :| 0 <= j < |v.tables[id]| && v.tables[id][j] == q;
    hide Consistent, Sources, Targets, NothingLost, HalfMoved, MappedTable, Injective, BlocksOf, OnDevice;
    assert Injective(mu);
    if id == ids[n] {
      NewEntry(mu, src, dst, s.tables[id], v.tables[id], i, j, b);
    } else {
      assert id in ids[..n];
      var k :| 0 <= k < n && ids[..n][k] == id;
      MappedEntry(mu, src, dst, s.tables[id], v.tables[id], j, b);
      BlockIn(s.tables, ids[..n], id, j);
    }
  }

  /** An entry that names a new block was moved. */
  lemma MappedEntry(mu: map<nat, nat>, src: Device, dst: Device, before: Table, now: Table, j: nat, b: nat)
    requires MappedTable(mu, src, dst, before, now) && Injective(mu) && j < |now| && b in mu && now[j] == Ref(dst, mu[b])
    ensures |before| == |now| && before[j] == Ref(src, b)
  {
    assert mu[before[j].number] == mu[b];
  }

  /** Within the table in progress, it is one of the first i. */
  lemma NewEntry(mu: map<nat, nat>, src: Device, dst: Device, before: Table, now: Table, i: nat, j: nat, b: nat)
    requires HalfMoved(mu, src, dst, before, now, i) && Injective(mu) && j < |now| && now[j] !in before && b in mu && now[j] == Ref(dst, mu[b])
    ensures |before| == |now| && j < i && before[j] == Ref(src, b)
  {
    assert j < i ==> mu[before[j].number] == mu[b];
  }

  lemma NewHolder(s: Blocks, v: Blocks, ids: seq<int>, src: Device, dst: Device, mu: map<nat, nat>, b: nat) returns (id: int)
    requires Moving(s, v, ids, src, dst, mu) && Consistent(v, multiset{}) && b in mu
    ensures id in v.tables && id in s.tables && Ref(dst, mu[b]) in v.tables[id]
    ensures Known(s, Ref(dst, mu[b])) && Refs(s, Ref(dst, mu[b])) == 0
  {
    hide PoolOk, AllTablesOk, Sources, NothingLost, Injective;
    var q := Ref(dst, mu[b]);
    assert Known(v, q) && Refs(v, q) > 0;
    assert multiset{}[q] == 0;
    assert |HoldersOf(v.tables, q)| > 0;
    var holders := HoldersOf(v.tables, q);
    assert (forall h :: h !in holders) ==> holders == {};
    id :| id in holders;
  }

  /** A swap that stops does so where the state before it says. */
  lemma StopsWhereItRunsOut(s: Blocks, t: Blocks, ids: seq<int>, src: Device, dst: Device, n: nat, i: nat, v: Blocks, mu: map<nat, nat>)
    requires Invariant(s) && OnDevice(s.tables, ids, src) && src != dst && StoppedAt(s, t, ids, src, dst, n, i, v, mu)
    ensures RunsOutAt(s, ids, dst, n, i)
  {
    var used := UsedBefore(s.tables, ids, n, i);
    forall r ensures r in used <==> r in SourceRefs(mu, src) {
      if r in used { UsedIsMapped(s, t, ids, src, dst, n, i, v, mu, r); }
      if r in SourceRefs(mu, src) { MappedIsUsed(s, t, ids, src, dst, n, i, v, mu, r.number); }
    }
    assert used == SourceRefs(mu, src);
    SourceCount(mu, src);
    hide UsedBefore, OnDevice, Consistent, MovedUpTo, HalfMoved, Injective, Sources, Targets, NothingLost;
  }

  /** There is only one such place. */
  lemma RunsOutOnce(s: Blocks, ids: seq<int>, dst: Device, n: nat, i: nat, n': nat, i': nat)
    requires RunsOutAt(s, ids, dst, n, i) && RunsOutAt(s, ids, dst, n', i')
    ensures n == n' && i == i'
  {
    hide RunsOutAt;
    if n < n' || (n == n' && i < i') { NotLater(s, ids, dst, n, i, n', i'); }
    if n' < n || (n == n' && i' < i) { NotLater(s, ids, dst, n', i', n, i); }
  }

  lemma NotLater(s: Blocks, ids: seq<int>, dst: Device, n: nat, i: nat, n': nat, i': nat)
    requires RunsOutAt(s, ids, dst, n, i) && (n < n' || (n == n' && i < i'))
    ensures !RunsOutAt(s, ids, dst, n', i')
  {
    if n' < |ids| && ids[n'] in s.tables && i' < |s.tables[ids[n']]| {
      var here, there := UsedBefore(s.tables, ids, n, i) + {s.tables[ids[n]][i]}, UsedBefore(s.tables, ids, n', i');
      forall r | r in here ensures r in there { UsedLater(s.tables, ids, n, i, n', i', r); }
      SubsetSize(here, there);
    }
  }

  lemma UsedLater(tables: map<int, Table>, ids: seq<int>, n: nat, i: nat, n': nat, i': nat, r: Ref)
    requires n < |ids| && ids[n] in tables && i < |tables[ids[n]]| && n' < |ids| && ids[n'] in tables && i' < |tables[ids[n']]|
    requires n < n' || (n == n' && i < i')
    requires r in UsedBefore(tables, ids, n, i) || r == tables[ids[n]][i]
    ensures r in UsedBefore(tables, ids, n', i')
  {
    if r in BlocksOf(tables, ids[..n]) {
      var id, j := BlockFrom(tables, ids[..n], r);
      var k :| 0 <= k < n && ids[..n][k] == id;
      assert ids[..n'][k] == id;
      BlockIn(tables, ids[..n'], id, j);
    } else {
      var j :| 0 <= j <= i && tables[ids[n]][j] == r;
      if n < n' {
        assert ids[..n'][n] == ids[n];
        BlockIn(tables, ids[..n'], ids[n], j);
      }
    }
  }

  /** The destination runs out exactly between two sequences: at the first entry of one of them. */
  ghost predicate RunsOutBetween(s: Blocks, ids: seq<int>, dst: Device) {
    exists n: nat :: n < |ids| && ids[n] in s.tables && s.tables[ids[n]] != []
      && |BlocksOf(s.tables, ids[..n])| == |PoolOn(s, dst).free| && s.tables[ids[n]][0] !in BlocksOf(s.tables, ids[..n])
  }

  /**
   Nothing is rolled back. Whether the counts still match the tables after a swap that
   stopped depends on the state before alone: they do exactly if some of the listed
   sequences, from the first one on, use up the destination between them and the next
   sequence starts with another block.
   */
  lemma StoppedKeepsInvariant(s: Blocks, t: Blocks, ids: seq<int>, src: Device, dst: Device)
    requires Invariant(s) && src != dst && OnDevice(s.tables, ids, src) && Stopped(s, t, ids, src, dst)
    ensures Invariant(t) <==> RunsOutBetween(s, ids, dst)
  {
    hide Invariant, StoppedAt, RunsOutAt;
    var n: nat, i: nat, v: Blocks, mu: map<nat, nat> :| StoppedAt(s, t, ids, src, dst, n, i, v, mu);
    ExactAtFirstEntry(s, t, ids, src, dst, n, i, v, mu);
    StopsWhereItRunsOut(s, t, ids, src, dst, n, i, v, mu);
    FirstEntries(s, ids, dst);
    if RunsOutBetween(s, ids, dst) {
      var n': nat :| RunsOutAt(s, ids, dst, n', 0);
      RunsOutOnce(s, ids, dst, n, i, n', 0);
    }
  }

  lemma FirstEntries(s: Blocks, ids: seq<int>, dst: Device)
    ensures RunsOutBetween(s, ids, dst) <==> exists n: nat :: RunsOutAt(s, ids, dst, n, 0)
  {
    forall n: nat | n < |ids| && ids[n] in s.tables && s.tables[ids[n]] != []
      ensures UsedBefore(s.tables, ids, n, 0) == BlocksOf(s.tables, ids[..n])
    {
      NothingOfIt(s.tables, ids, n);
    }
    hide BlocksOf, UsedBefore;
    if RunsOutBetween(s, ids, dst) {
      var n: nat :| n < |ids| && ids[n] in s.tables && s.tables[ids[n]] != []
        && |BlocksOf(s.tables, ids[..n])| == |PoolOn(s, dst).free| && s.tables[ids[n]][0] !in BlocksOf(s.tables, ids[..n]);
      assert RunsOutAt(s, ids, dst, n, 0);
    }
    if n: nat :| RunsOutAt(s, ids, dst, n, 0) {
      assert n < |ids| && ids[n] in s.tables && s.tables[ids[n]] != [];
    }
  }

  lemma NothingOfIt(tables: map<int, Table>, ids: seq<int>, n: nat)
    requires n < |ids| && ids[n] in tables
    ensures UsedBefore(tables, ids, n, 0) == BlocksOf(tables, ids[..n])
  {
  }

  // ---------------------------------------------------------------- every way a swap ends

  /**
   It succeeds exactly if all the sequences have tables and their distinct blocks fit. A
   sequence without a table stops it with a KeyError once those before it have moved. If
   the destination runs out before that, it is a ValueError.
   */
  ghost predicate Swapped(s: Blocks, t: Blocks, ids: seq<int>, src: Device, dst: Device, r: Result<map<nat, nat>>, mu: map<nat, nat>) {
    var known := Leading(s.tables, ids);
    var fits := |BlocksOf(s.tables, known)| <= |PoolOn(s, dst).free|;
    && (r.Ok? <==> fits && known == ids)
    && (fits ==> Transferred(s, t, known, src, dst, mu))
    && (r.Err? ==> r.error == if fits then KeyError else ValueError)
    && (!fits ==> Stopped(s, t, known, src, dst))
  }
}
