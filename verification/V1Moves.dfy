/** One step of moving a table between devices, and the whole of it. */
module V1Moves {
  import opened KVState
  import opened V1State
  import opened V1Swap

  /** The mapped blocks are the group's. */
  ghost predicate Sources(s: Blocks, ids: seq<int>, src: Device, mu: map<nat, nat>) {
    forall b :: b in mu ==> Ref(src, b) in BlocksOf(s.tables, ids)
  }

  /** They are mapped to blocks that were free and are now referenced. */
  ghost predicate Targets(s: Blocks, v: Blocks, dst: Device, mu: map<nat, nat>) {
    forall b :: b in mu ==> Known(s, Ref(dst, mu[b])) && Refs(s, Ref(dst, mu[b])) == 0 && Refs(v, Ref(dst, mu[b])) > 0
  }

  ghost predicate NothingLost(s: Blocks, v: Blocks, dst: Device) {
    forall n: nat :: Refs(v, Ref(dst, n)) >= Refs(s, Ref(dst, n))
  }

  /**
   Halfway: mu maps some of the group's blocks, one to one, to blocks that were free and
   are now referenced; the destination device lost nothing else.
   */
  ghost predicate Moving(s: Blocks, v: Blocks, ids: seq<int>, src: Device, dst: Device, mu: map<nat, nat>) {
    && Injective(mu) && v.tables.Keys == s.tables.Keys
    && |v.gpu.refs| == |s.gpu.refs| && |v.cpu.refs| == |s.cpu.refs|
    && Sources(s, ids, src, mu) && Targets(s, v, dst, mu) && NothingLost(s, v, dst)
    && |PoolOn(s, dst).free| == |PoolOn(v, dst).free| + |mu|
  }

  /** The first i entries of one table are mapped, the others are as before. */
  ghost predicate HalfMoved(mu: map<nat, nat>, src: Device, dst: Device, before: Table, now: Table, i: nat) {
    && |now| == |before| && i <= |before|
    && (forall j :: 0 <= j < i ==> before[j].device == src && before[j].number in mu && now[j] == Ref(dst, mu[before[j].number]))
    && forall j :: i <= j < |before| ==> now[j] == before[j]
  }

  /** The first n sequences are moved; the others, but for the one in progress, are as before. */
  ghost predicate MovedUpTo(s: Blocks, v: Blocks, ids: seq<int>, n: nat, src: Device, dst: Device, mu: map<nat, nat>, current: set<int>)
    requires n <= |ids|
  {
    && v.tables.Keys == s.tables.Keys
    && (forall k :: 0 <= k < n ==> ids[k] in s.tables && MappedTable(mu, src, dst, s.tables[ids[k]], v.tables[ids[k]]))
    && forall id :: id in s.tables && id !in ids[..n] && id !in current ==> v.tables[id] == s.tables[id]
  }

  ghost predicate Extends(mu: map<nat, nat>, mu': map<nat, nat>) {
    forall b :: b in mu ==> b in mu' && mu'[b] == mu[b]
  }

  lemma MovedKept(s: Blocks, v: Blocks, w: Blocks, ids: seq<int>, n: nat, src: Device, dst: Device, mu: map<nat, nat>, mu': map<nat, nat>, id: int)
    requires n <= |ids| && MovedUpTo(s, v, ids, n, src, dst, mu, {id}) && Extends(mu, mu') && id !in ids[..n] && id in s.tables
    requires w.tables.Keys == v.tables.Keys && forall other :: other in v.tables && other != id ==> w.tables[other] == v.tables[other]
    ensures MovedUpTo(s, w, ids, n, src, dst, mu', {id})
  {
    forall k | 0 <= k < n ensures MappedTable(mu', src, dst, s.tables[ids[k]], w.tables[ids[k]]) {
      assert ids[k] == ids[..n][k];
      assert MappedTable(mu, src, dst, s.tables[ids[k]], v.tables[ids[k]]);
    }
  }

  lemma OneMoreMoved(s: Blocks, v: Blocks, ids: seq<int>, n: nat, src: Device, dst: Device, mu: map<nat, nat>)
    requires n < |ids| && ids[n] in s.tables && MovedUpTo(s, v, ids, n, src, dst, mu, {ids[n]})
    requires HalfMoved(mu, src, dst, s.tables[ids[n]], v.tables[ids[n]], |s.tables[ids[n]]|)
    ensures MovedUpTo(s, v, ids, n + 1, src, dst, mu, {})
  {
    assert ids[..n + 1] == ids[..n] + [ids[n]];
  }

  lemma NextSequence(s: Blocks, v: Blocks, ids: seq<int>, n: nat, src: Device, dst: Device, mu: map<nat, nat>)
    requires n < |ids| && NoDup(ids) && ids[n] in s.tables && MovedUpTo(s, v, ids, n, src, dst, mu, {})
    ensures MovedUpTo(s, v, ids, n, src, dst, mu, {ids[n]}) && HalfMoved(mu, src, dst, s.tables[ids[n]], v.tables[ids[n]], 0)
    ensures ids[n] !in ids[..n] && v.tables[ids[n]] == s.tables[ids[n]]
  {
    hide MappedTable;
    var id := ids[n];
    assert id !in ids[..n];
    assert v.tables[id] == s.tables[id];
  }

  /** The block that entry i is moved to is not in the table yet. */
  lemma NotThereYet(mu: map<nat, nat>, src: Device, dst: Device, before: Table, now: Table, i: nat)
    requires HalfMoved(mu, src, dst, before, now, i) && i < |before| && NoDup(before) && Injective(mu) && src != dst
    requires forall j :: 0 <= j < |before| ==> before[j].device == src
    requires before[i].number in mu
    ensures Ref(dst, mu[before[i].number]) !in now
  {
    forall j | 0 <= j < |now| ensures now[j] != Ref(dst, mu[before[i].number]) {
      if j < i { assert before[j] != before[i] && before[j].number != before[i].number; }
    }
  }

  ghost function Replaced(v: Blocks, id: int, i: nat, d: Ref): Blocks
    requires id in v.tables && i < |v.tables[id]|
  {
    v.(tables := v.tables[id := v.tables[id][i := d]])
  }

  /** The entry is now on block d and the old block has lost a reference. */
  lemma Settle(v: Blocks, id: int, i: nat, d: Ref)
    requires id in v.tables && i < |v.tables[id]| && Known(v, d) && d !in v.tables[id] && Consistent(v, multiset{d})
    ensures Known(v, v.tables[id][i]) && Refs(v, v.tables[id][i]) > 0
    ensures var r := v.tables[id][i];
            Consistent(WithPool(Replaced(v, id, i, d), r.device, Release(PoolOn(v, r.device), r.number)), multiset{})
  {
    hide Consistent;
    HeldIsReferenced(v, multiset{d}, id, i);
    var r := v.tables[id][i];
    assert multiset{} + multiset{d} == multiset{d} && multiset{} + multiset{r} == multiset{r};
    ReplaceStep(v, multiset{}, id, i, d);
    ReleaseStep(Replaced(v, id, i, d), multiset{}, r);
  }

  ghost function Freed(v: Blocks, r: Ref): Blocks
    requires Known(v, r) && Refs(v, r) > 0
  {
    WithPool(v, r.device, Release(PoolOn(v, r.device), r.number))
  }

  /** What moving one entry does to the half-moved state, once the destination block is referenced. */
  lemma MovedOne(s: Blocks, v: Blocks, v1: Blocks, ids: seq<int>, src: Device, dst: Device, mu: map<nat, nat>, mu': map<nat, nat>,
                 id: int, i: nat, d: nat)
    requires src != dst && OnDevice(s.tables, ids, src) && id in ids && id in s.tables && i < |s.tables[id]|
    requires Moving(s, v1, ids, src, dst, mu') && v1.tables == v.tables && id in v.tables && Extends(mu, mu')
    requires HalfMoved(mu, src, dst, s.tables[id], v.tables[id], i)
    requires s.tables[id][i].number in mu' && mu'[s.tables[id][i].number] == d
    requires Known(v1, s.tables[id][i]) && Refs(v1, s.tables[id][i]) > 0
    ensures i < |v1.tables[id]|
    ensures Moving(s, Freed(Replaced(v1, id, i, Ref(dst, d)), s.tables[id][i]), ids, src, dst, mu')
    ensures HalfMoved(mu', src, dst, s.tables[id], v1.tables[id][i := Ref(dst, d)], i + 1)
  {
    SourceDevice(s.tables, ids, src, id, i);
    hide OnDevice, Moving, HalfMoved, Refs, Known;
    HalfMovedMore(mu, mu', src, dst, s.tables[id], v.tables[id], i, d);
    FreedKeepsMoving(s, Replaced(v1, id, i, Ref(dst, d)), s.tables[id][i], ids, src, dst, mu') by {
      ReplacedKeepsMoving(s, v1, ids, src, dst, mu', id, i, Ref(dst, d), s.tables[id][i]);
    }
  }

  lemma SourceDevice(tables: map<int, Table>, ids: seq<int>, src: Device, id: int, i: nat)
    requires OnDevice(tables, ids, src) && id in ids && id in tables && i < |tables[id]|
    ensures tables[id][i].device == src
  {
    var k :| 0 <= k < |ids| && ids[k] == id;
    assert tables[id][i] in tables[ids[k]];
  }

  lemma HalfMovedMore(mu: map<nat, nat>, mu': map<nat, nat>, src: Device, dst: Device, before: Table, now: Table, i: nat, d: nat)
    requires HalfMoved(mu, src, dst, before, now, i) && i < |before| && Extends(mu, mu')
    requires before[i].device == src && before[i].number in mu' && mu'[before[i].number] == d
    ensures |now| == |before| && HalfMoved(mu', src, dst, before, now[i := Ref(dst, d)], i + 1)
  {
  }

  lemma ReplacedKeepsMoving(s: Blocks, v: Blocks, ids: seq<int>, src: Device, dst: Device, mu: map<nat, nat>, id: int, i: nat, d: Ref, r: Ref)
    requires Moving(s, v, ids, src, dst, mu) && id in v.tables && i < |v.tables[id]|
    ensures Moving(s, Replaced(v, id, i, d), ids, src, dst, mu)
    ensures Known(Replaced(v, id, i, d), r) == Known(v, r) && Refs(Replaced(v, id, i, d), r) == Refs(v, r)
  {
    hide Injective, Sources;
    forall q ensures Refs(Replaced(v, id, i, d), q) == Refs(v, q) {}
  }

  /** Freeing on the source device does not touch the destination. */
  lemma FreedKeepsMoving(s: Blocks, v: Blocks, r: Ref, ids: seq<int>, src: Device, dst: Device, mu: map<nat, nat>)
    requires Moving(s, v, ids, src, dst, mu) && r.device == src != dst && Known(v, r) && Refs(v, r) > 0
    ensures Moving(s, Freed(v, r), ids, src, dst, mu)
  {
    hide Injective, Sources;
    forall n: nat ensures Refs(Freed(v, r), Ref(dst, n)) == Refs(v, Ref(dst, n)) {}
  }

  /** Same block numbers on both devices. */
  ghost predicate SameSizes(v: Blocks, w: Blocks) {
    |w.gpu.refs| == |v.gpu.refs| && |w.cpu.refs| == |v.cpu.refs| && w.tables == v.tables
  }

  lemma TakeRefs(v: Blocks, dst: Device)
    requires PoolOn(v, dst).free != [] && PoolOn(v, dst).free[0] < |PoolOn(v, dst).refs|
    ensures var d := PoolOn(v, dst).free[0];
            var w := WithPool(v, dst, Take(PoolOn(v, dst)));
            && SameSizes(v, w) && |PoolOn(w, dst).free| + 1 == |PoolOn(v, dst).free|
            && Known(v, Ref(dst, d)) && Refs(v, Ref(dst, d)) == PoolOn(v, dst).refs[d]
            && forall r :: Refs(w, r) == if r == Ref(dst, d) then 1 else Refs(v, r)
  {
  }

  lemma RetainRefs(v: Blocks, dst: Device, d: nat)
    requires d < |PoolOn(v, dst).refs|
    ensures var w := WithPool(v, dst, Retain(PoolOn(v, dst), d));
            && SameSizes(v, w) && PoolOn(w, dst).free == PoolOn(v, dst).free
            && forall r :: Refs(w, r) == if r == Ref(dst, d) then Refs(v, r) + 1 else Refs(v, r)
  {
  }

  lemma TakenForOne(s: Blocks, v: Blocks, ids: seq<int>, src: Device, dst: Device, mu: map<nat, nat>, b: nat)
    requires Moving(s, v, ids, src, dst, mu) && Consistent(v, multiset{}) && PoolOn(v, dst).free != [] && b !in mu
    requires Ref(src, b) in BlocksOf(s.tables, ids)
    ensures var d := PoolOn(v, dst).free[0];
            && d < |PoolOn(v, dst).refs| && PoolOn(v, dst).refs[d] == 0
            && Moving(s, WithPool(v, dst, Take(PoolOn(v, dst))), ids, src, dst, mu[b := d])
            && Consistent(WithPool(v, dst, Take(PoolOn(v, dst))), multiset{Ref(dst, d)})
            && Known(v, Ref(dst, d)) && Refs(v, Ref(dst, d)) == 0
  {
    assert multiset{} + multiset{Ref(dst, PoolOn(v, dst).free[0])} == multiset{Ref(dst, PoolOn(v, dst).free[0])};
    hide Consistent, BlocksOf, Refs, Moving;
    TakeStep(v, multiset{}, dst);
    TakeRefs(v, dst);
    MovingMore(s, v, WithPool(v, dst, Take(PoolOn(v, dst))), ids, src, dst, mu, b, PoolOn(v, dst).free[0]);
  }

  lemma MovingMore(s: Blocks, v: Blocks, w: Blocks, ids: seq<int>, src: Device, dst: Device, mu: map<nat, nat>, b: nat, d: nat)
    requires Moving(s, v, ids, src, dst, mu) && b !in mu && Ref(src, b) in BlocksOf(s.tables, ids)
    requires SameSizes(v, w) && |PoolOn(w, dst).free| + 1 == |PoolOn(v, dst).free|
    requires Known(v, Ref(dst, d)) && Refs(v, Ref(dst, d)) == 0
    requires forall r :: Refs(w, r) == if r == Ref(dst, d) then 1 else Refs(v, r)
    ensures Moving(s, w, ids, src, dst, mu[b := d])
  {
    hide BlocksOf, Refs, Injective, Sources, Targets, NothingLost;
    TargetsMore(s, v, w, dst, mu, b, d);
    InjectiveMore(s, v, dst, mu, b, d);
    assert Sources(s, ids, src, mu[b := d]) by { SourcesMore(s, ids, src, mu, b, d); }
    assert NothingLost(s, w, dst) by { LostNothing(s, v, w, dst, d); }
  }

  lemma SourcesMore(s: Blocks, ids: seq<int>, src: Device, mu: map<nat, nat>, b: nat, d: nat)
    requires Sources(s, ids, src, mu) && Ref(src, b) in BlocksOf(s.tables, ids)
    ensures Sources(s, ids, src, mu[b := d])
  {
    hide BlocksOf;
  }

  lemma LostNothing(s: Blocks, v: Blocks, w: Blocks, dst: Device, d: nat)
    requires NothingLost(s, v, dst) && Refs(v, Ref(dst, d)) == 0
    requires forall r :: Refs(w, r) == if r == Ref(dst, d) then 1 else Refs(v, r)
    ensures NothingLost(s, w, dst)
  {
    hide Refs;
    forall n: nat ensures Refs(w, Ref(dst, n)) >= Refs(s, Ref(dst, n)) {
      assert Refs(v, Ref(dst, n)) >= Refs(s, Ref(dst, n));
    }
  }

  lemma InjectiveMore(s: Blocks, v: Blocks, dst: Device, mu: map<nat, nat>, b: nat, d: nat)
    requires Injective(mu) && Targets(s, v, dst, mu) && Refs(v, Ref(dst, d)) == 0
    ensures Injective(mu[b := d])
  {
    hide Refs, Known;
    forall a | a in mu ensures mu[a] != d { assert Refs(v, Ref(dst, mu[a])) > 0; }
  }

  lemma TargetsMore(s: Blocks, v: Blocks, w: Blocks, dst: Device, mu: map<nat, nat>, b: nat, d: nat)
    requires Targets(s, v, dst, mu) && NothingLost(s, v, dst) && Known(v, Ref(dst, d)) && Refs(v, Ref(dst, d)) == 0
    requires |v.gpu.refs| == |s.gpu.refs| && |v.cpu.refs| == |s.cpu.refs|
    requires forall r :: Refs(w, r) == if r == Ref(dst, d) then 1 else Refs(v, r)
    ensures Targets(s, w, dst, mu[b := d])
  {
    assert Known(s, Ref(dst, d));
    hide Refs, Known;
    assert Refs(s, Ref(dst, d)) == 0 by { assert Refs(v, Ref(dst, d)) >= Refs(s, Ref(dst, d)); }
    var mu' := mu[b := d];
    forall a | a in mu'
      ensures Known(s, Ref(dst, mu'[a])) && Refs(s, Ref(dst, mu'[a])) == 0 && Refs(w, Ref(dst, mu'[a])) > 0
    {
      if a != b { assert a in mu && mu'[a] == mu[a]; }
    }
  }

  lemma RetainedForOne(s: Blocks, v: Blocks, ids: seq<int>, src: Device, dst: Device, mu: map<nat, nat>, b: nat)
    requires Moving(s, v, ids, src, dst, mu) && Consistent(v, multiset{}) && b in mu
    ensures Known(v, Ref(dst, mu[b])) && Refs(v, Ref(dst, mu[b])) > 0
    ensures var w := WithPool(v, dst, Retain(PoolOn(v, dst), mu[b]));
            Moving(s, w, ids, src, dst, mu) && Consistent(w, multiset{Ref(dst, mu[b])})
  {
    hide BlocksOf, Consistent, Refs;
    assert Known(v, Ref(dst, mu[b])) && Refs(v, Ref(dst, mu[b])) > 0;
    assert multiset{} + multiset{Ref(dst, mu[b])} == multiset{Ref(dst, mu[b])};
    RetainStep(v, multiset{}, Ref(dst, mu[b]));
    RetainRefs(v, dst, mu[b]);
  }

  // ---------------------------------------------------------------- the beginning and the end

  lemma NothingMoving(s: Blocks, ids: seq<int>, src: Device, dst: Device)
    requires Invariant(s)
    ensures Moving(s, s, ids, src, dst, map[]) && MovedUpTo(s, s, ids, 0, src, dst, map[], {})
  {
    hide Invariant;
  }

  ghost function SourceRefs(mu: map<nat, nat>, src: Device): set<Ref> {
    set b | b in mu :: Ref(src, b)
  }

  lemma {:induction false} SourceCount(mu: map<nat, nat>, src: Device)
    ensures |SourceRefs(mu, src)| == |mu|
    decreases |mu|
  {
    if mu != map[] {
      var b :| b in mu;
      var rest := mu - {b};
      SourceCount(rest, src);
      assert SourceRefs(mu, src) == SourceRefs(rest, src) + {Ref(src, b)};
    } else {
      assert SourceRefs(mu, src) == {};
    }
  }

  /** When the destination runs out there are more blocks than it had free. */
  lemma RanOut(s: Blocks, v: Blocks, ids: seq<int>, src: Device, dst: Device, mu: map<nat, nat>, b: nat)
    requires Moving(s, v, ids, src, dst, mu) && PoolOn(v, dst).free == [] && b !in mu && Ref(src, b) in BlocksOf(s.tables, ids)
    ensures |BlocksOf(s.tables, ids)| > |PoolOn(s, dst).free|
  {
    hide BlocksOf, Injective;
    SourceCount(mu, src);
    var used := SourceRefs(mu, src) + {Ref(src, b)};
    assert Ref(src, b) !in SourceRefs(mu, src);
    assert |used| == |mu| + 1;
    SubsetSize(used, BlocksOf(s.tables, ids));
  }

  lemma AllTransferred(s: Blocks, t: Blocks, ids: seq<int>, src: Device, dst: Device, mu: map<nat, nat>)
    requires Invariant(t) && Moving(s, t, ids, src, dst, mu) && MovedUpTo(s, t, ids, |ids|, src, dst, mu, {})
    requires OnDevice(s.tables, ids, src)
    ensures Transferred(s, t, ids, src, dst, mu) && |BlocksOf(s.tables, ids)| == |mu| <= |PoolOn(s, dst).free|
    ensures |t.gpu.refs| == |s.gpu.refs| && |t.cpu.refs| == |s.cpu.refs|
  {
    hide Invariant, Injective, MappedTable, HalfMoved, BlocksOf, OnDevice, NothingLost, Refs;
    forall b: nat | Ref(src, b) in BlocksOf(s.tables, ids) ensures b in mu {
      BlockIsMapped(s, t, ids, src, dst, mu, b);
    }
    forall id | id in s.tables && id in ids ensures MappedTable(mu, src, dst, s.tables[id], t.tables[id]) {
      var k :| 0 <= k < |ids| && ids[k] == id;
    }
    assert ids[..|ids|] == ids;
    SourceCount(mu, src);
    AllOnSource(s, ids, src, mu);
  }

  lemma BlockIsMapped(s: Blocks, t: Blocks, ids: seq<int>, src: Device, dst: Device, mu: map<nat, nat>, b: nat)
    requires MovedUpTo(s, t, ids, |ids|, src, dst, mu, {}) && Ref(src, b) in BlocksOf(s.tables, ids)
    ensures b in mu
  {
    var id, i := BlockFrom(s.tables, ids, Ref(src, b));
    var k :| 0 <= k < |ids| && ids[k] == id;
    assert MappedTable(mu, src, dst, s.tables[ids[k]], t.tables[ids[k]]);
  }

  lemma AllOnSource(s: Blocks, ids: seq<int>, src: Device, mu: map<nat, nat>)
    requires OnDevice(s.tables, ids, src) && forall b: nat :: b in mu <==> Ref(src, b) in BlocksOf(s.tables, ids)
    ensures BlocksOf(s.tables, ids) == SourceRefs(mu, src)
  {
    forall r ensures r in BlocksOf(s.tables, ids) <==> r in SourceRefs(mu, src) {
      if r in BlocksOf(s.tables, ids) {
        var id, i := BlockFrom(s.tables, ids, r);
        var k :| 0 <= k < |ids| && ids[k] == id;
        assert s.tables[ids[k]][i] in s.tables[ids[k]];
        assert r == Ref(src, r.number);
      }
    }
  }
}
