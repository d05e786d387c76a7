/** The conventional block manager's state: two reference-counted pools and the block tables. */
module V1State {
  import opened KVState

  datatype Device = GPU | CPU

  /** A physical block: its device and its number. */
  datatype Ref = Ref(device: Device, number: nat)

  type Table = seq<Ref>

  datatype Pool = Pool(free: seq<nat>, refs: seq<nat>)

  datatype Blocks = Blocks(gpu: Pool, cpu: Pool, tables: map<int, Table>)

  function PoolOn(m: Blocks, device: Device): Pool {
    match device
    case GPU => m.gpu
    case CPU => m.cpu
  }

  ghost function WithPool(m: Blocks, device: Device, p: Pool): Blocks {
    match device
    case GPU => m.(gpu := p)
    case CPU => m.(cpu := p)
  }

  ghost predicate Good(p: Pool) { PoolOk(p.free, p.refs, |p.refs|) }

  ghost predicate Known(m: Blocks, r: Ref) { r.number < |PoolOn(m, r.device).refs| }

  ghost function Refs(m: Blocks, r: Ref): nat {
    if Known(m, r) then PoolOn(m, r.device).refs[r.number] else 0
  }

  /** The sequences whose table lists a block. */
  ghost function HoldersOf(tables: map<int, Table>, r: Ref): set<int> {
    set id | id in tables && r in tables[id]
  }

  /** Tables list known blocks, each at most once. */
  ghost predicate TableOk(m: Blocks, t: Table) {
    NoDup(t) && forall i :: 0 <= i < |t| ==> Known(m, t[i])
  }

  ghost predicate AllTablesOk(m: Blocks) {
    forall id :: id in m.tables ==> TableOk(m, m.tables[id])
  }

  /** A block's reference count is the number of its holders, plus the references in x that an operation holds. */
  ghost predicate Balanced(m: Blocks, x: multiset<Ref>) {
    forall r :: Known(m, r) ==> Refs(m, r) == |HoldersOf(m.tables, r)| + x[r]
  }

  ghost predicate Consistent(m: Blocks, x: multiset<Ref>) {
    Good(m.gpu) && Good(m.cpu) && AllTablesOk(m) && Balanced(m, x)
  }

  ghost predicate Invariant(m: Blocks) { Consistent(m, multiset{}) }

  // ---------------------------------------------------------------- one pool

  ghost function Take(p: Pool): Pool
    requires p.free != [] && p.free[0] < |p.refs|
  {
    Pool(p.free[1..], p.refs[p.free[0] := 1])
  }

  ghost function Retain(p: Pool, b: nat): Pool
    requires b < |p.refs|
  {
    p.(refs := p.refs[b := p.refs[b] + 1])
  }

  ghost function Release(p: Pool, b: nat): Pool
    requires b < |p.refs| && p.refs[b] > 0
  {
    Pool(if p.refs[b] == 1 then p.free + [b] else p.free, p.refs[b := p.refs[b] - 1])
  }

  lemma TakeGood(p: Pool)
    requires Good(p) && p.free != []
    ensures p.free[0] < |p.refs| && p.refs[p.free[0]] == 0 && Good(Take(p))
  {
    var f, b := p.free, p.free[0];
    assert b in f;
    var q := Take(p);
    forall d | d in f[1..] ensures d < |p.refs| && q.refs[d] == 0 {
      var i :| 0 <= i < |f[1..]| && f[1..][i] == d;
      assert d == f[i + 1] && d in f;
    }
    forall d | 0 <= d < |p.refs| && q.refs[d] == 0 ensures d in f[1..] { assert d in f; }
  }

  lemma RetainGood(p: Pool, b: nat)
    requires Good(p) && b < |p.refs| && p.refs[b] > 0
    ensures Good(Retain(p, b))
  {
  }

  lemma ReleaseGood(p: Pool, b: nat)
    requires Good(p) && b < |p.refs| && p.refs[b] > 0
    ensures Good(Release(p, b))
  {
    assert b !in p.free;
    var q := Release(p, b);
    forall d | 0 <= d < |q.refs| && q.refs[d] == 0 ensures d in q.free {}
  }

  // ---------------------------------------------------------------- references in progress

  lemma TakeStep(m: Blocks, x: multiset<Ref>, device: Device)
    requires Consistent(m, x) && PoolOn(m, device).free != []
    ensures var p := PoolOn(m, device);
            && p.free[0] < |p.refs| && p.refs[p.free[0]] == 0
            && Consistent(WithPool(m, device, Take(p)), x + multiset{Ref(device, p.free[0])})
  {
    TakeGood(PoolOn(m, device));
    hide PoolOk;
    SameRefs(m, WithPool(m, device, Take(PoolOn(m, device))));
  }

  lemma RetainStep(m: Blocks, x: multiset<Ref>, r: Ref)
    requires Consistent(m, x) && Known(m, r) && Refs(m, r) > 0
    ensures Consistent(WithPool(m, r.device, Retain(PoolOn(m, r.device), r.number)), x + multiset{r})
  {
    RetainGood(PoolOn(m, r.device), r.number);
    hide PoolOk;
    SameRefs(m, WithPool(m, r.device, Retain(PoolOn(m, r.device), r.number)));
  }

  lemma ReleaseStep(m: Blocks, x: multiset<Ref>, r: Ref)
    requires Consistent(m, x + multiset{r}) && Known(m, r)
    ensures Refs(m, r) > 0 && Consistent(WithPool(m, r.device, Release(PoolOn(m, r.device), r.number)), x)
  {
    assert (x + multiset{r})[r] == x[r] + 1;
    ReleaseGood(PoolOn(m, r.device), r.number);
    hide PoolOk;
    SameRefs(m, WithPool(m, r.device, Release(PoolOn(m, r.device), r.number)));
  }

  /** Tables stay in order while the pools keep their sizes. */
  lemma SameRefs(m: Blocks, n: Blocks)
    requires AllTablesOk(m) && n.tables == m.tables
    requires |n.gpu.refs| == |m.gpu.refs| && |n.cpu.refs| == |m.cpu.refs|
    ensures AllTablesOk(n) && forall r :: Known(n, r) <==> Known(m, r)
  {
    forall r ensures Known(n, r) <==> Known(m, r) {}
  }

  // ---------------------------------------------------------------- tables

  /** An entry moves from one block to another: the hold in progress changes sides. */
  lemma ReplaceStep(m: Blocks, x: multiset<Ref>, id: int, i: nat, d: Ref)
    requires id in m.tables && i < |m.tables[id]| && Known(m, d) && d !in m.tables[id]
    requires Consistent(m, x + multiset{d})
    ensures Consistent(m.(tables := m.tables[id := m.tables[id][i := d]]), x + multiset{m.tables[id][i]})
  {
    hide PoolOk;
    var t, r := m.tables[id], m.tables[id][i];
    var t' := t[i := d];
    var n := m.(tables := m.tables[id := t']);
    assert TableOk(m, t);
    assert r !in t' by {
      assert forall j :: 0 <= j < |t'| && j != i ==> t'[j] == t[j] != r;
    }
    assert d in t' by { assert t'[i] == d; }
    forall q ensures q in t' <==> (q in t && q != r) || q == d {
      if q in t && q != r { var j :| 0 <= j < |t| && t[j] == q; assert t'[j] == q; }
    }
    assert AllTablesOk(n) by { assert TableOk(n, t'); }
    forall q | Known(n, q) ensures Refs(n, q) == |HoldersOf(n.tables, q)| + (x + multiset{r})[q] {
      HoldersAfter(m.tables, id, t', q);
      assert (x + multiset{d})[q] == x[q] + if q == d then 1 else 0;
    }
  }

  /** Replacing one table changes only that sequence's holds. */
  lemma HoldersAfter(tables: map<int, Table>, id: int, t: Table, q: Ref)
    ensures var was := id in tables && q in tables[id];
            |HoldersOf(tables[id := t], q)|
            == |HoldersOf(tables, q)| - (if was then 1 else 0) + if q in t then 1 else 0
  {
    var rest := HoldersOf(tables, q) - {id};
    assert HoldersOf(tables[id := t], q) == if q in t then rest + {id} else rest;
    assert HoldersOf(tables, q) == if id in tables && q in tables[id] then rest + {id} else rest;
  }

  lemma PushStep(m: Blocks, x: multiset<Ref>, id: int, d: Ref)
    requires id in m.tables && Known(m, d) && d !in m.tables[id] && Consistent(m, x + multiset{d})
    ensures Consistent(m.(tables := m.tables[id := m.tables[id] + [d]]), x)
  {
    hide PoolOk;
    var t := m.tables[id];
    var n := m.(tables := m.tables[id := t + [d]]);
    assert TableOk(m, t);
    assert AllTablesOk(n) by { assert TableOk(n, t + [d]); }
    forall q | Known(n, q) ensures Refs(n, q) == |HoldersOf(n.tables, q)| + x[q] {
      HoldersAfter(m.tables, id, t + [d], q);
      assert (x + multiset{d})[q] == x[q] + if q == d then 1 else 0;
    }
  }

  /** A sequence leaves: its references become holds in progress. */
  lemma LeaveStep(m: Blocks, x: multiset<Ref>, id: int)
    requires id in m.tables && Consistent(m, x)
    ensures Consistent(m.(tables := m.tables - {id}), x + multiset(m.tables[id]))
  {
    hide PoolOk;
    var t := m.tables[id];
    var n := m.(tables := m.tables - {id});
    assert TableOk(m, t);
    assert n.tables[id := t] == m.tables;
    forall q | Known(n, q) ensures Refs(n, q) == |HoldersOf(n.tables, q)| + (x + multiset(t))[q] {
      HoldersAfter(n.tables, id, t, q);
      OnceInTable(t, q);
    }
    assert AllTablesOk(n);
  }

  lemma {:induction false} OnceInTable(t: Table, q: Ref)
    requires NoDup(t)
    ensures multiset(t)[q] == if q in t then 1 else 0
  {
    if t != [] {
      var n := |t| - 1;
      assert t == t[..n] + [t[n]];
      OnceInTable(t[..n], q);
      assert t[n] !in t[..n];
    }
  }

  /** A block in a table is referenced. */
  lemma HeldIsReferenced(m: Blocks, x: multiset<Ref>, id: int, i: nat)
    requires Consistent(m, x) && id in m.tables && i < |m.tables[id]|
    ensures Known(m, m.tables[id][i]) && Refs(m, m.tables[id][i]) > 0
  {
    hide PoolOk;
    assert TableOk(m, m.tables[id]);
    assert id in HoldersOf(m.tables, m.tables[id][i]);
  }

  /** An unreferenced block is in no table. */
  lemma UnreferencedIsNowhere(m: Blocks, x: multiset<Ref>, r: Ref, id: int)
    requires Consistent(m, x) && Known(m, r) && Refs(m, r) == 0 && id in m.tables
    ensures r !in m.tables[id] && x[r] == 0
  {
    hide PoolOk, AllTablesOk;
    assert r in m.tables[id] ==> id in HoldersOf(m.tables, r);
  }
}
