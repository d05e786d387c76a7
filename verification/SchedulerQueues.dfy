/** Sequence groups in the scheduler's queues: priorities, sorting, and what is counted over a queue. */
module SchedulerQueues {

  /**
   A sequence group as the scheduler sees it: how many of its sequences are active
   (waiting, running or swapped, according to its queue), the most that may ever run
   at once, the tokens of its waiting prompt, and when it arrived.
   */
  datatype SeqGroup = SeqGroup(id: int, active: nat, maxRunning: nat, len: nat, promptLen: nat, arrival: real)

  type Queue = seq<SeqGroup>

  // ---------------------------------------------------------------- priorities

  datatype PolicyName = FCFS | DLLM

  function Priority(policy: PolicyName, now: real, wtWeight: real, g: SeqGroup): real {
    match policy
    case FCFS => now - g.arrival
    case DLLM => (wtWeight * (now - g.arrival)) * (1.0 - wtWeight) * g.promptLen as real
  }

  /** Python's sorted with reverse=True: descending, and stable. */
  function SortByPriority(policy: PolicyName, now: real, wtWeight: real, q: Queue): Queue {
    if q == [] then [] else Insert(policy, now, wtWeight, q[0], SortByPriority(policy, now, wtWeight, q[1..]))
  }

  function Insert(policy: PolicyName, now: real, wtWeight: real, g: SeqGroup, q: Queue): Queue {
    if q == [] || Priority(policy, now, wtWeight, g) >= Priority(policy, now, wtWeight, q[0]) then [g] + q
    else [q[0]] + Insert(policy, now, wtWeight, g, q[1..])
  }

  ghost predicate Descending(policy: PolicyName, now: real, wtWeight: real, q: Queue) {
    forall i, j :: 0 <= i < j < |q| ==> Priority(policy, now, wtWeight, q[i]) >= Priority(policy, now, wtWeight, q[j])
  }

  ghost function AtPriority(policy: PolicyName, now: real, wtWeight: real, q: Queue, p: real): Queue {
    if q == [] then [] else
    (if Priority(policy, now, wtWeight, q[0]) == p then [q[0]] else []) + AtPriority(policy, now, wtWeight, q[1..], p)
  }

  lemma {:induction false} InsertPermutes(policy: PolicyName, now: real, wtWeight: real, g: SeqGroup, q: Queue)
    ensures multiset(Insert(policy, now, wtWeight, g, q)) == multiset{g} + multiset(q)
  {
    if q != [] {
      assert q == [q[0]] + q[1..];
      InsertPermutes(policy, now, wtWeight, g, q[1..]);
    }
  }

  lemma {:induction false} InsertDescends(policy: PolicyName, now: real, wtWeight: real, g: SeqGroup, q: Queue)
    requires Descending(policy, now, wtWeight, q)
    ensures Descending(policy, now, wtWeight, Insert(policy, now, wtWeight, g, q))
  {
    hide Priority;
    if q == [] || Priority(policy, now, wtWeight, g) >= Priority(policy, now, wtWeight, q[0]) {
    } else {
      var rest := Insert(policy, now, wtWeight, g, q[1..]);
      InsertDescends(policy, now, wtWeight, g, q[1..]);
      InsertPermutes(policy, now, wtWeight, g, q[1..]);
      forall j | 0 <= j < |rest| ensures Priority(policy, now, wtWeight, q[0]) >= Priority(policy, now, wtWeight, rest[j]) {
        assert rest[j] in multiset(rest);
        if rest[j] in q[1..] { var i :| 0 <= i < |q[1..]| && q[1..][i] == rest[j]; assert q[i + 1] == rest[j]; }
      }
    }
  }

  lemma {:induction false} InsertStable(policy: PolicyName, now: real, wtWeight: real, g: SeqGroup, q: Queue, p: real)
    ensures AtPriority(policy, now, wtWeight, Insert(policy, now, wtWeight, g, q), p)
            == AtPriority(policy, now, wtWeight, [g] + q, p)
  {
    hide Priority;
    assert ([g] + q)[1..] == q;
    if q == [] || Priority(policy, now, wtWeight, g) >= Priority(policy, now, wtWeight, q[0]) {
    } else {
      var rest := Insert(policy, now, wtWeight, g, q[1..]);
      InsertStable(policy, now, wtWeight, g, q[1..], p);
      assert ([q[0]] + rest)[1..] == rest && ([g] + q[1..])[1..] == q[1..];
    }
  }

  /** Sorting permutes the queue into descending priority and keeps groups of equal priority in order. */
  lemma {:induction false} SortSorts(policy: PolicyName, now: real, wtWeight: real, q: Queue)
    ensures multiset(SortByPriority(policy, now, wtWeight, q)) == multiset(q)
    ensures |SortByPriority(policy, now, wtWeight, q)| == |q|
    ensures Descending(policy, now, wtWeight, SortByPriority(policy, now, wtWeight, q))
    ensures forall p :: AtPriority(policy, now, wtWeight, SortByPriority(policy, now, wtWeight, q), p)
                        == AtPriority(policy, now, wtWeight, q, p)
  {
    hide Priority, Insert, Descending;
    if q == [] {
      assert Descending(policy, now, wtWeight, []) by { EmptyDescends(policy, now, wtWeight); }
    } else {
      var rest := SortByPriority(policy, now, wtWeight, q[1..]);
      assert q == [q[0]] + q[1..];
      SortSorts(policy, now, wtWeight, q[1..]);
      InsertPermutes(policy, now, wtWeight, q[0], rest);
      InsertDescends(policy, now, wtWeight, q[0], rest);
      forall p ensures AtPriority(policy, now, wtWeight, SortByPriority(policy, now, wtWeight, q), p)
                       == AtPriority(policy, now, wtWeight, q, p) {
        InsertStable(policy, now, wtWeight, q[0], rest, p);
        assert ([q[0]] + rest)[1..] == rest;
      }
      SameSize(SortByPriority(policy, now, wtWeight, q), q);
    }
  }

  lemma EmptyDescends(policy: PolicyName, now: real, wtWeight: real)
    ensures Descending(policy, now, wtWeight, [])
  {
  }

  lemma SameSize(a: Queue, b: Queue)
    requires multiset(a) == multiset(b)
    ensures |a| == |b|
  {
    assert |multiset(a)| == |a| && |multiset(b)| == |b|;
  }

  /** First come, first served does not depend on the clock: the order is by arrival. */
  lemma ArrivalOrder(now: real, wtWeight: real, q: Queue, i: nat, j: nat)
    requires i < j < |q| && Descending(FCFS, now, wtWeight, q)
    ensures q[i].arrival <= q[j].arrival
  {
    assert Priority(FCFS, now, wtWeight, q[i]) >= Priority(FCFS, now, wtWeight, q[j]);
  }

  /**
   The other policy multiplies the two weights instead of adding weighted terms, so
   every weight strictly between 0 and 1 orders two groups alike, by waiting time
   times prompt length, and the weights 0 and 1 do not order them at all.
   */
  lemma WeightIsIdle(now: real, w: real, g: SeqGroup, h: SeqGroup)
    ensures 0.0 < w < 1.0 ==>
              (Priority(DLLM, now, w, g) >= Priority(DLLM, now, w, h) <==>
               (now - g.arrival) * g.promptLen as real >= (now - h.arrival) * h.promptLen as real)
    ensures w == 0.0 || w == 1.0 ==> Priority(DLLM, now, w, g) == Priority(DLLM, now, w, h)
  {
    Regroup(w, now - g.arrival, g.promptLen as real);
    Regroup(w, now - h.arrival, h.promptLen as real);
    if 0.0 < w < 1.0 {
      assert w * (1.0 - w) > 0.0;
      ScaleOrder(w * (1.0 - w), (now - g.arrival) * g.promptLen as real, (now - h.arrival) * h.promptLen as real);
    }
  }

  lemma Regroup(w: real, t: real, n: real)
    ensures (w * t) * (1.0 - w) * n == (w * (1.0 - w)) * (t * n)
  {
    assert (w * t) * (1.0 - w) == (w * (1.0 - w)) * t;
    assert ((w * (1.0 - w)) * t) * n == (w * (1.0 - w)) * (t * n);
  }

  lemma ScaleOrder(c: real, a: real, b: real)
    requires c > 0.0
    ensures c * a >= c * b <==> a >= b
  {
    if a < b { assert c * (b - a) > 0.0; }
    if a >= b { assert c * (a - b) >= 0.0; }
  }

  // ---------------------------------------------------------------- counting

  function Reverse(q: Queue): Queue {
    if q == [] then [] else Reverse(q[1..]) + [q[0]]
  }

  lemma {:induction false} ReverseAppend(a: Queue, b: Queue)
    ensures Reverse(a + b) == Reverse(b) + Reverse(a)
  {
    if a == [] {
      assert a + b == b;
    } else {
      assert (a + b)[1..] == a[1..] + b;
      ReverseAppend(a[1..], b);
    }
  }

  lemma {:induction false} ReverseTwice(q: Queue)
    ensures Reverse(Reverse(q)) == q
  {
    if q != [] {
      ReverseTwice(q[1..]);
      ReverseAppend(Reverse(q[1..]), [q[0]]);
      assert [q[0]][1..] == [];
      assert q == [q[0]] + q[1..];
    }
  }

  lemma {:induction false} ReversePermutes(q: Queue)
    ensures multiset(Reverse(q)) == multiset(q) && |Reverse(q)| == |q|
  {
    if q != [] {
      ReversePermutes(q[1..]);
      assert q == [q[0]] + q[1..];
    }
  }

  /** The most sequences that the groups may ever run at once. */
  ghost function MaxRunning(q: Queue): nat {
    if q == [] then 0 else MaxRunning(q[..|q| - 1]) + q[|q| - 1].maxRunning
  }

  /** The sequences that the groups run now: one new token each. */
  ghost function Active(q: Queue): nat {
    if q == [] then 0 else Active(q[..|q| - 1]) + q[|q| - 1].active
  }

  lemma {:induction false} MaxRunningAppend(a: Queue, b: Queue)
    ensures MaxRunning(a + b) == MaxRunning(a) + MaxRunning(b)
  {
    if b == [] {
      assert a + b == a;
    } else {
      assert (a + b)[..|a + b| - 1] == a + b[..|b| - 1];
      MaxRunningAppend(a, b[..|b| - 1]);
    }
  }

  lemma {:induction false} ActiveAppend(a: Queue, b: Queue)
    ensures Active(a + b) == Active(a) + Active(b)
  {
    if b == [] {
      assert a + b == a;
    } else {
      assert (a + b)[..|a + b| - 1] == a + b[..|b| - 1];
      ActiveAppend(a, b[..|b| - 1]);
    }
  }

  /** Where a's last element sits in a permutation of a. */
  lemma TakeOut(a: Queue, b: Queue) returns (b1: Queue, b2: Queue)
    requires multiset(a) == multiset(b) && a != []
    ensures b == b1 + [a[|a| - 1]] + b2 && multiset(b1 + b2) == multiset(a[..|a| - 1])
  {
    var n, g := |a| - 1, a[|a| - 1];
    assert a == a[..n] + [g];
    assert multiset(a) == multiset(a[..n]) + multiset{g};
    assert g in multiset(b);
    var i :| 0 <= i < |b| && b[i] == g;
    b1, b2 := b[..i], b[i + 1..];
    assert b == b1 + [g] + b2;
    SplitBag(b1, g, b2);
    Cancel(multiset(b1 + b2), multiset(a[..n]), multiset{g});
  }

  lemma SplitBag(b1: Queue, g: SeqGroup, b2: Queue)
    ensures multiset(b1 + [g] + b2) == multiset(b1 + b2) + multiset{g}
  {
  }

  lemma Cancel<T>(x: multiset<T>, y: multiset<T>, m: multiset<T>)
    requires x + m == y + m
    ensures x == y
  {
    assert x == (x + m) - m;
    assert y == (y + m) - m;
  }

  /** The count does not depend on the order. */
  lemma {:induction false} MaxRunningOfBag(a: Queue, b: Queue)
    requires multiset(a) == multiset(b)
    ensures MaxRunning(a) == MaxRunning(b)
    decreases |a|
  {
    if a == [] {
      SameSize(a, b);
    } else {
      var g := a[|a| - 1];
      var b1, b2 := TakeOut(a, b);
      MaxRunningOfBag(a[..|a| - 1], b1 + b2);
      MaxRunningAppend(b1, b2);
      MaxRunningAppend(b1 + [g], b2);
      MaxRunningAppend(b1, [g]);
      assert [g][..0] == [];
    }
  }

  ghost predicate Covered(q: Queue) {
    forall i :: 0 <= i < |q| ==> 1 <= q[i].active <= q[i].maxRunning
  }

  /** Groups run no more sequences than they may. */
  lemma {:induction false} ActiveBounded(q: Queue)
    requires Covered(q)
    ensures Active(q) <= MaxRunning(q)
  {
    if q != [] { ActiveBounded(q[..|q| - 1]); }
  }

  ghost function Ids(q: Queue): set<int> {
    set i | 0 <= i < |q| :: q[i].id
  }

  ghost predicate DistinctIds(q: Queue) {
    forall i, j :: 0 <= i < j < |q| ==> q[i].id != q[j].id
  }

  lemma IdsSnoc(q: Queue, g: SeqGroup)
    ensures Ids(q + [g]) == Ids(q) + {g.id}
  {
    var all := q + [g];
    forall id ensures id in Ids(all) <==> id in Ids(q) + {g.id} {
      if id in Ids(q) { var i :| 0 <= i < |q| && q[i].id == id; assert all[i].id == id; }
      if id == g.id { assert all[|q|].id == id; }
    }
  }

  /** Covered groups and distinct ids are properties of the bag. */
  lemma CoveredOfBag(a: Queue, b: Queue)
    requires multiset(a) <= multiset(b) && Covered(b)
    ensures Covered(a)
  {
    forall i | 0 <= i < |a| ensures 1 <= a[i].active <= a[i].maxRunning {
      assert a[i] in multiset(a) && a[i] in multiset(b);
      assert a[i] in b;
    }
  }

  ghost function IdBag(q: Queue): multiset<int> {
    if q == [] then multiset{} else IdBag(q[..|q| - 1]) + multiset{q[|q| - 1].id}
  }

  lemma {:induction false} IdBagAppend(a: Queue, b: Queue)
    ensures IdBag(a + b) == IdBag(a) + IdBag(b)
  {
    if b == [] {
      assert a + b == a;
    } else {
      assert (a + b)[..|a + b| - 1] == a + b[..|b| - 1];
      IdBagAppend(a, b[..|b| - 1]);
    }
  }

  lemma {:induction false} IdBagOfBag(a: Queue, b: Queue)
    requires multiset(a) == multiset(b)
    ensures IdBag(a) == IdBag(b)
    decreases |a|
  {
    if a == [] {
      SameSize(a, b);
    } else {
      var g := a[|a| - 1];
      var b1, b2 := TakeOut(a, b);
      IdBagOfBag(a[..|a| - 1], b1 + b2);
      IdBagAppend(b1, b2);
      IdBagAppend(b1 + [g], b2);
      IdBagAppend(b1, [g]);
      assert [g][..0] == [];
    }
  }

  ghost predicate Once(m: multiset<int>) {
    forall id :: m[id] <= 1
  }

  lemma {:induction false} IdBagHas(q: Queue, i: nat)
    requires i < |q|
    ensures IdBag(q)[q[i].id] >= 1
  {
    if i < |q| - 1 { IdBagHas(q[..|q| - 1], i); }
  }

  /** No id twice in the bag means no id twice in the queue. */
  lemma {:induction false} OnceIsDistinct(q: Queue)
    requires Once(IdBag(q))
    ensures DistinctIds(q)
  {
    if q != [] {
      var n := |q| - 1;
      forall id ensures IdBag(q[..n])[id] <= 1 { assert IdBag(q)[id] <= 1; }
      OnceIsDistinct(q[..n]);
      forall i | 0 <= i < n ensures q[i].id != q[n].id {
        IdBagHas(q[..n], i);
        assert IdBag(q)[q[n].id] <= 1;
      }
    }
  }
}
