/** Which block the two least-recently-used evictors pick. */
module Evictors {
  import opened Results

  /** When a free block was last accessed, and how many tokens its hash covers. */
  datatype Meta = Meta(lastAccessed: real, numHashedTokens: int)

  /** The v1 scan from i on: stops at the first block accessed later than the candidate. */
  function EarlyScan(s: seq<Meta>, i: nat, best: nat): (r: nat)
    requires best < i <= |s|
    ensures r < |s|
    decreases |s| - i
  {
    if i == |s| || s[best].lastAccessed < s[i].lastAccessed then best
    else EarlyScan(s, i + 1, if s[best].numHashedTokens < s[i].numHashedTokens then i else best)
  }

  predicate Better(a: Meta, b: Meta) {
    b.lastAccessed > a.lastAccessed || (b.lastAccessed == a.lastAccessed && b.numHashedTokens < a.numHashedTokens)
  }

  /** The v2 scan from i on: looks at every block. */
  function FullScan(s: seq<Meta>, i: nat, best: nat): (r: nat)
    requires best < i <= |s|
    ensures r < |s|
    decreases |s| - i
  {
    if i == |s| then best else FullScan(s, i + 1, if Better(s[i], s[best]) then i else best)
  }

  /** The least recently used block; among those the one with most hashed tokens; among those the first. */
  ghost predicate IsVictim(s: seq<Meta>, n: nat, v: nat) {
    && v < n <= |s|
    && (forall i :: 0 <= i < n ==> s[v].lastAccessed <= s[i].lastAccessed)
    && (forall i :: 0 <= i < n && s[i].lastAccessed == s[v].lastAccessed ==> s[i].numHashedTokens <= s[v].numHashedTokens)
    && forall i :: 0 <= i < v && s[i].lastAccessed == s[v].lastAccessed ==> s[i].numHashedTokens < s[v].numHashedTokens
  }

  lemma VictimUnique(s: seq<Meta>, n: nat, v: nat, w: nat)
    requires IsVictim(s, n, v) && IsVictim(s, n, w)
    ensures v == w
  {
    assert s[v].lastAccessed == s[w].lastAccessed && s[v].numHashedTokens == s[w].numHashedTokens;
  }

  lemma OneMoreSeen(s: seq<Meta>, i: nat, best: nat)
    requires i < |s| && IsVictim(s, i, best)
    ensures IsVictim(s, i + 1, if Better(s[i], s[best]) then i else best)
  {
  }

  /** The full scan finds the victim in any table. */
  lemma {:induction false} FullScanFindsVictim(s: seq<Meta>, i: nat, best: nat)
    requires best < i <= |s| && IsVictim(s, i, best)
    ensures IsVictim(s, |s|, FullScan(s, i, best))
    decreases |s| - i
  {
    if i < |s| {
      OneMoreSeen(s, i, best);
      hide IsVictim;
      FullScanFindsVictim(s, i + 1, if Better(s[i], s[best]) then i else best);
    }
  }

  /** What the v1 evictor relies on: the least recently used blocks come first, consecutively. */
  ghost predicate LowestFirst(times: seq<real>) {
    forall i, j :: 0 <= i < j < |times| && Lowest(times, j) ==> times[i] == times[j]
  }

  ghost predicate Lowest(times: seq<real>, j: nat)
    requires j < |times|
  {
    forall k :: 0 <= k < |times| ==> times[j] <= times[k]
  }

  ghost function Times(s: seq<Meta>): seq<real> {
    seq(|s|, i requires 0 <= i < |s| => s[i].lastAccessed)
  }

  ghost function WithTokens(times: seq<real>, tokens: seq<int>): seq<Meta>
    requires |times| == |tokens|
  {
    seq(|times|, i requires 0 <= i < |times| => Meta(times[i], tokens[i]))
  }

  lemma {:induction false} SomeMinimum(times: seq<real>, n: nat) returns (m: nat)
    requires 0 < n <= |times|
    ensures m < n && forall k :: 0 <= k < n ==> times[m] <= times[k]
  {
    if n == 1 {
      m := 0;
    } else {
      m := SomeMinimum(times, n - 1);
      if times[n - 1] < times[m] { m := n - 1; }
    }
  }

  /** Where the early scan breaks off, nothing behind ties with the candidate. */
  lemma BreakIsHarmless(s: seq<Meta>, i: nat, best: nat)
    requires best < i < |s| && IsVictim(s, i, best) && LowestFirst(Times(s)) && s[best].lastAccessed < s[i].lastAccessed
    requires forall k :: 0 <= k < |s| ==> s[best].lastAccessed <= s[k].lastAccessed
    ensures IsVictim(s, |s|, best)
  {
    hide LowestFirst;
    forall j | i < j < |s| ensures s[j].lastAccessed != s[best].lastAccessed { BehindIsLater(s, i, best, j); }
  }

  lemma BehindIsLater(s: seq<Meta>, i: nat, best: nat, j: nat)
    requires best < i < j < |s| && LowestFirst(Times(s)) && s[best].lastAccessed < s[i].lastAccessed
    requires forall k :: 0 <= k < |s| ==> s[best].lastAccessed <= s[k].lastAccessed
    ensures s[j].lastAccessed != s[best].lastAccessed
  {
    assert s[j].lastAccessed == s[best].lastAccessed ==> Lowest(Times(s), j);
    assert Lowest(Times(s), j) ==> Times(s)[i] == Times(s)[j];
  }

  /** With the lowest timestamps in front, the early break is harmless. */
  lemma {:induction false} EarlyScanFindsVictim(s: seq<Meta>, i: nat, best: nat)
    requires best < i <= |s| && IsVictim(s, i, best) && LowestFirst(Times(s))
    requires forall k :: 0 <= k < |s| ==> s[best].lastAccessed <= s[k].lastAccessed
    ensures IsVictim(s, |s|, EarlyScan(s, i, best))
    decreases |s| - i
  {
    hide IsVictim, LowestFirst;
    if i < |s| {
      OneMoreSeen(s, i, best);
      if s[best].lastAccessed < s[i].lastAccessed {
        BreakIsHarmless(s, i, best);
      } else {
        EarlyScanFindsVictim(s, i + 1, if s[best].numHashedTokens < s[i].numHashedTokens then i else best);
      }
    }
  }

  lemma HeadIsLowest(s: seq<Meta>)
    requires s != [] && LowestFirst(Times(s))
    ensures forall k :: 0 <= k < |s| ==> s[0].lastAccessed <= s[k].lastAccessed
  {
    var m := SomeMinimum(Times(s), |s|);
    assert m > 0 ==> Times(s)[0] == Times(s)[m];
    forall k | 0 <= k < |s| ensures s[0].lastAccessed <= s[k].lastAccessed { assert Times(s)[m] <= Times(s)[k]; }
  }

  /** Both evictors pick the same block, whatever the tokens. */
  ghost predicate AlwaysAgree(times: seq<real>)
    requires times != []
  {
    forall tokens | |tokens| == |times| ::
      EarlyScan(WithTokens(times, tokens), 1, 0) == FullScan(WithTokens(times, tokens), 1, 0)
  }

  /** Tokens that are equal except for one block. */
  ghost function OnlyAt(n: nat, at: nat): seq<int> {
    seq(n, i => if i == at then 1 else 0)
  }

  /** The early scan keeps a candidate that has at least as many tokens as all the others. */
  lemma {:induction false} KeepsFirst(s: seq<Meta>, i: nat)
    requires 0 < i <= |s| && forall k :: 0 <= k < |s| ==> s[k].numHashedTokens <= s[0].numHashedTokens
    ensures EarlyScan(s, i, 0) == 0
    decreases |s| - i
  {
    if i < |s| && s[0].lastAccessed >= s[i].lastAccessed { KeepsFirst(s, i + 1); }
  }

  /** It also keeps it when a later block stands between it and any with more tokens. */
  lemma {:induction false} StopsBefore(s: seq<Meta>, i: nat, stop: nat)
    requires 0 < i <= stop < |s| && s[0].lastAccessed < s[stop].lastAccessed
    requires forall k :: 0 <= k < stop ==> s[k].numHashedTokens <= s[0].numHashedTokens
    ensures EarlyScan(s, i, 0) == 0
    decreases |s| - i
  {
    if i < stop && s[0].lastAccessed >= s[i].lastAccessed { StopsBefore(s, i + 1, stop); }
  }

  lemma FirstIsVictim(s: seq<Meta>)
    requires s != []
    ensures IsVictim(s, |s|, FullScan(s, 1, 0))
  {
    FullScanFindsVictim(s, 1, 0);
  }

  lemma Disagrees(times: seq<real>, i: nat, j: nat)
    requires i < j < |times| && times[i] != times[j] && forall k :: 0 <= k < |times| ==> times[j] <= times[k]
    ensures !AlwaysAgree(times)
  {
    var n := |times|;
    if times[0] > times[j] {
      var s := WithTokens(times, OnlyAt(n, 0));
      KeepsFirst(s, 1);
      FirstIsVictim(s);
      assert Better(s[j], s[0]);
      assert EarlyScan(s, 1, 0) != FullScan(s, 1, 0);
    } else {
      var s := WithTokens(times, OnlyAt(n, j));
      StopsBefore(s, 1, i);
      FirstIsVictim(s);
      assert Better(s[j], s[0]);
      assert EarlyScan(s, 1, 0) != FullScan(s, 1, 0);
    }
  }

  /** The early break agrees with the full scan, for every choice of tokens, exactly when the lowest timestamps are in front. */
  lemma EarlyBreakIsExact(times: seq<real>)
    requires times != []
    ensures AlwaysAgree(times) <==> LowestFirst(times)
  {
    hide EarlyScan, FullScan;
    if LowestFirst(times) {
      forall tokens: seq<int> | |tokens| == |times|
        ensures EarlyScan(WithTokens(times, tokens), 1, 0) == FullScan(WithTokens(times, tokens), 1, 0)
      {
        var s := WithTokens(times, tokens);
        assert Times(s) == times;
        SameVictim(s);
      }
    } else {
      var i, j :| 0 <= i < j < |times| && (forall k :: 0 <= k < |times| ==> times[j] <= times[k]) && times[i] != times[j];
      Disagrees(times, i, j);
    }
  }

  lemma SameVictim(s: seq<Meta>)
    requires s != [] && LowestFirst(Times(s))
    ensures EarlyScan(s, 1, 0) == FullScan(s, 1, 0) && IsVictim(s, |s|, EarlyScan(s, 1, 0))
  {
    HeadIsLowest(s);
    FirstIsVictim(s);
    EarlyScanFindsVictim(s, 1, 0);
    VictimUnique(s, |s|, EarlyScan(s, 1, 0), FullScan(s, 1, 0));
  }

  /** A table in order of access has its lowest timestamps in front. */
  lemma OrderedIsLowestFirst(times: seq<real>)
    requires forall i, j :: 0 <= i < j < |times| ==> times[i] <= times[j]
    ensures LowestFirst(times)
  {
  }

  // ---------------------------------------------------------------- the v2 evictor

  datatype BlockMetaData = BlockMetaData(contentHash: int, numHashedTokens: int, lastAccessed: real)

  ghost predicate Distinct<T(!new)>(s: seq<T>) {
    forall i, j :: 0 <= i < j < |s| ==> s[i] != s[j]
  }

  /** An ordered dictionary: its keys in insertion order. */
  ghost predicate OrderedKeys<T>(order: seq<int>, table: map<int, T>) {
    && Distinct(order) && (forall id :: id in order ==> id in table) && (forall id :: id in table ==> id in order)
    && forall i :: 0 <= i < |order| ==> order[i] in table
  }

  ghost function MetasOf(order: seq<int>, table: map<int, BlockMetaData>): seq<Meta>
    requires OrderedKeys(order, table)
  {
    seq(|order|, i requires 0 <= i < |order| => Meta(table[order[i]].lastAccessed, table[order[i]].numHashedTokens))
  }

  /** Free blocks by id, in insertion order. */
  class LRUEvictorV2 {
    var order: seq<int>
    var table: map<int, BlockMetaData>

    constructor ()
      ensures Valid() && order == []
    {
      order, table := [], map[];
    }

    ghost predicate Valid()
      reads this
    {
      OrderedKeys(order, table)
    }

    ghost function Metas(): seq<Meta>
      requires Valid()
      reads this
    {
      MetasOf(order, table)
    }

    /** Removes and returns the victim's id and content hash. */
    method Evict() returns (r: Result<(int, int)>)
      requires Valid()
      modifies this
      ensures Valid()
      ensures r.Ok? <==> old(order) != []
      ensures r.Err? ==> r.error == ValueError && order == old(order) && table == old(table)
      ensures r.Ok? ==> var v := FullScan(old(Metas()), 1, 0);
                        && IsVictim(old(Metas()), |old(order)|, v)
                        && r.value == (old(order)[v], old(table)[old(order)[v]].contentHash)
                        && order == old(order)[..v] + old(order)[v + 1..] && table == old(table) - {old(order)[v]}
    {
      if |order| == 0 {
        return Err(ValueError);
      }
      var best := 0;
      var i := 1;
      while i < |order|
        invariant best < i <= |order|
        invariant FullScan(Metas(), 1, 0) == FullScan(Metas(), i, best)
      {
        var candidate, block := table[order[best]], table[order[i]];
        assert Metas()[i] == Meta(block.lastAccessed, block.numHashedTokens);
        assert Metas()[best] == Meta(candidate.lastAccessed, candidate.numHashedTokens);
        if candidate.lastAccessed > block.lastAccessed
           || (candidate.lastAccessed == block.lastAccessed && candidate.numHashedTokens < block.numHashedTokens) {
          best := i;
        }
        i := i + 1;
      }
      FirstIsVictim(Metas());
      var id := order[best];
      r := Ok((id, table[id].contentHash));
      Without(order, best);
      order, table := order[..best] + order[best + 1..], table - {id};
    }

    /** Inserts a block, or replaces its data where it stands. */
    method Add(id: int, contentHash: int, numHashedTokens: int, lastAccessed: real)
      requires Valid()
      modifies this
      ensures Valid()
      ensures order == if id in old(order) then old(order) else old(order) + [id]
      ensures table == old(table)[id := BlockMetaData(contentHash, numHashedTokens, lastAccessed)]
    {
      if id !in table {
        order := order + [id];
      }
      table := table[id := BlockMetaData(contentHash, numHashedTokens, lastAccessed)];
    }

    /** Changes the access time, not the place: the table need not stay in order of access. */
    method Update(id: int, lastAccessed: real) returns (r: Result<()>)
      requires Valid()
      modifies this
      ensures Valid() && order == old(order)
      ensures r.Ok? <==> id in order
      ensures r.Ok? ==> id in old(table) && table == old(table)[id := old(table)[id].(lastAccessed := lastAccessed)]
      ensures r.Err? ==> r.error == KeyError && table == old(table)
    {
      if id !in table {
        return Err(KeyError);
      }
      table := table[id := table[id].(lastAccessed := lastAccessed)];
      return Ok(());
    }

    method Remove(id: int) returns (r: Result<()>)
      requires Valid()
      modifies this
      ensures Valid()
      ensures r.Ok? <==> id in old(order)
      ensures r.Ok? ==> table == old(table) - {id} && exists v :: 0 <= v < |old(order)| && old(order)[v] == id
                                                        && order == old(order)[..v] + old(order)[v + 1..]
      ensures r.Err? ==> r.error == ValueError && order == old(order) && table == old(table)
    {
      if id !in table {
        return Err(ValueError);
      }
      var v :| 0 <= v < |order| && order[v] == id;
      Without(order, v);
      order, table := order[..v] + order[v + 1..], table - {id};
      return Ok(());
    }
  }

  /** Removing one of several distinct elements. */
  lemma Without<T(!new)>(s: seq<T>, v: nat)
    requires Distinct(s) && v < |s|
    ensures Distinct(s[..v] + s[v + 1..])
    ensures forall x :: x in s[..v] + s[v + 1..] <==> x in s && x != s[v]
  {
    var t := s[..v] + s[v + 1..];
    forall x ensures x in t <==> x in s && x != s[v] {
      if x in t {
        var i :| 0 <= i < |t| && t[i] == x;
        assert x == s[if i < v then i else i + 1];
      }
      if x in s && x != s[v] {
        var i :| 0 <= i < |s| && s[i] == x;
        assert x == t[if i < v then i else i - 1];
      }
    }
  }
}
