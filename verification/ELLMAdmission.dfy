/** Sequences and groups as the block manager sees them, and why its admission tests are sound. */
module ELLMAdmission {
  import opened Results
  import opened KVState
  import opened KVSpec
  import opened KVAppend
  import opened KVSharing
  import opened KVRecompute

  datatype Status = WAITING | RUNNING | SWAPPED | FINISHED

  datatype Seq = Seq(id: int, len: nat, status: Status)

  /** The members of a sequence group, in dictionary order. */
  type Group = seq<Seq>

  function GetSeqs(group: Group, status: Status): (r: Group)
    ensures forall q :: q in r <==> q in group && q.status == status
  {
    if group == [] then [] else
    var front := GetSeqs(group[..|group| - 1], status);
    var last := group[|group| - 1];
    assert group == group[..|group| - 1] + [last];
    if last.status == status then front + [last] else front
  }

  /** A group is keyed by sequence id. */
  ghost predicate DistinctIds(group: Group) {
    forall i, j :: 0 <= i < j < |group| ==> group[i].id != group[j].id
  }

  lemma {:induction false} GetSeqsDistinct(group: Group, status: Status)
    requires DistinctIds(group)
    ensures DistinctIds(GetSeqs(group, status))
  {
    if group != [] {
      var n := |group| - 1;
      GetSeqsDistinct(group[..n], status);
      var front := GetSeqs(group[..n], status);
      forall i | 0 <= i < |front| ensures front[i].id != group[n].id {
        assert front[i] in front;
        var j :| 0 <= j < n && group[..n][j] == front[i];
        assert group[j].id != group[n].id;
      }
    }
  }

  ghost function Ids(group: Group): set<int> {
    set i | 0 <= i < |group| :: group[i].id
  }

  /** Asking the store for blocks of one sequence: its length and evicted tokens. */
  datatype Request = Request(id: int, len: nat, evicted: nat)

  ghost function Need(c: Config, r: Request): nat {
    if WholeBlocks(c, r.evicted) <= NumBlocks(c, r.len) then NumBlocks(c, r.len) - WholeBlocks(c, r.evicted) else 0
  }

  ghost function NeedSum(c: Config, rs: seq<Request>): nat {
    if rs == [] then 0 else NeedSum(c, rs[..|rs| - 1]) + Need(c, rs[|rs| - 1])
  }

  ghost predicate DistinctRequests(rs: seq<Request>) {
    forall i, j :: 0 <= i < j < |rs| ==> rs[i].id != rs[j].id
  }

  /** The requests can all be served: valid, and every group has blocks for their sum. */
  ghost predicate AllocatableAll(c: Config, s: State, rs: seq<Request>) {
    && |s.free| == Groups(c)
    && (forall i :: 0 <= i < |rs| ==> AllocArgsOk(c, s, rs[i].id, rs[i].len, rs[i].evicted))
    && forall g :: 0 <= g < Groups(c) ==> |s.free[g]| >= NeedSum(c, rs)
  }

  /** A run of successful allocations, one request after the other. */
  ghost predicate AllocRun(c: Config, run: seq<State>, rs: seq<Request>) {
    && |run| == |rs| + 1
    && (forall i :: 0 <= i < |run| ==> Inv(c, run[i]))
    && forall i :: 0 <= i < |rs| ==>
         Allocated(c, run[i], run[i + 1], rs[i].id, rs[i].len, WholeBlocks(c, rs[i].evicted))
  }

  /** t is s plus the sequences in ids. */
  ghost predicate Added(s: State, t: State, ids: set<int>) {
    && ids !! s.lens.Keys && t.temps == s.temps
    && t.lens.Keys == s.lens.Keys + ids && t.evicted.Keys == s.evicted.Keys + ids
    && (forall i :: i in s.lens ==> t.lens[i] == s.lens[i])
    && (forall i :: i in s.evicted ==> t.evicted[i] == s.evicted[i])
    && (forall k :: k in s.entries ==> k in t.entries && t.entries[k] == s.entries[k])
    && (forall k :: k in t.entries ==> k in s.entries || k.seqId in ids)
  }

  lemma AddedStep(c: Config, s: State, t: State, u: State, ids: set<int>, id: int, n: nat, p: nat)
    requires Inv(c, s) && Added(s, t, ids) && Allocated(c, t, u, id, n, p) && id !in t.lens
    ensures Added(s, u, ids + {id})
  {
    hide Inv, Fresh, NumBlocks, Groups;
    LiveIds(c, s);
    forall k | k in u.entries ensures k in s.entries || k.seqId in ids + {id} {
      assert k in t.entries || k in Span(c, id, p, NumBlocks(c, n));
    }
  }

  /** Freeing an added sequence takes it out again. */
  lemma RemovedStep(c: Config, s: State, t: State, u: State, ids: set<int>, id: int)
    requires Inv(c, s) && Added(s, t, ids) && Freed(t, u, id) && id in ids
    ensures Added(s, u, ids - {id})
  {
    NoKeys(c, s, id);
    LiveIds(c, s);
    hide Inv;
  }

  /** With every added sequence freed, the state is as before. */
  lemma AllRemoved(c: Config, s: State, t: State)
    requires Inv(c, s) && Inv(c, t) && Added(s, t, {})
    ensures Unchanged(s, t)
  {
    hide Inv, Ledger, Unchanged;
    InvPools(c, s);
    InvPools(c, t);
    SameMap(s.lens, t.lens);
    SameMap(s.evicted, t.evicted);
    RolledBack(c, s, t);
  }

  lemma SameMap(a: map<int, nat>, b: map<int, nat>)
    requires b.Keys == a.Keys + {} && forall i :: i in a ==> b[i] == a[i]
    ensures a == b
  {
    assert a.Keys == b.Keys;
    forall i | i in b ensures i in a && b[i] == a[i] {}
  }

  ghost predicate FreeAfter(c: Config, s: State, t: State, used: nat) {
    && |s.free| == |t.free| == Groups(c)
    && forall g :: 0 <= g < Groups(c) ==> |s.free[g]| == |t.free[g]| + used
  }

  lemma FreeStep(c: Config, s: State, t: State, u: State, rs: seq<Request>, r: Request)
    requires FreeAfter(c, s, t, NeedSum(c, rs))
    requires Allocated(c, t, u, r.id, r.len, WholeBlocks(c, r.evicted)) && WholeBlocks(c, r.evicted) <= NumBlocks(c, r.len)
    ensures FreeAfter(c, s, u, NeedSum(c, rs + [r]))
  {
    assert (rs + [r])[..|rs|] == rs;
    hide GrownBy, NumBlocks, WholeBlocks;
  }

  /** The next request is served exactly when the requests so far and it fit together. */
  lemma NextAllocation(c: Config, s: State, t: State, ids: set<int>, rs: seq<Request>, r: Request)
    requires FreeAfter(c, s, t, NeedSum(c, rs)) && Added(s, t, ids) && r.id !in ids
    ensures CanAllocate(c, t, r.id, r.len, r.evicted) <==>
            AllocArgsOk(c, s, r.id, r.len, r.evicted) && forall g :: 0 <= g < Groups(c) ==> |s.free[g]| >= NeedSum(c, rs + [r])
  {
    hide NumBlocks, WholeBlocks, Aligned;
    assert (rs + [r])[..|rs|] == rs;
    CeilDivBounds(c.numLayers, c.groupSize);
    if AllocArgsOk(c, s, r.id, r.len, r.evicted) {
      forall g | 0 <= g < Groups(c)
        ensures |t.free[g]| >= NumBlocks(c, r.len) - WholeBlocks(c, r.evicted) <==> |s.free[g]| >= NeedSum(c, rs + [r])
      {
      }
    }
  }

  lemma {:induction false} NeedPrefix(c: Config, rs: seq<Request>, n: nat)
    requires n <= |rs|
    ensures NeedSum(c, rs[..n]) <= NeedSum(c, rs)
  {
    hide Need;
    if n < |rs| {
      NeedPrefix(c, rs[..|rs| - 1], n);
      assert rs[..|rs| - 1][..n] == rs[..n];
    } else {
      assert rs[..n] == rs;
    }
  }

  // ---------------------------------------------------------------- admission of an append

  /** The blocks of group g that appending one token to each sequence takes, judged in one state. */
  ghost function AppendNeed(c: Config, s: State, ids: seq<int>, g: nat): nat
    requires PoolSizes(c, s) && InRange(c, s.entries) && g < Groups(c)
  {
    if ids == [] then 0 else
    AppendNeed(c, s, ids[1..], g) + (if ids[0] in s.lens && NeedsBlock(c, s, ids[0], g) then 1 else 0)
  }

  /** Appending to one sequence never makes an append to another dearer. */
  lemma NeedShrinks(c: Config, s: State, t: State, id: int, copies: seq<Copy>, other: int, g: nat)
    requires Inv(c, s) && Inv(c, t) && Appended(c, s, t, id, copies) && g < Groups(c)
    requires other != id && other in s.lens
    requires PoolSizes(c, s) && InRange(c, s.entries) && PoolSizes(c, t) && InRange(c, t.entries)
    ensures other in t.lens && t.lens[other] == s.lens[other]
    ensures NeedsBlock(c, t, other, g) ==> NeedsBlock(c, s, other, g)
  {
    AppendedOthers(c, s, t, id, copies, other, g);
    hide Inv, Appended, WholeBlocks, Aligned;
    var k := TailKey(c, s, other, g);
    if k in t.entries && k in s.entries { RefsShrink(c, s, t, id, copies, k); }
  }

  lemma AppendedOthers(c: Config, s: State, t: State, id: int, copies: seq<Copy>, other: int, g: nat)
    requires Appended(c, s, t, id, copies) && other != id && other in s.lens
    ensures other in t.lens && t.lens[other] == s.lens[other]
    ensures forall k: Key :: k.seqId == other ==> (k in t.entries <==> k in s.entries)
    ensures forall k: Key :: k.seqId == other && k in s.entries ==> t.entries[k] == s.entries[k]
    ensures t.evicted == s.evicted
  {
    hide CopyList, TailPlaced, WholeBlocks, Groups;
  }

  /** References to another sequence's block do not grow. */
  lemma RefsShrink(c: Config, s: State, t: State, id: int, copies: seq<Copy>, k: Key)
    requires Inv(c, s) && Inv(c, t) && Appended(c, s, t, id, copies)
    requires k in s.entries && k in t.entries && k.seqId != id && t.entries[k] == s.entries[k]
    requires PoolSizes(c, s) && PoolSizes(c, t)
    requires k.group < Groups(c) && s.entries[k].phys < c.numBlocks
    ensures t.refs[k.group][s.entries[k].phys] <= s.refs[k.group][s.entries[k].phys]
  {
    var g, b := k.group, s.entries[k].phys;
    HoldersShrink(c, s, t, id, copies, k);
    SubsetSize(Holders(t.entries, g, b), Holders(s.entries, g, b));
    AppendedTemps(c, s, t, id, copies);
    InvPools(c, s);
    InvPools(c, t);
    hide Inv, Appended, Holders;
  }

  lemma AppendedTemps(c: Config, s: State, t: State, id: int, copies: seq<Copy>)
    requires Appended(c, s, t, id, copies)
    ensures t.temps == s.temps
  {
    hide CopyList, TailPlaced;
  }

  lemma HoldersShrink(c: Config, s: State, t: State, id: int, copies: seq<Copy>, k: Key)
    requires Inv(c, s) && Inv(c, t) && Appended(c, s, t, id, copies) && k in s.entries && k.seqId != id
    ensures Holders(t.entries, k.group, s.entries[k].phys) <= Holders(s.entries, k.group, s.entries[k].phys)
  {
    InvPools(c, s);
    HeldBlock(c, s, multiset{}, k);
    hide Inv, Ledger, CopyList;
    var g, b := k.group, s.entries[k].phys;
    forall h | h in Holders(t.entries, g, b) ensures h in Holders(s.entries, g, b) {
      HolderStays(c, s, t, id, copies, k, h);
    }
  }

  lemma HolderStays(c: Config, s: State, t: State, id: int, copies: seq<Copy>, k: Key, h: Key)
    requires Appended(c, s, t, id, copies) && k in s.entries && k.seqId != id && k.group < Groups(c)
    requires s.entries[k].phys < c.numBlocks && s.refs[k.group][s.entries[k].phys] >= 1
    requires h in t.entries && h.group == k.group && t.entries[h].phys == s.entries[k].phys
    ensures h in s.entries && s.entries[h].phys == s.entries[k].phys
  {
    hide CopyList, WholeBlocks;
    var tail := Tail(c, s, id);
    if h in Span(c, id, tail, tail + 1) {
      assert h == TailKey(c, s, id, h.group);
      assert TailPlaced(c, s, t, id, h.group);
    }
  }

  /** Every group has a free block for each append that needs one. */
  ghost predicate RoomToAppend(c: Config, s: State, ids: seq<int>) {
    && PoolSizes(c, s) && InRange(c, s.entries)
    && (forall i :: 0 <= i < |ids| ==> TailRetained(c, s, ids[i]))
    && forall g :: 0 <= g < Groups(c) ==> |s.free[g]| >= AppendNeed(c, s, ids, g)
  }

  lemma {:induction false} AppendNeedShrinks(c: Config, s: State, t: State, id: int, copies: seq<Copy>, ids: seq<int>, g: nat)
    requires Inv(c, s) && Inv(c, t) && Appended(c, s, t, id, copies) && g < Groups(c) && id !in ids
    requires PoolSizes(c, s) && InRange(c, s.entries) && PoolSizes(c, t) && InRange(c, t.entries)
    requires forall i :: 0 <= i < |ids| ==> ids[i] in s.lens
    ensures AppendNeed(c, t, ids, g) <= AppendNeed(c, s, ids, g)
  {
    hide Inv, Appended, NeedsBlock;
    if ids != [] {
      NeedShrinks(c, s, t, id, copies, ids[0], g);
      AppendNeedShrinks(c, s, t, id, copies, ids[1..], g);
    }
  }

  /** With room for all, the first append cannot raise and leaves room for the rest. */
  lemma RoomStep(c: Config, s: State, ids: seq<int>)
    requires Inv(c, s) && ids != [] && RoomToAppend(c, s, ids)
    ensures CanAppend(c, s, ids[0])
  {
    hide Inv, NeedsBlock, TailRetained;
    assert TailRetained(c, s, ids[0]);
    RetainedLive(c, s, ids[0]);
    forall g | 0 <= g < Groups(c) && NeedsBlock(c, s, ids[0], g) ensures s.free[g] != [] {
      assert AppendNeed(c, s, ids, g) >= 1;
    }
  }

  lemma RetainedLive(c: Config, s: State, id: int)
    requires TailRetained(c, s, id)
    ensures id in s.lens && id in s.evicted
  {
  }

  lemma RoomLeft(c: Config, s: State, t: State, ids: seq<int>, copies: seq<Copy>)
    requires Inv(c, s) && Inv(c, t) && ids != [] && RoomToAppend(c, s, ids) && ids[0] !in ids[1..]
    requires Appended(c, s, t, ids[0], copies)
    ensures RoomToAppend(c, t, ids[1..])
  {
    hide Inv, NeedsBlock, TailRetained, Appended, Ledger;
    InvPools(c, t);
    var rest := ids[1..];
    forall i | 0 <= i < |rest| ensures TailRetained(c, t, rest[i]) && rest[i] in s.lens {
      assert rest[i] == ids[i + 1] && rest[i] in rest && TailRetained(c, s, ids[i + 1]);
      RetainedLive(c, s, rest[i]);
      StillRetained(c, s, t, ids[0], copies, rest[i]);
    }
    forall g | 0 <= g < Groups(c) ensures |t.free[g]| >= AppendNeed(c, t, rest, g) {
      AppendNeedShrinks(c, s, t, ids[0], copies, rest, g);
      FreeAfterAppend(c, s, t, ids[0], copies, g);
    }
  }

  lemma StillRetained(c: Config, s: State, t: State, id: int, copies: seq<Copy>, other: int)
    requires Appended(c, s, t, id, copies) && TailRetained(c, s, other) && other != id
    ensures TailRetained(c, t, other)
  {
    hide CopyList, TailPlaced, WholeBlocks, Aligned;
  }

  lemma FreeAfterAppend(c: Config, s: State, t: State, id: int, copies: seq<Copy>, g: nat)
    requires Appended(c, s, t, id, copies) && g < Groups(c)
    ensures id in s.lens && |t.free| == |s.free| == Groups(c)
    ensures |s.free[g]| == |t.free[g]| + if NeedsBlock(c, s, id, g) then 1 else 0
  {
    hide CopyList, TailGrown, NeedsBlock;
    assert TailPlaced(c, s, t, id, g);
  }

  ghost predicate AppendedSomehow(c: Config, s: State, t: State, id: int) {
    exists copies :: Appended(c, s, t, id, copies)
  }

  /** A run of appends, one per sequence in the given order. */
  ghost predicate AppendRun(c: Config, run: seq<State>, ids: seq<int>) {
    && |run| <= |ids| + 1 && |run| > 0
    && (forall i :: 0 <= i < |run| ==> Inv(c, run[i]))
    && forall i :: 0 <= i < |run| - 1 ==> AppendedSomehow(c, run[i], run[i + 1], ids[i])
  }

  /**
   Admission of appends is sound: with room judged once, at the start, appending to
   every sequence of the group, in any order and even when they share tail blocks,
   never reaches a state in which the next append would raise.
   */
  lemma {:induction false} AppendsNeverRaise(c: Config, run: seq<State>, ids: seq<int>)
    requires AppendRun(c, run, ids) && NoDup(ids) && RoomToAppend(c, run[0], ids)
    ensures |run| <= |ids| ==> CanAppend(c, run[|run| - 1], ids[|run| - 1])
    decreases |ids|
  {
    hide Inv, CanAppend, RoomToAppend, Appended;
    if |run| == 1 {
      if ids != [] { RoomStep(c, run[0], ids); }
    } else {
      assert AppendedSomehow(c, run[0], run[0 + 1], ids[0]);
      var copies :| Appended(c, run[0], run[1], ids[0], copies);
      RoomLeft(c, run[0], run[1], ids, copies);
      var run', ids' := run[1..], ids[1..];
      forall i | 0 <= i < |run'| - 1 ensures AppendedSomehow(c, run'[i], run'[i + 1], ids'[i]) {
        assert AppendedSomehow(c, run[i + 1], run[i + 1 + 1], ids[i + 1]);
      }
      AppendsNeverRaise(c, run', ids');
    }
  }
}
