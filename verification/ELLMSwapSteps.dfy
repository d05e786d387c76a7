/** The bookkeeping of a whole group's swap: what it asks of either side, and how its steps add up. */
module ELLMSwapSteps {
  import opened KVState
  import opened KVSpec
  import opened KVAppend
  import opened KVSharing
  import opened KVRecompute
  import opened ELLMSwap
  import opened ELLMAdmission

  ghost function SeqIds(seqs: Group): seq<int> {
    seq(|seqs|, i requires 0 <= i < |seqs| => seqs[i].id)
  }

  ghost predicate AllSwapped(saved: map<int, Swapped>, seqs: Group) {
    forall i :: 0 <= i < |seqs| ==> seqs[i].id in saved
  }

  /** What restoring a swapped sequence asks of the store: its retained suffix. */
  ghost function SwapRequest(saved: map<int, Swapped>, id: int): Request {
    if id in saved then Request(id, saved[id].length, saved[id].evictedTokens) else Request(id, 0, 0)
  }

  ghost function SwapRequests(saved: map<int, Swapped>, seqs: Group): seq<Request> {
    seq(|seqs|, i requires 0 <= i < |seqs| => SwapRequest(saved, seqs[i].id))
  }

  /** The CPU blocks that the listed sequences take in one layer group. */
  ghost function RetainedSum(c: Config, s: State, ids: seq<int>, g: nat): nat {
    if ids == [] then 0 else RetainedSum(c, s, ids[..|ids| - 1], g) + |RetainedTable(c, s, ids[|ids| - 1], g)|
  }

  ghost predicate RoomOnCpu(c: Config, m: Manager, ids: seq<int>) {
    |m.cpu| == Groups(c) && forall g :: 0 <= g < Groups(c) ==> |m.cpu[g]| >= RetainedSum(c, m.kv, ids, g)
  }

  /** CPU deques equal up to order. */
  ghost predicate SameCpu(a: seq<seq<nat>>, b: seq<seq<nat>>) {
    |a| == |b| && forall g :: 0 <= g < |a| ==> multiset(a[g]) == multiset(b[g])
  }

  // ---------------------------------------------------------------- requests and sums

  lemma SwapRequestsSnoc(saved: map<int, Swapped>, seqs: Group, i: nat)
    requires i < |seqs|
    ensures SwapRequests(saved, seqs)[..i + 1] == SwapRequests(saved, seqs)[..i] + [SwapRequest(saved, seqs[i].id)]
    ensures SwapRequests(saved, seqs[..i]) == SwapRequests(saved, seqs)[..i]
    ensures |SwapRequests(saved, seqs)| == |seqs| && SwapRequests(saved, seqs)[i] == SwapRequest(saved, seqs[i].id)
  {
  }

  lemma NeedSumSnoc(c: Config, rs: seq<Request>, r: Request)
    ensures NeedSum(c, rs + [r]) == NeedSum(c, rs) + Need(c, r)
  {
    assert (rs + [r])[..|rs|] == rs;
  }

  /** A swapped sequence's CPU table is as long as its retained suffix. */
  lemma SavedNeed(c: Config, p: CpuConfig, m: Manager, id: int, g: nat)
    requires CpuDisjoint(c, p, m) && id in m.saved && g < Groups(c)
    ensures |m.saved[id].tables| == Groups(c) && |m.saved[id].tables[g]| == Need(c, SwapRequest(m.saved, id))
  {
    hide NumBlocks, WholeBlocks, Aligned;
    assert SwappedOk(c, p, m.saved[id]);
  }

  lemma RetainedSumSnoc(c: Config, s: State, ids: seq<int>, i: nat, g: nat)
    requires i < |ids|
    ensures RetainedSum(c, s, ids[..i + 1], g) == RetainedSum(c, s, ids[..i], g) + |RetainedTable(c, s, ids[i], g)|
  {
    hide RetainedTable;
    assert ids[..i + 1][..i] == ids[..i];
  }

  lemma {:induction false} RetainedSumPrefix(c: Config, s: State, ids: seq<int>, n: nat, g: nat)
    requires n <= |ids|
    ensures RetainedSum(c, s, ids[..n], g) <= RetainedSum(c, s, ids, g)
  {
    hide RetainedTable;
    if n < |ids| {
      RetainedSumPrefix(c, s, ids[..|ids| - 1], n, g);
      assert ids[..|ids| - 1][..n] == ids[..n];
    } else {
      assert ids[..n] == ids;
    }
  }

  // ---------------------------------------------------------------- CPU blocks taken in progress

  /** The blocks of one layer group in a list of (group, block) pairs. */
  ghost function TakenIn(taken: seq<(nat, nat)>, g: nat): seq<nat> {
    if taken == [] then [] else
    var last := taken[|taken| - 1];
    TakenIn(taken[..|taken| - 1], g) + if last.0 == g then [last.1] else []
  }

  lemma TakenSnoc(taken: seq<(nat, nat)>, h: nat, b: nat, g: nat)
    ensures TakenIn(taken + [(h, b)], g) == TakenIn(taken, g) + if h == g then [b] else []
  {
    assert (taken + [(h, b)])[..|taken|] == taken;
  }

  /** The deques have lost exactly the taken blocks, from the front. */
  ghost predicate CpuTaken(before: seq<seq<nat>>, now: seq<seq<nat>>, taken: seq<(nat, nat)>) {
    && |before| == |now|
    && (forall i :: 0 <= i < |taken| ==> taken[i].0 < |before|)
    && forall g :: 0 <= g < |before| ==> before[g] == TakenIn(taken, g) + now[g]
  }

  lemma NothingTakenYet(cpu: seq<seq<nat>>)
    ensures CpuTaken(cpu, cpu, [])
  {
  }

  lemma PopTaken(before: seq<seq<nat>>, now: seq<seq<nat>>, taken: seq<(nat, nat)>, g: nat)
    requires CpuTaken(before, now, taken) && g < |now| && now[g] != []
    ensures CpuTaken(before, now[g := now[g][1..]], taken + [(g, now[g][0])])
  {
    var now' := now[g := now[g][1..]];
    forall h | 0 <= h < |before| ensures before[h] == TakenIn(taken + [(g, now[g][0])], h) + now'[h] {
      TakenSnoc(taken, g, now[g][0], h);
    }
  }

  /** Appending the taken blocks again restores every deque up to order. */
  lemma GivenBack(before: seq<seq<nat>>, now: seq<seq<nat>>, taken: seq<(nat, nat)>, after: seq<seq<nat>>)
    requires CpuTaken(before, now, taken) && |after| == |now|
    requires forall g :: 0 <= g < |now| ==> after[g] == now[g] + TakenIn(taken, g)
    ensures SameCpu(before, after)
  {
  }

  lemma OnceIsNoDup(a: seq<nat>)
    requires forall x :: multiset(a)[x] <= 1
    ensures NoDup(a)
  {
    forall i, j | 0 <= i < j < |a| ensures a[i] != a[j] {
      assert a == a[..j] + a[j..] && a[i] == a[..j][i] && a[j] == a[j..][0];
      assert a[i] in a[..j] && a[j] in a[j..];
      assert multiset(a) == multiset(a[..j]) + multiset(a[j..]);
      assert multiset(a)[a[i]] <= 1;
    }
  }

  /** The invariant reads the CPU deques as sets. */
  lemma SameCpuInv(c: Config, p: CpuConfig, m: Manager, cpu: seq<seq<nat>>)
    requires CpuDisjoint(c, p, m) && SameCpu(m.cpu, cpu)
    ensures CpuDisjoint(c, p, m.(cpu := cpu))
  {
    hide SwappedOk;
    forall g | 0 <= g < Groups(c)
      ensures NoDup(cpu[g]) && forall b :: b in cpu[g] <==> b in m.cpu[g]
    {
      NoDupMultiset(m.cpu[g]);
      OnceIsNoDup(cpu[g]);
      forall b ensures b in cpu[g] <==> b in m.cpu[g] {
        assert b in multiset(cpu[g]) <==> b in cpu[g];
        assert b in multiset(m.cpu[g]) <==> b in m.cpu[g];
      }
    }
    assert forall id :: id in m.saved ==> |m.saved[id].tables| == Groups(c) by { TablesShape(c, p, m); }
  }

  // ---------------------------------------------------------------- moves, table by table

  lemma {:induction false} MovesPrefix(src: seq<seq<nat>>, dst: seq<seq<nat>>, n: nat)
    requires SameShape(src, dst) && n <= |src|
    ensures Moves(src, dst, n) == Moves(src[..n], dst[..n], n)
    decreases n
  {
    hide Zip;
    if n > 0 {
      MovesPrefix(src, dst, n - 1);
      MovesPrefix(src[..n], dst[..n], n - 1);
      assert src[..n][..n - 1] == src[..n - 1] && dst[..n][..n - 1] == dst[..n - 1];
    }
  }

  lemma MovesSnoc(src: seq<seq<nat>>, dst: seq<seq<nat>>, a: seq<nat>, b: seq<nat>)
    requires SameShape(src, dst) && |a| == |b|
    ensures SameShape(src + [a], dst + [b])
    ensures Moves(src + [a], dst + [b], |src| + 1) == Moves(src, dst, |src|) + Zip(|src|, a, b)
  {
    hide Zip;
    MovesPrefix(src + [a], dst + [b], |src|);
    assert (src + [a])[..|src|] == src && (dst + [b])[..|src|] == dst;
  }

  lemma ZipSnoc(g: nat, src: seq<nat>, dst: seq<nat>, a: nat, b: nat)
    requires |src| == |dst|
    ensures Zip(g, src + [a], dst + [b]) == Zip(g, src, dst) + [Copy(g, a, b)]
  {
  }

  // ---------------------------------------------------------------- saving

  /** The tables of one live sequence, taken off the fronts of the deques, make a save step. */
  lemma SavedIsStep(c: Config, m: Manager, id: int, gpu: seq<seq<nat>>, cpuTables: seq<seq<nat>>, cpu: seq<seq<nat>>)
    requires id in m.kv.lens && id in m.kv.evicted && |m.cpu| == |cpu| == |gpu| == |cpuTables| == Groups(c)
    requires gpu == RetainedTables(c, m.kv, id)
    requires forall g :: 0 <= g < |gpu| ==>
               && |gpu[g]| <= |m.cpu[g]|
               && cpuTables[g] == m.cpu[g][..|gpu[g]|] && cpu[g] == m.cpu[g][|gpu[g]|..]
    ensures var w := Swapped(m.kv.lens[id], m.kv.evicted[id] * c.blockSize, cpuTables);
            var n := Manager(m.kv, cpu, m.saved[id := w]);
            SaveStep(c, m, n, id) && SaveMoves(c, m, n, id) == Moves(gpu, cpuTables, Groups(c))
  {
    hide RetainedTable, Moves, Groups;
    var w := Swapped(m.kv.lens[id], m.kv.evicted[id] * c.blockSize, cpuTables);
    assert CanSave(c, m, id);
    assert SavedCopy(c, m, id).tables == cpuTables;
    assert SavedCopy(c, m, id) == w;
  }

  /** The recorded states are the copies that the run saved. */
  ghost predicate StatesMatch(run: seq<Manager>, ids: seq<int>, states: map<int, Swapped>) {
    && |run| == |ids| + 1
    && forall i :: 0 <= i < |ids| ==>
         ids[i] in states && run[i + 1].saved == run[i].saved[ids[i] := states[ids[i]]]
  }

  lemma StatesSnoc(run: seq<Manager>, ids: seq<int>, states: map<int, Swapped>, m: Manager, id: int, w: Swapped)
    requires StatesMatch(run, ids, states) && id !in ids && m.saved == run[|ids|].saved[id := w]
    ensures StatesMatch(run + [m], ids + [id], states[id := w])
  {
  }

  /** Saving takes one block per retained GPU block. */
  lemma SaveTakes(c: Config, m: Manager, n: Manager, id: int, g: nat)
    requires SaveStep(c, m, n, id) && g < Groups(c)
    ensures |m.cpu| == |n.cpu| == Groups(c) && |n.cpu[g]| + |RetainedTable(c, m.kv, id, g)| == |m.cpu[g]|
  {
    hide RetainedTable, Groups;
  }

  // ---------------------------------------------------------------- restoring

  lemma RestoredShape(c: Config, p: CpuConfig, m: Manager, n: Manager, id: int)
    requires ManagerInv(c, p, m) && RestoreStep(c, m, n, id) && Inv(c, n.kv)
    ensures |m.saved[id].tables| == Groups(c) && SameShape(m.saved[id].tables, RetainedTables(c, n.kv, id))
  {
    hide Inv, NumBlocks, WholeBlocks, Aligned, RetainedTable, GrownBy;
    LiveIds(c, n.kv);
    assert SwappedOk(c, p, m.saved[id]);
    forall g | 0 <= g < Groups(c) ensures |m.saved[id].tables[g]| == |RetainedTable(c, n.kv, id, g)| {
      RetainedLength(c, n.kv, id, g);
    }
  }

  /** A request for an unsaved sequence is refused, like the lookup that raises before it. */
  lemma UnsavedRefused(c: Config, s: State, saved: map<int, Swapped>, seqs: Group, i: nat)
    requires i < |seqs| && seqs[i].id !in saved
    ensures !AllocatableAll(c, s, SwapRequests(saved, seqs))
  {
    SwapRequestsSnoc(saved, seqs, i);
    hide NumBlocks, WholeBlocks, Aligned, Groups;
  }

  lemma NoSuccessors(c: Config, m: Manager)
    ensures RestoreRun(c, [m], []) && AllRestoreMoves(c, [m], []) == []
    ensures SaveRun(c, [m], []) && AllSaveMoves(c, [m], []) == []
    ensures DropRun([m], []) && DiscardRun(c, [m], []) && StatesMatch([m], [], map[])
  {
    hide SaveStep, RestoreStep, DropStep, DiscardStep;
  }

  lemma SeqIdsSnoc(seqs: Group, i: nat)
    requires i < |seqs|
    ensures |SeqIds(seqs)| == |seqs| && SeqIds(seqs)[i] == seqs[i].id
    ensures SeqIds(seqs)[..i + 1] == SeqIds(seqs)[..i] + [seqs[i].id]
    ensures DistinctIds(seqs) ==> seqs[i].id !in SeqIds(seqs)[..i]
  {
  }

  lemma SeqIdsAll(seqs: Group)
    ensures |SeqIds(seqs)| == |seqs| && SeqIds(seqs)[..0] == [] && SeqIds(seqs)[..|seqs|] == SeqIds(seqs)
    ensures forall i :: 0 <= i < |seqs| ==> SeqIds(seqs)[i] == seqs[i].id
  {
  }
}
