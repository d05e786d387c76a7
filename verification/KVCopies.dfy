/** The block copies of an append: what they do to references, and to a memory. */
module KVCopies {
  import opened KVState
  import opened KVSpec
  import opened KVAppend
  import opened KVRecompute
  import opened KVPlans
  import opened ELLMAdmission
  import opened KVMemory
  import opened KVOwnership

  ghost function StepCopies(c: Config, s: State, t: State, id: int): seq<Copy> {
    if id in s.lens then CopyList(s.entries, t.entries, id, Tail(c, s, id), Groups(c)) else []
  }

  // ---------------------------------------------------------------- references during appends

  /** An append leaves every referenced block referenced, and no more often than before. */
  lemma RefsHold(c: Config, s: State, t: State, id: int, copies: seq<Copy>, g: nat, b: nat)
    requires Inv(c, s) && Inv(c, t) && Appended(c, s, t, id, copies) && g < Groups(c) && b < c.numBlocks
    requires |s.refs| == |t.refs| == Groups(c) && |s.refs[g]| == |t.refs[g]| == c.numBlocks && s.refs[g][b] >= 1
    ensures 1 <= t.refs[g][b] <= s.refs[g][b]
  {
    InvPools(c, s);
    InvPools(c, t);
    AppendedTemps(c, s, t, id, copies);
    StillHeld(c, s, t, id, copies, g, b);
    hide TablesOk, TempsOk, Appended;
    forall h | h in Holders(t.entries, g, b) ensures h in Holders(s.entries, g, b) { HeldBefore(c, s, t, id, copies, h, b); }
    SubsetSize(Holders(t.entries, g, b), Holders(s.entries, g, b));
    assert t.refs[g][b] == |Holders(t.entries, g, b)| + |Holders(t.temps, g, b)|;
    assert s.refs[g][b] == |Holders(s.entries, g, b)| + |Holders(s.temps, g, b)|;
  }

  /** Whoever holds a referenced block after an append held it before. */
  lemma HeldBefore(c: Config, s: State, t: State, id: int, copies: seq<Copy>, h: Key, b: nat)
    requires Appended(c, s, t, id, copies) && h in t.entries && h.group < Groups(c) && t.entries[h].phys == b < c.numBlocks
    requires s.refs[h.group][b] >= 1
    ensures h in s.entries && s.entries[h].phys == b
  {
    hide CopyList, WholeBlocks;
    var tail := Tail(c, s, id);
    if h in Span(c, id, tail, tail + 1) {
      assert h == TailKey(c, s, id, h.group);
      assert TailPlaced(c, s, t, id, h.group);
    }
  }

  lemma OtherHolders(c: Config, s: State, t: State, id: int, copies: seq<Copy>, g: nat, b: nat)
    requires Appended(c, s, t, id, copies) && g < Groups(c)
    ensures id in s.lens && Holders(s.entries, g, b) - {TailKey(c, s, id, g)} <= Holders(t.entries, g, b)
  {
    hide CopyList, TailPlaced, WholeBlocks;
    var tail := Tail(c, s, id);
    forall h | h in Holders(s.entries, g, b) - {TailKey(c, s, id, g)} ensures h in Holders(t.entries, g, b) {
      assert h !in Span(c, id, tail, tail + 1);
    }
  }

  /** An unshared tail block stays where it is. */
  lemma SoleTailStays(c: Config, s: State, t: State, id: int, copies: seq<Copy>, g: nat)
    requires Inv(c, s) && Appended(c, s, t, id, copies) && g < Groups(c)
    ensures id in s.lens && PoolSizes(c, s) && InRange(c, s.entries)
    ensures var k := TailKey(c, s, id, g);
            k in s.entries && s.refs[g][s.entries[k].phys] == 1 ==> k in t.entries && t.entries[k].phys == s.entries[k].phys
  {
    hide Inv, CopyList, TailGrown;
    if Aligned(c, s.lens[id]) { FullTailNotStored(c, s, id, g); }
    assert TailPlaced(c, s, t, id, g);
  }

  /** A sequence that copies leaves the block to another holder. */
  lemma StillHeld(c: Config, s: State, t: State, id: int, copies: seq<Copy>, g: nat, b: nat)
    requires Inv(c, s) && Appended(c, s, t, id, copies) && t.temps == s.temps && g < Groups(c) && b < c.numBlocks
    requires |s.refs| == Groups(c) && |s.refs[g]| == c.numBlocks && s.refs[g][b] >= 1
    ensures |Holders(t.entries, g, b)| + |Holders(t.temps, g, b)| >= 1
  {
    OtherHolders(c, s, t, id, copies, g, b);
    SoleTailStays(c, s, t, id, copies, g);
    InvPools(c, s);
    hide Appended, TablesOk, TempsOk;
    var k, before := TailKey(c, s, id, g), Holders(s.entries, g, b);
    assert s.refs[g][b] == |before| + |Holders(s.temps, g, b)|;
    SubsetSize(before - {k}, Holders(t.entries, g, b));
    if k in before && s.refs[g][b] == 1 { assert k in Holders(t.entries, g, b); }
  }

  /** A copy leads from a shared block, which stays referenced, to a block that was free. */
  lemma CopiedRefs(c: Config, s: State, t: State, id: int, copies: seq<Copy>, g: nat)
    requires Inv(c, s) && Inv(c, t) && Appended(c, s, t, id, copies) && g < Groups(c)
    requires id in s.lens && Moved(s.entries, t.entries, TailKey(c, s, id, g))
    ensures |s.refs| == |t.refs| == Groups(c) && |s.refs[g]| == |t.refs[g]| == c.numBlocks
    ensures var a, d := s.entries[TailKey(c, s, id, g)].phys, t.entries[TailKey(c, s, id, g)].phys;
            && a < c.numBlocks && d < c.numBlocks
            && s.refs[g][a] > 1 && s.refs[g][d] == 0 && t.refs[g][d] == 1
  {
    hide Inv, CopyList, TailGrown, Ledger;
    if Aligned(c, s.lens[id]) { FullTailNotStored(c, s, id, g); }
    assert TailPlaced(c, s, t, id, g);
  }

  // ---------------------------------------------------------------- the collected list

  /** The pairs of one layer group. */
  ghost function GroupPairs(copies: seq<Copy>, g: nat): seq<(nat, nat)> {
    if copies == [] then [] else
    var last := copies[|copies| - 1];
    GroupPairs(copies[..|copies| - 1], g) + if last.group == g then [(last.src, last.dst)] else []
  }

  lemma {:induction false} GroupPairsConcat(a: seq<Copy>, b: seq<Copy>, g: nat)
    ensures GroupPairs(a + b, g) == GroupPairs(a, g) + GroupPairs(b, g)
  {
    if b == [] {
      assert a + b == a;
    } else {
      var n := |b| - 1;
      assert (a + b)[..|a + b| - 1] == a + b[..n];
      GroupPairsConcat(a, b[..n], g);
    }
  }

  /** One append copies at most one block in a group. */
  lemma {:induction false} StepPairs(s: map<Key, Entry>, t: map<Key, Entry>, id: int, block: nat, n: nat, g: nat)
    ensures GroupPairs(CopyList(s, t, id, block, n), g) ==
            if g < n && Moved(s, t, Key(id, block, g)) then [(s[Key(id, block, g)].phys, t[Key(id, block, g)].phys)] else []
  {
    if n > 0 {
      var k := Key(id, block, n - 1);
      StepPairs(s, t, id, block, n - 1, g);
      var more := if Moved(s, t, k) then [Copy(n - 1, s[k].phys, t[k].phys)] else [];
      GroupPairsConcat(CopyList(s, t, id, block, n - 1), more, g);
      assert Moved(s, t, k) ==> more[..0] == [];
    }
  }

  // ---------------------------------------------------------------- over a memory

  lemma {:induction false} CopiesConcat(mem: Memory, a: seq<Copy>, b: seq<Copy>, g: int, x: int, o: int)
    ensures ApplyCopies(mem, a + b)(g, x, o) == ApplyCopies(ApplyCopies(mem, a), b)(g, x, o)
  {
    hide ApplyCopies;
    if b == [] {
      assert a + b == a;
      NoCopiesApplied(ApplyCopies(mem, a));
    } else {
      var n := |b| - 1;
      assert a + b == (a + b[..n]) + [b[n]] && b == b[..n] + [b[n]];
      CopySnoc(mem, a + b[..n], b[n], g, x, o);
      CopySnoc(ApplyCopies(mem, a), b[..n], b[n], g, x, o);
      CopiesConcat(mem, a, b[..n], g, x, o);
      CopiesConcat(mem, a, b[..n], g, b[n].src, o);
    }
  }

  /** The copies of one append, at one address. */
  lemma StepCopiesAt(c: Config, s: State, t: State, id: int, mem: Memory, g: nat, b: int, o: int)
    requires id in s.lens && g < Groups(c)
    ensures var k := TailKey(c, s, id, g);
            ApplyCopies(mem, StepCopies(c, s, t, id))(g, b, o) ==
            if Moved(s.entries, t.entries, k) && b == t.entries[k].phys then mem(g, s.entries[k].phys, o) else mem(g, b, o)
  {
    hide ApplyCopies, CopyList;
    CopyEffect(mem, s.entries, t.entries, id, Tail(c, s, id), Groups(c), g, b, o);
  }
}
