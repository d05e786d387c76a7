/**
 Evicting to the selected share of cached layers along runs of the whole manager: where an
 evicted prefix comes from, and when a setting that changed makes evict_prefix raise.
 */
module RatioRuns {
  import opened KVState
  import opened KVSpec
  import opened KVAppend
  import opened KVSharing
  import opened KVRecompute
  import opened KVPlans
  import opened ELLMSwap
  import opened ELLMBlockManager
  import opened ELLMSoundness
  import opened KVMemory

  /** A call of evict_to_cached_layer_ratio for a sequence, or any other operation of the manager. */
  datatype RatioStep = Ratio(id: int, cached: int) | Other(op: Op)

  /** The eviction went through, or raised and left everything as it was. */
  ghost predicate RatioDone(c: Config, w: World, w': World, id: int, cached: int) {
    && id in w.m.kv.lens
    && var n := Asked(c, w.m.kv.lens[id], cached) * c.blockSize;
       if CanEvict(c, w.m.kv, id, n) then Step(c, w, w', Evict(id, n)) else w' == w
  }

  ghost predicate StepDone(c: Config, w: World, w': World, step: RatioStep) {
    match step
    case Ratio(id, cached) => RatioDone(c, w, w', id, cached)
    case Other(op) => !op.Evict? && Step(c, w, w', op)
  }

  /** A run of the manager from the empty cache in which every eviction follows a setting. */
  ghost predicate RatioRun(c: Config, p: CpuConfig, ws: seq<World>, steps: seq<RatioStep>) {
    && |ws| == |steps| + 1 && Initial(c, p, ws[0])
    && forall i :: 0 <= i < |steps| ==> StepDone(c, ws[i], ws[i + 1], steps[i])
  }

  /** Step i evicted, or tried to, the given prefix from a sequence no longer than len. */
  ghost predicate AskedBy(c: Config, ws: seq<World>, steps: seq<RatioStep>, i: nat, len: nat, prefix: nat)
    requires i < |steps| <= |ws|
  {
    && steps[i].Ratio? && steps[i].id in ws[i].m.kv.lens && 0 < ws[i].m.kv.lens[steps[i].id] <= len
    && prefix == Asked(c, ws[i].m.kv.lens[steps[i].id], steps[i].cached)
  }

  /** Nothing is evicted, or one of the first n steps asked for just this prefix. */
  ghost predicate Origin(c: Config, ws: seq<World>, steps: seq<RatioStep>, n: nat, len: nat, prefix: nat)
    requires n <= |steps| <= |ws|
  {
    prefix == 0 || exists i :: 0 <= i < n && AskedBy(c, ws, steps, i, len, prefix)
  }

  ghost predicate Origins(c: Config, ws: seq<World>, steps: seq<RatioStep>, n: nat)
    requires n <= |steps| < |ws|
  {
    && (forall id :: id in ws[n].m.kv.lens && id in ws[n].m.kv.evicted ==>
          Origin(c, ws, steps, n, ws[n].m.kv.lens[id], ws[n].m.kv.evicted[id]))
    && (forall id :: id in ws[n].m.saved ==>
          Origin(c, ws, steps, n, ws[n].m.saved[id].length, WholeBlocks(c, ws[n].m.saved[id].evictedTokens)))
  }

  // ---------------------------------------------------------------- one step

  /** Some live or swapped sequence of at most len tokens has this prefix evicted. */
  ghost predicate Traced(c: Config, m: Manager, len: nat, prefix: nat) {
    prefix == 0 || (exists id :: LivePrefix(m, id, len, prefix)) || (exists id :: SavedPrefix(c, m, id, len, prefix))
  }

  ghost predicate LivePrefix(m: Manager, id: int, len: nat, prefix: nat) {
    id in m.kv.lens && id in m.kv.evicted && m.kv.lens[id] <= len && m.kv.evicted[id] == prefix
  }

  ghost predicate SavedPrefix(c: Config, m: Manager, id: int, len: nat, prefix: nat) {
    id in m.saved && m.saved[id].length <= len && WholeBlocks(c, m.saved[id].evictedTokens) == prefix
  }

  ghost predicate AllTraced(c: Config, m: Manager, n: Manager) {
    && (forall id :: id in n.kv.lens && id in n.kv.evicted ==> Traced(c, m, n.kv.lens[id], n.kv.evicted[id]))
    && (forall id :: id in n.saved ==> Traced(c, m, n.saved[id].length, WholeBlocks(c, n.saved[id].evictedTokens)))
  }

  /** Sequences that were there before, with their prefix and no fewer tokens. */
  lemma Carried(c: Config, m: Manager, n: Manager, id: int)
    requires id in n.kv.lens && id in n.kv.evicted
    requires id in m.kv.lens && id in m.kv.evicted && m.kv.lens[id] <= n.kv.lens[id] && m.kv.evicted[id] == n.kv.evicted[id]
    ensures Traced(c, m, n.kv.lens[id], n.kv.evicted[id])
  {
    assert LivePrefix(m, id, n.kv.lens[id], n.kv.evicted[id]);
  }

  lemma CarriedCopy(c: Config, m: Manager, n: Manager, id: int)
    requires id in n.saved && id in m.saved && n.saved[id] == m.saved[id]
    ensures Traced(c, m, n.saved[id].length, WholeBlocks(c, n.saved[id].evictedTokens))
  {
    assert SavedPrefix(c, m, id, n.saved[id].length, WholeBlocks(c, n.saved[id].evictedTokens));
  }

  /** What every operation but an eviction does to lengths and evicted prefixes. */
  ghost predicate PrefixEffect(c: Config, m: Manager, n: Manager, op: Op) {
    match op
    case Alloc(id, tokens) => n.kv.lens == m.kv.lens[id := |tokens|] && n.kv.evicted == m.kv.evicted[id := 0] && n.saved == m.saved
    case Append(id, _) => id in m.kv.lens && n.kv.lens == m.kv.lens[id := m.kv.lens[id] + 1] && n.kv.evicted == m.kv.evicted
                          && n.saved == m.saved
    case Fork(a, b) => a in m.kv.lens && a in m.kv.evicted && n.saved == m.saved
                       && n.kv.lens == m.kv.lens[b := m.kv.lens[a]] && n.kv.evicted == m.kv.evicted[b := m.kv.evicted[a]]
    case Free(id) => n.kv.lens == m.kv.lens - {id} && n.kv.evicted == m.kv.evicted - {id} && n.saved == m.saved
    case Drop(id) => n.kv.lens == m.kv.lens - {id} && n.kv.evicted == m.kv.evicted - {id} && n.saved == m.saved
    case Save(id) => n.kv == m.kv && id in m.kv.lens && id in m.kv.evicted && id in n.saved && n.saved == m.saved[id := n.saved[id]]
                     && n.saved[id].length == m.kv.lens[id] && n.saved[id].evictedTokens == m.kv.evicted[id] * c.blockSize
    case Restore(id) => id in m.saved && n.saved == m.saved && n.kv.lens == m.kv.lens[id := m.saved[id].length]
                        && n.kv.evicted == m.kv.evicted[id := WholeBlocks(c, m.saved[id].evictedTokens)]
    case Discard(id) => n.kv == m.kv && n.saved == m.saved - {id}
    case _ => n.kv.lens == m.kv.lens && n.kv.evicted == m.kv.evicted && n.saved == m.saved
  }

  lemma StepPrefixes(c: Config, w: World, w': World, op: Op)
    requires Step(c, w, w', op) && !op.Evict?
    ensures PrefixEffect(c, w.m, w'.m, op)
  {
    hide Inv, GrownBy, LeasedTemps, Recomputed, CopyList, TailPlaced, EntriesForked, WriteToken, ApplyCopies, ApplyMoves,
         PrefillWrites, RestoreMoves, SaveMoves, TailRetained, WholeBlocks, NumBlocks, RetainedTable;
    if op.Alloc? { WholeZero(c); }
  }

  /** Every prefix after an operation was there before, or is empty. */
  lemma EffectTraced(c: Config, m: Manager, n: Manager, op: Op)
    requires PrefixEffect(c, m, n, op) && !op.Evict?
    ensures AllTraced(c, m, n)
  {
    hide WholeBlocks, Traced;
    forall id | id in n.kv.lens && id in n.kv.evicted ensures Traced(c, m, n.kv.lens[id], n.kv.evicted[id]) {
      LiveTraced(c, m, n, op, id);
    }
    forall id | id in n.saved ensures Traced(c, m, n.saved[id].length, WholeBlocks(c, n.saved[id].evictedTokens)) {
      if op.Save? && op.id == id {
        AlignedProduct(c, m.kv.evicted[id]);
        CopyTraced(c, m, n, id);
      } else {
        CarriedCopy(c, m, n, id);
      }
    }
  }

  lemma CopyTraced(c: Config, m: Manager, n: Manager, id: int)
    requires id in m.kv.lens && id in m.kv.evicted && id in n.saved
    requires n.saved[id].length == m.kv.lens[id] && WholeBlocks(c, n.saved[id].evictedTokens) == m.kv.evicted[id]
    ensures Traced(c, m, n.saved[id].length, WholeBlocks(c, n.saved[id].evictedTokens))
  {
    assert LivePrefix(m, id, n.saved[id].length, m.kv.evicted[id]);
  }

  lemma LiveTraced(c: Config, m: Manager, n: Manager, op: Op, id: int)
    requires PrefixEffect(c, m, n, op) && !op.Evict? && id in n.kv.lens && id in n.kv.evicted
    ensures Traced(c, m, n.kv.lens[id], n.kv.evicted[id])
  {
    hide WholeBlocks;
    if op.Fork? && op.child == id {
      assert LivePrefix(m, op.parent, n.kv.lens[id], n.kv.evicted[id]);
    } else if op.Restore? && op.id == id {
      assert SavedPrefix(c, m, id, n.kv.lens[id], n.kv.evicted[id]);
    } else if !(op.Alloc? && op.id == id) {
      Carried(c, m, n, id);
    }
  }

  // ---------------------------------------------------------------- runs

  lemma RunInv(c: Config, p: CpuConfig, ws: seq<World>, steps: seq<RatioStep>, n: nat)
    requires RatioRun(c, p, ws, steps) && n < |ws|
    ensures WorldInv(c, p, ws[n]) && ws[n].m.kv.temps == map[]
    decreases n
  {
    hide Step, WorldInv, CanEvict, Asked;
    if n == 0 {
      InitialInv(c, p, ws[0]);
      NoTemporaries(c, p, ws[0]);
    } else {
      RunInv(c, p, ws, steps, n - 1);
      assert StepDone(c, ws[n - 1], ws[n - 1 + 1], steps[n - 1]);
      if ws[n] != ws[n - 1] {
        var op := if steps[n - 1].Ratio? then Evict(steps[n - 1].id, Asked(c, ws[n - 1].m.kv.lens[steps[n - 1].id], steps[n - 1].cached) * c.blockSize)
                  else steps[n - 1].op;
        StepRefines(c, p, ws[n - 1], ws[n], op);
        StepAddsNoTemps(c, ws[n - 1], ws[n], op);
      }
    }
  }

  lemma NoTemporaries(c: Config, p: CpuConfig, w: World)
    requires Initial(c, p, w)
    ensures w.m.kv.temps == map[]
  {
    LiveTemps(c, w.m.kv);
    hide Inv;
    assert forall k :: k in w.m.kv.temps ==> k.seqId in w.m.kv.lens;
  }

  lemma StepAddsNoTemps(c: Config, w: World, w': World, op: Op)
    requires Step(c, w, w', op) && w.m.kv.temps == map[]
    ensures w'.m.kv.temps == map[]
  {
    hide Inv, LeasedTemps, Recomputed, CopyList, TailPlaced, EntriesForked, WriteToken, ApplyCopies, ApplyMoves,
         PrefillWrites, RestoreMoves, SaveMoves, TailRetained, WholeBlocks, NumBlocks, RetainedTable, KeysOf;
    if op.Free? || op.Drop? {
      assert w.m.kv.temps - KeysOf(w.m.kv.temps, op.id) == w.m.kv.temps;
    }
  }

  lemma OriginWeaker(c: Config, ws: seq<World>, steps: seq<RatioStep>, n: nat, n': nat, len: nat, len': nat, prefix: nat)
    requires n <= n' <= |steps| <= |ws| && len <= len' && Origin(c, ws, steps, n, len, prefix)
    ensures Origin(c, ws, steps, n', len', prefix)
  {
    hide Asked;
    if prefix > 0 {
      var i :| 0 <= i < n && AskedBy(c, ws, steps, i, len, prefix);
      assert AskedBy(c, ws, steps, i, len', prefix);
    }
  }

  lemma TracedOrigin(c: Config, ws: seq<World>, steps: seq<RatioStep>, n: nat, len: nat, prefix: nat)
    requires n < |steps| < |ws| && Origins(c, ws, steps, n) && Traced(c, ws[n].m, len, prefix)
    ensures Origin(c, ws, steps, n + 1, len, prefix)
  {
    hide Origin, WholeBlocks;
    var m := ws[n].m;
    if id :| LivePrefix(m, id, len, prefix) {
      OriginWeaker(c, ws, steps, n, n + 1, m.kv.lens[id], len, prefix);
    } else if id :| SavedPrefix(c, m, id, len, prefix) {
      OriginWeaker(c, ws, steps, n, n + 1, m.saved[id].length, len, prefix);
    } else {
      NothingEvicted(c, ws, steps, n + 1, len);
    }
  }

  lemma NothingEvicted(c: Config, ws: seq<World>, steps: seq<RatioStep>, n: nat, len: nat)
    requires n <= |steps| <= |ws|
    ensures Origin(c, ws, steps, n, len, 0)
  {
  }

  lemma OtherOrigins(c: Config, ws: seq<World>, steps: seq<RatioStep>, n: nat)
    requires n < |steps| < |ws| && Origins(c, ws, steps, n) && AllTraced(c, ws[n].m, ws[n + 1].m)
    ensures Origins(c, ws, steps, n + 1)
  {
    hide Traced, Origin, WholeBlocks;
    var m := ws[n + 1].m;
    forall id | id in m.kv.lens && id in m.kv.evicted ensures Origin(c, ws, steps, n + 1, m.kv.lens[id], m.kv.evicted[id]) {
      TracedOrigin(c, ws, steps, n, m.kv.lens[id], m.kv.evicted[id]);
    }
    forall id | id in m.saved ensures Origin(c, ws, steps, n + 1, m.saved[id].length, WholeBlocks(c, m.saved[id].evictedTokens)) {
      TracedOrigin(c, ws, steps, n, m.saved[id].length, WholeBlocks(c, m.saved[id].evictedTokens));
    }
  }

  /** The eviction itself is the origin of the prefix it leaves. */
  lemma RatioOrigins(c: Config, p: CpuConfig, ws: seq<World>, steps: seq<RatioStep>, n: nat)
    requires RatioRun(c, p, ws, steps) && n < |steps| && steps[n].Ratio? && Origins(c, ws, steps, n)
    ensures Origins(c, ws, steps, n + 1)
  {
    hide WorldInv, Initial, CanEvict, Asked, Step, Origin, WholeBlocks;
    RatioOutcome(c, p, ws, steps, n);
    var m, m', id := ws[n].m, ws[n + 1].m, steps[n].id;
    forall i | i in m'.kv.lens && i in m'.kv.evicted ensures Origin(c, ws, steps, n + 1, m'.kv.lens[i], m'.kv.evicted[i]) {
      if i == id && ws[n + 1] != ws[n] {
        LatestOrigin(c, ws, steps, n, m'.kv.lens[i], m'.kv.evicted[i]);
      } else {
        OriginWeaker(c, ws, steps, n, n + 1, m.kv.lens[i], m.kv.lens[i], m.kv.evicted[i]);
      }
    }
    forall i | i in m'.saved ensures Origin(c, ws, steps, n + 1, m'.saved[i].length, WholeBlocks(c, m'.saved[i].evictedTokens)) {
      OriginWeaker(c, ws, steps, n, n + 1, m.saved[i].length, m.saved[i].length, WholeBlocks(c, m.saved[i].evictedTokens));
    }
  }

  lemma LatestOrigin(c: Config, ws: seq<World>, steps: seq<RatioStep>, n: nat, len: nat, prefix: nat)
    requires n < |steps| <= |ws| && AskedBy(c, ws, steps, n, len, prefix)
    ensures Origin(c, ws, steps, n + 1, len, prefix)
  {
    hide Asked;
  }

  /**
   What the eviction of a live sequence does on any run: it raises exactly when the prefix
   that is gone exceeds the one asked for, changing nothing; otherwise the asked prefix is
   gone afterwards. Either way every length stays and the other sequences' prefixes do.
   */
  lemma RatioOutcome(c: Config, p: CpuConfig, ws: seq<World>, steps: seq<RatioStep>, n: nat)
    requires RatioRun(c, p, ws, steps) && n < |steps| && steps[n].Ratio?
    ensures var m, m', id := ws[n].m, ws[n + 1].m, steps[n].id;
            && id in m.kv.lens && id in m.kv.evicted && m.kv.lens[id] > 0
            && var e := Asked(c, m.kv.lens[id], steps[n].cached);
               && (CanEvict(c, m.kv, id, e * c.blockSize) <==> m.kv.evicted[id] <= e)
               && (m.kv.evicted[id] > e ==> ws[n + 1] == ws[n])
               && (m.kv.evicted[id] <= e ==> NewestRetained(c, m'.kv, id) && m'.saved == m.saved
                                             && m'.kv.lens == m.kv.lens && m'.kv.evicted == m.kv.evicted[id := e])
  {
    hide WorldInv, Asked, NumBlocks, Inv, CanEvict, Step;
    RunInv(c, p, ws, steps, n);
    assert StepDone(c, ws[n], ws[n + 1], steps[n]);
    var w, id := ws[n], steps[n].id;
    var e := Asked(c, w.m.kv.lens[id], steps[n].cached);
    InvOf(c, p, w);
    LiveIds(c, w.m.kv);
    LengthPositive(c, w.m.kv, id);
    RatioAccepted(c, w.m.kv, id, steps[n].cached);
    if w.m.kv.evicted[id] <= e { EvictEffect(c, w, ws[n + 1], id, e); }
  }

  lemma EvictEffect(c: Config, w: World, w': World, id: int, e: nat)
    requires Step(c, w, w', Evict(id, e * c.blockSize)) && id in w.m.kv.lens && w.m.kv.lens[id] > 0
    requires ClampedBlocks(c, w.m.kv.lens[id], e * c.blockSize) == e <= (w.m.kv.lens[id] - 1) / c.blockSize
    ensures w'.m.saved == w.m.saved && w'.m.kv.lens == w.m.kv.lens && w'.m.kv.evicted == w.m.kv.evicted[id := e]
    ensures NewestRetained(c, w'.m.kv, id)
  {
    hide Inv, Span, ClampedBlocks;
  }

  /**
   On every run, each evicted prefix, of a live or of a swapped sequence, is what some
   earlier setting asked for, of that sequence or an ancestor, when it was no longer than now.
   */
  lemma {:induction false} PrefixOrigins(c: Config, p: CpuConfig, ws: seq<World>, steps: seq<RatioStep>, n: nat)
    requires RatioRun(c, p, ws, steps) && n <= |steps|
    ensures Origins(c, ws, steps, n)
  {
    hide WorldInv, RatioDone, Step, Origins, AllTraced;
    if n == 0 {
      NoOrigins(c, p, ws, steps);
    } else {
      PrefixOrigins(c, p, ws, steps, n - 1);
      assert StepDone(c, ws[n - 1], ws[n - 1 + 1], steps[n - 1]);
      if steps[n - 1].Ratio? {
        RatioOrigins(c, p, ws, steps, n - 1);
      } else {
        StepPrefixes(c, ws[n - 1], ws[n], steps[n - 1].op);
        EffectTraced(c, ws[n - 1].m, ws[n].m, steps[n - 1].op);
        OtherOrigins(c, ws, steps, n - 1);
      }
    }
  }

  lemma NoOrigins(c: Config, p: CpuConfig, ws: seq<World>, steps: seq<RatioStep>)
    requires |steps| < |ws| && Initial(c, p, ws[0])
    ensures Origins(c, ws, steps, 0)
  {
  }

  /** Step i asked under a strictly lower setting than the one given. */
  ghost predicate LowerSetting(c: Config, steps: seq<RatioStep>, i: nat, cached: int)
    requires i < |steps|
  {
    steps[i].Ratio? && ClampLayers(c, steps[i].cached) < ClampLayers(c, cached)
  }

  /**
   On every run, with any operations in between, an eviction raises exactly when more is gone
   than the setting asks for, and that takes a setting above an earlier one.
   */
  lemma RaisesAfterRise(c: Config, p: CpuConfig, ws: seq<World>, steps: seq<RatioStep>, n: nat)
    requires RatioRun(c, p, ws, steps) && n < |steps| && steps[n].Ratio?
    ensures var s, id := ws[n].m.kv, steps[n].id;
            && id in s.lens && id in s.evicted
            && var e := Asked(c, s.lens[id], steps[n].cached);
               && (!CanEvict(c, s, id, e * c.blockSize) <==> s.evicted[id] > e)
               && (s.evicted[id] > e ==> exists i :: 0 <= i < n && LowerSetting(c, steps, i, steps[n].cached))
  {
    hide WorldInv, Initial, StepDone, Asked, CanEvict, ClampLayers;
    RatioOutcome(c, p, ws, steps, n);
    PrefixOrigins(c, p, ws, steps, n);
    var s, id := ws[n].m.kv, steps[n].id;
    var len, now := s.lens[id], steps[n].cached;
    if s.evicted[id] > Asked(c, len, now) {
      assert Origin(c, ws, steps, n, len, s.evicted[id]);
      var i :| 0 <= i < n && AskedBy(c, ws, steps, i, len, s.evicted[id]);
      if ClampLayers(c, now) <= ClampLayers(c, steps[i].cached) {
        AskedMono(c, ws[i].m.kv.lens[steps[i].id], len, steps[i].cached, now);
      }
      assert LowerSetting(c, steps, i, now);
    }
  }

  /** So as long as the setting never rises no eviction raises, and each leaves the newest block. */
  lemma FallingNeverRaises(c: Config, p: CpuConfig, ws: seq<World>, steps: seq<RatioStep>, n: nat)
    requires RatioRun(c, p, ws, steps) && n < |steps| && steps[n].Ratio?
    requires forall i :: 0 <= i < n && steps[i].Ratio? ==> ClampLayers(c, steps[n].cached) <= ClampLayers(c, steps[i].cached)
    ensures var s, id := ws[n].m.kv, steps[n].id;
            id in s.lens && CanEvict(c, s, id, Asked(c, s.lens[id], steps[n].cached) * c.blockSize)
    ensures NewestRetained(c, ws[n + 1].m.kv, steps[n].id)
  {
    hide WorldInv, Initial, StepDone, Asked, CanEvict, ClampLayers, NewestRetained;
    RatioOutcome(c, p, ws, steps, n);
    RaisesAfterRise(c, p, ws, steps, n);
  }
}
