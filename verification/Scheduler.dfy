/** The default scheduling step: a budget, three queues, preemption and swapping. */
module Scheduler {
  import opened Results
  import opened SchedulerQueues

  datatype PreemptionMode = SWAP | RECOMPUTE

  /** The preemption_mode setting: not given, 'recompute', 'swap', or anything else. */
  datatype PreemptionSetting = Unset | ToRecompute | ToSwap | Unknown

  type Moves = seq<(int, int)>

  /**
   What the block manager answers during one step, and the clock: whether the prompt delay
   has passed once so many prompts were taken, whether a group can append once so many
   groups were evicted, and so on. The answers are arbitrary.
   */
  datatype Answers = Answers(
    delayPassed: nat -> bool,
    canAllocate: SeqGroup -> AllocStatus,
    canAppend: (SeqGroup, nat) -> bool,
    canSwapOut: SeqGroup -> bool,
    canSwapIn: SeqGroup -> AllocStatus,
    appends: SeqGroup -> bool,
    movesOut: SeqGroup -> Moves,
    movesIn: SeqGroup -> Moves)

  /** The moves of several groups, one group after the other. */
  ghost function AllMoves(of: SeqGroup -> Moves, q: Queue): Moves {
    if q == [] then [] else AllMoves(of, q[..|q| - 1]) + of(q[|q| - 1])
  }

  lemma MovesSnoc(of: SeqGroup -> Moves, q: Queue, g: SeqGroup)
    ensures AllMoves(of, q + [g]) == AllMoves(of, q) + of(g)
  {
    assert (q + [g])[..|q|] == q;
  }

  function ModeOf(setting: PreemptionSetting, g: SeqGroup): PreemptionMode {
    match setting
    case Unset => if g.maxRunning == 1 then RECOMPUTE else SWAP
    case ToSwap => SWAP
    case _ => RECOMPUTE
  }

  /** A group that recomputation cannot take: it runs several sequences. */
  ghost predicate Unpreemptable(setting: PreemptionSetting, g: SeqGroup) {
    setting.Unknown? || (ModeOf(setting, g) == RECOMPUTE && g.active != 1)
  }

  /** The groups of a queue that are preempted in one mode, in queue order. */
  ghost function PickMode(setting: PreemptionSetting, mode: PreemptionMode, q: Queue): Queue {
    if q == [] then [] else
    var n := |q| - 1;
    PickMode(setting, mode, q[..n]) + if ModeOf(setting, q[n]) == mode then [q[n]] else []
  }

  lemma PickSnoc(setting: PreemptionSetting, mode: PreemptionMode, q: Queue, g: SeqGroup)
    ensures PickMode(setting, mode, q + [g]) == PickMode(setting, mode, q) + if ModeOf(setting, g) == mode then [g] else []
  {
    assert (q + [g])[..|q|] == q;
  }

  lemma {:induction false} PickAppend(setting: PreemptionSetting, mode: PreemptionMode, a: Queue, b: Queue)
    ensures PickMode(setting, mode, a + b) == PickMode(setting, mode, a) + PickMode(setting, mode, b)
  {
    if b == [] {
      assert a + b == a;
    } else {
      assert (a + b)[..|a + b| - 1] == a + b[..|b| - 1];
      PickAppend(setting, mode, a, b[..|b| - 1]);
    }
  }

  lemma PickOne(setting: PreemptionSetting, mode: PreemptionMode, g: SeqGroup)
    ensures PickMode(setting, mode, [g]) == if ModeOf(setting, g) == mode then [g] else []
    ensures Reverse(PickMode(setting, mode, [g])) == PickMode(setting, mode, [g])
  {
    assert [g][..0] == [] && [g][1..] == [];
  }

  /** Picking from a reversed queue and reversing again is picking from the queue. */
  lemma {:induction false} ReversePick(setting: PreemptionSetting, mode: PreemptionMode, q: Queue)
    ensures Reverse(PickMode(setting, mode, Reverse(q))) == PickMode(setting, mode, q)
  {
    hide ModeOf, PickMode;
    if q == [] {
      NothingPicked(setting);
    } else {
      var rest, one := q[1..], [q[0]];
      assert q == one + rest && Reverse(q) == Reverse(rest) + one;
      ReversePick(setting, mode, rest);
      PickAppend(setting, mode, Reverse(rest), one);
      ReverseAppend(PickMode(setting, mode, Reverse(rest)), PickMode(setting, mode, one));
      PickOne(setting, mode, q[0]);
      PickAppend(setting, mode, one, rest);
    }
  }

  lemma {:induction false} PickBag(setting: PreemptionSetting, q: Queue)
    ensures multiset(q) == multiset(PickMode(setting, RECOMPUTE, q)) + multiset(PickMode(setting, SWAP, q))
  {
    hide ModeOf, PickMode;
    if q == [] {
      NothingPicked(setting);
    } else {
      var n := |q| - 1;
      PickBag(setting, q[..n]);
      PickSnoc(setting, RECOMPUTE, q[..n], q[n]);
      PickSnoc(setting, SWAP, q[..n], q[n]);
      assert q == q[..n] + [q[n]];
    }
  }

  lemma NothingPicked(setting: PreemptionSetting)
    ensures forall mode :: PickMode(setting, mode, []) == []
  {
  }

  /** q interleaves a and b. */
  ghost predicate Merges(q: Queue, a: Queue, b: Queue) {
    if q == [] then a == [] && b == [] else
    var g := q[|q| - 1];
    || (a != [] && a[|a| - 1] == g && Merges(q[..|q| - 1], a[..|a| - 1], b))
    || (b != [] && b[|b| - 1] == g && Merges(q[..|q| - 1], a, b[..|b| - 1]))
  }

  lemma MergesSnoc(q: Queue, a: Queue, b: Queue, g: SeqGroup)
    requires Merges(q, a, b)
    ensures Merges(q + [g], a + [g], b) && Merges(q + [g], a, b + [g])
  {
    assert (q + [g])[..|q|] == q && (a + [g])[..|a|] == a && (b + [g])[..|b|] == b;
  }

  lemma {:induction false} MergesBag(q: Queue, a: Queue, b: Queue)
    requires Merges(q, a, b)
    ensures multiset(q) == multiset(a) + multiset(b)
    decreases |q|
  {
    if q != [] {
      var g := q[|q| - 1];
      assert q == q[..|q| - 1] + [g];
      if a != [] && a[|a| - 1] == g && Merges(q[..|q| - 1], a[..|a| - 1], b) {
        MergesBag(q[..|q| - 1], a[..|a| - 1], b);
        assert a == a[..|a| - 1] + [g];
      } else {
        MergesBag(q[..|q| - 1], a, b[..|b| - 1]);
        assert b == b[..|b| - 1] + [g];
      }
    }
  }

  // ---------------------------------------------------------------- the budget

  class SchedulingBudget {
    const tokenBudget: int
    const maxNumSeqs: int
    var tokenIds: set<int>
    var seqIds: set<int>
    var numBatchedTokens: int
    var numCurrSeqs: int

    constructor (tokens: int, seqs: int)
      ensures tokenBudget == tokens && maxNumSeqs == seqs
      ensures tokenIds == {} && seqIds == {} && numBatchedTokens == 0 && numCurrSeqs == 0
    {
      tokenBudget, maxNumSeqs := tokens, seqs;
      tokenIds, seqIds, numBatchedTokens, numCurrSeqs := {}, {}, 0, 0;
    }

    method CanSchedule(newTokens: int, newSeqs: int) returns (r: Result<bool>)
      ensures r.Ok? <==> newTokens != 0 && newSeqs != 0
      ensures r.Err? ==> r.error == AssertionError
      ensures r.Ok? ==> (r.value <==> numBatchedTokens + newTokens <= tokenBudget && numCurrSeqs + newSeqs <= maxNumSeqs)
    {
      if newTokens == 0 || newSeqs == 0 {
        return Err(AssertionError);
      }
      return Ok(numBatchedTokens + newTokens <= tokenBudget && numCurrSeqs + newSeqs <= maxNumSeqs);
    }

    /** A request is charged once, whatever it is charged later. */
    method AddNumBatchedTokens(id: int, n: int)
      modifies this`tokenIds, this`numBatchedTokens
      ensures tokenIds == old(tokenIds) + {id}
      ensures numBatchedTokens == old(numBatchedTokens) + if id in old(tokenIds) then 0 else n
    {
      if id in tokenIds {
        return;
      }
      tokenIds := tokenIds + {id};
      numBatchedTokens := numBatchedTokens + n;
    }

    method SubtractNumBatchedTokens(id: int, n: int)
      modifies this`tokenIds, this`numBatchedTokens
      ensures tokenIds == old(tokenIds) - {id}
      ensures numBatchedTokens == old(numBatchedTokens) - if id in old(tokenIds) then n else 0
    {
      if id in tokenIds {
        tokenIds := tokenIds - {id};
        numBatchedTokens := numBatchedTokens - n;
      }
    }

    method AddNumSeqs(id: int, n: int)
      modifies this`seqIds, this`numCurrSeqs
      ensures seqIds == old(seqIds) + {id}
      ensures numCurrSeqs == old(numCurrSeqs) + if id in old(seqIds) then 0 else n
    {
      if id in seqIds {
        return;
      }
      seqIds := seqIds + {id};
      numCurrSeqs := numCurrSeqs + n;
    }

    method SubtractNumSeqs(id: int, n: int)
      modifies this`seqIds, this`numCurrSeqs
      ensures seqIds == old(seqIds) - {id}
      ensures numCurrSeqs == old(numCurrSeqs) - if id in old(seqIds) then n else 0
    {
      if id in seqIds {
        seqIds := seqIds - {id};
        numCurrSeqs := numCurrSeqs - n;
      }
    }
  }

  // ---------------------------------------------------------------- outcomes

  datatype RunningOutputs = RunningOutputs(decode: Queue, preempted: Queue, swappedOut: Queue, blocksToSwapOut: Moves)

  datatype PrefillOutputs = PrefillOutputs(remaining: Queue, seqGroups: Queue, ignored: Queue)

  datatype SwappedInOutputs = SwappedInOutputs(remaining: Queue, decode: Queue, infeasible: Queue, blocksToSwapIn: Moves)

  datatype SchedulerOutputs = SchedulerOutputs(
    scheduled: Queue,
    numPrefillGroups: nat,
    numBatchedTokens: int,
    blocksToSwapIn: Moves,
    blocksToSwapOut: Moves,
    ignored: Queue,
    preempted: nat)

  /** What the running phase makes of a sorted queue: a prefix runs on, the rest is evicted from the back. */
  ghost predicate Preempted(setting: PreemptionSetting, sorted: Queue, k: nat, o: RunningOutputs) {
    && k <= |sorted| && o.decode == sorted[..k]
    && o.preempted == PickMode(setting, RECOMPUTE, Reverse(sorted[k..]))
    && o.swappedOut == PickMode(setting, SWAP, Reverse(sorted[k..]))
    && (o.swappedOut == [] ==> o.blocksToSwapOut == [])
  }

  // ---------------------------------------------------------------- why a step did what it did

  /** However many groups from a up to b were evicted, this one could not append. */
  ghost predicate NoRoom(m: Answers, g: SeqGroup, a: nat, b: nat) {
    forall n: nat :: a <= n < b ==> !m.canAppend(g, n)
  }

  /** A running group that goes on: groups are evicted until it can append, and no longer. */
  ghost predicate Turn(m: Answers, g: SeqGroup, a: nat, b: nat) {
    a <= b && NoRoom(m, g, a, b) && m.canAppend(g, b) && m.appends(g)
  }

  /**
   Why the first k groups run on and the others are evicted: turns[i] groups had been
   evicted when group i had its turn, each for a group that could not append, and group k,
   if there is one, could not append even when all behind it were gone.
   */
  ghost predicate RunningAnswered(m: Answers, sorted: Queue, k: nat, turns: seq<nat>) {
    && |turns| == k + 1 && turns[0] == 0 && k + turns[k] <= |sorted|
    && (forall i :: 0 <= i < k ==> Turn(m, sorted[i], turns[i], turns[i + 1]))
    && (k < |sorted| ==> NoRoom(m, sorted[k], turns[k], |sorted| - k))
  }

  /** A prompt that no step could take. */
  ghost predicate NeverFits(m: Answers, modelLen: int, maxTokens: int, g: SeqGroup) {
    g.len > modelLen || g.len > maxTokens || m.canAllocate(g) == NEVER
  }

  /**
   Why just j prompts were taken, with what was charged so far: each was refused or accepted
   on its own merits, and the next one, if there is one, has to wait.
   */
  ghost predicate PromptsAnswered(m: Answers, modelLen: int, maxTokens: int, maxSeqs: int, q: Queue, j: nat,
                                  accepted: Queue, refused: Queue, tokens: int, seqs: int) {
    && j <= |q| && (forall i :: 0 <= i < j ==> m.delayPassed(i))
    && (forall g :: g in accepted ==> !NeverFits(m, modelLen, maxTokens, g) && m.canAllocate(g) == OK)
    && (forall g :: g in refused ==> NeverFits(m, modelLen, maxTokens, g))
    && (j < |q| ==>
          || !m.delayPassed(j)
          || (!NeverFits(m, modelLen, maxTokens, q[j])
              && (m.canAllocate(q[j]) == LATER || tokens + q[j].len > maxTokens || seqs + q[j].maxRunning > maxSeqs)))
  }

  /** The same for swapped groups. */
  ghost predicate SwapsAnswered(m: Answers, maxTokens: int, maxSeqs: int, q: Queue, j: nat,
                                accepted: Queue, refused: Queue, tokens: int, seqs: int) {
    && j <= |q|
    && (forall g :: g in accepted ==> m.canSwapIn(g) == OK && m.appends(g))
    && (forall g :: g in refused ==> m.canSwapIn(g) == NEVER)
    && (j < |q| ==>
          || m.canSwapIn(q[j]) == LATER
          || (m.canSwapIn(q[j]) == OK && (tokens + q[j].active > maxTokens || seqs + q[j].maxRunning > maxSeqs)))
  }

  /** The groups evicted so far, by mode, and the blocks to swap out for them. */
  datatype Evictions = Evictions(preempted: Queue, swappedOut: Queue, blocks: Moves)

  /** The eviction lists hold the evicted groups, in eviction order. */
  ghost predicate Evicted(m: Answers, setting: PreemptionSetting, evicted: Queue, e: Evictions) {
    && e.preempted == PickMode(setting, RECOMPUTE, evicted)
    && e.swappedOut == PickMode(setting, SWAP, evicted)
    && e.blocks == AllMoves(m.movesOut, e.swappedOut)
    && |e.preempted| + |e.swappedOut| == |evicted|
    && forall g :: g in evicted ==> !Unpreemptable(setting, g)
  }

  /** The group has to be swapped out and the CPU has no room for it, or its append raises. */
  ghost predicate Stuck(m: Answers, setting: PreemptionSetting, g: SeqGroup) {
    (ModeOf(setting, g) == SWAP && !m.canSwapOut(g)) || !m.appends(g)
  }

  /** Which groups of a queue can make the running phase raise. */
  ghost predicate RaisedBy(m: Answers, setting: PreemptionSetting, q: Queue, error: Error) {
    || (error == AssertionError && exists g :: g in q && Unpreemptable(setting, g))
    || (error == RuntimeError && exists g :: g in q && Stuck(m, setting, g))
  }

  /** What a step charges: new groups join only within the batch and the token budget. */
  ghost predicate Budgeted(maxTokens: int, batchSize: int, q': Queue, o: SchedulerOutputs, step: Step) {
    if o.numPrefillGroups > 0 then
      MaxRunning(q') <= batchSize && o.numBatchedTokens == Prompts(o.scheduled) <= maxTokens
    else
      && o.numBatchedTokens == Active(q')
      && (|q'| > step.kept ==> MaxRunning(q') <= batchSize && o.numBatchedTokens <= maxTokens)
  }

  /** What the clock said when each queue was sorted. */
  datatype Clock = Clock(waiting: real, running: real, swapped: real)

  /** How far one step went: prompts taken, running groups kept, swapped groups taken, and the evictions at each turn. */
  datatype Step = Step(taken: nat, kept: nat, restored: nat, turns: seq<nat>)

  /** Prompts were admitted: they join the running groups, and nothing else moves. */
  ghost predicate PromptStep(w: Queue, q: Queue, s: Queue, w': Queue, q': Queue, s': Queue, o: SchedulerOutputs, step: Step) {
    && s == s' == [] && Taken(w, step.taken, w', o.scheduled, o.ignored)
    && |o.scheduled| == o.numPrefillGroups && q' == q + o.scheduled
    && o.preempted == 0 && o.blocksToSwapIn == o.blocksToSwapOut == []
  }

  /**
   No prompt was admitted. The sorted running queue splits in two: its front runs on,
   and its back is evicted. Recomputed victims go to the front of the waiting queue in
   priority order, swapped ones to the back of the swapped queue, last first.
   */
  ghost predicate DecodeStep(setting: PreemptionSetting, policy: PolicyName, clock: Clock, w: Queue, q: Queue, s: Queue,
                             w': Queue, q': Queue, s': Queue, o: SchedulerOutputs, step: Step) {
    var sorted := SortByPriority(policy, clock.running, 0.5, q);
    && o.numPrefillGroups == 0 && step.taken <= |w| && (s != [] ==> step.taken == 0) && step.kept <= |sorted|
    && w' == PickMode(setting, RECOMPUTE, sorted[step.kept..]) + w[step.taken..]
    && q' == o.scheduled && sorted[..step.kept] <= q'
    && o.preempted == |sorted| - step.kept
    && (forall g :: g in PickMode(setting, RECOMPUTE, sorted[step.kept..]) ==> !Unpreemptable(setting, g))
    && if step.kept < |sorted| then
         q' == sorted[..step.kept] && s' == s + PickMode(setting, SWAP, Reverse(sorted[step.kept..]))
         && o.ignored == w[..step.taken] && o.blocksToSwapIn == []
       else
         w[..step.taken] <= o.ignored && o.blocksToSwapOut == []
         && Taken(SortByPriority(policy, clock.swapped, 0.5, s), step.restored, s', q'[|sorted|..], o.ignored[step.taken..])
  }

  ghost predicate Stepped(setting: PreemptionSetting, policy: PolicyName, clock: Clock, w: Queue, q: Queue, s: Queue,
                          w': Queue, q': Queue, s': Queue, o: SchedulerOutputs, step: Step) {
    if o.numPrefillGroups > 0 then PromptStep(w, q, s, w', q', s', o, step)
    else DecodeStep(setting, policy, clock, w, q, s, w', q', s', o, step)
  }

  /**
   The manager's answers explain the whole step: which prompts were taken and refused and
   why no more, which running groups go on and why the others do not, and the same for the
   swapped groups, together with the moves that the manager gave for each group.
   */
  ghost predicate Explained(m: Answers, modelLen: int, maxTokens: int, batchSize: int, setting: PreemptionSetting,
                            policy: PolicyName, clock: Clock, w: Queue, q: Queue, s: Queue, q': Queue,
                            o: SchedulerOutputs, step: Step) {
    var prompts := if o.numPrefillGroups > 0 then o.scheduled else [];
    var sorted := SortByPriority(policy, clock.running, 0.5, q);
    && step.taken <= |o.ignored| + |prompts|
    && (s == [] ==> step.taken >= |prompts|
                    && PromptsAnswered(m, modelLen, maxTokens, batchSize, w, step.taken, prompts, o.ignored[..step.taken - |prompts|],
                                       Prompts(prompts), MaxRunning(q) + MaxRunning(prompts)))
    && (o.numPrefillGroups == 0 ==>
          && step.kept <= |sorted| <= |q'| + (|sorted| - step.kept) && RunningAnswered(m, sorted, step.kept, step.turns)
          && o.blocksToSwapOut == AllMoves(m.movesOut, PickMode(setting, SWAP, Reverse(sorted[step.kept..])))
          && (step.kept == |sorted| ==>
                && o.blocksToSwapIn == AllMoves(m.movesIn, q'[step.kept..])
                && SwapsAnswered(m, maxTokens, batchSize, SortByPriority(policy, clock.swapped, 0.5, s), step.restored,
                                 q'[step.kept..], o.ignored[step.taken..], o.numBatchedTokens,
                                 MaxRunning(q) + MaxRunning(q'[step.kept..]))))
  }

  /** What the prompt phase leaves, with what it charged. */
  ghost predicate PromptPhase(m: Answers, modelLen: int, maxTokens: int, batchSize: int, w: Queue, q: Queue, s: Queue,
                              p: PrefillOutputs, taken: nat, tokens: int) {
    && Taken(w, taken, p.remaining, p.seqGroups, p.ignored)
    && (s != [] ==> taken == 0 && p.seqGroups == [])
    && (s == [] ==> PromptsAnswered(m, modelLen, maxTokens, batchSize, w, taken, p.seqGroups, p.ignored,
                                    Prompts(p.seqGroups), MaxRunning(q) + MaxRunning(p.seqGroups)))
    && tokens == Prompts(p.seqGroups)
    && (p.seqGroups != [] ==> MaxRunning(q) + MaxRunning(p.seqGroups) <= batchSize && tokens <= maxTokens)
  }

  /** What the running and swapped phases leave. */
  ghost predicate DecodePhase(m: Answers, maxTokens: int, batchSize: int, setting: PreemptionSetting, policy: PolicyName, clock: Clock,
                              q: Queue, s: Queue, run: RunningOutputs, back: SwappedInOutputs, step: Step, tokens: int) {
    && Preempted(setting, SortByPriority(policy, clock.running, 0.5, q), step.kept, run)
    && RunningAnswered(m, SortByPriority(policy, clock.running, 0.5, q), step.kept, step.turns)
    && run.blocksToSwapOut == AllMoves(m.movesOut, run.swappedOut) && back.blocksToSwapIn == AllMoves(m.movesIn, back.decode)
    && tokens == Active(run.decode) + Active(back.decode)
    && (forall g :: g in run.preempted ==> !Unpreemptable(setting, g))
    && if |run.preempted| + |run.swappedOut| > 0 then back == SwappedInOutputs(s, [], [], [])
       else
         && Taken(SortByPriority(policy, clock.swapped, 0.5, s), step.restored, back.remaining, back.decode, back.infeasible)
         && SwapsAnswered(m, maxTokens, batchSize, SortByPriority(policy, clock.swapped, 0.5, s), step.restored,
                          back.decode, back.infeasible, tokens, MaxRunning(q) + MaxRunning(back.decode))
         && (back.decode != [] ==> MaxRunning(q) + MaxRunning(back.decode) <= batchSize && tokens <= maxTokens)
  }

  class Scheduler {
    const maxNumBatchedTokens: int
    const maxNumSeqs: int
    const maxModelLen: int
    const preemptionMode: PreemptionSetting
    const policy: PolicyName
    const wtWeight: real
    var waiting: Queue
    var running: Queue
    var swapped: Queue
    var numCumulativePreemption: nat

    constructor (tokens: int, seqs: int, modelLen: int, setting: PreemptionSetting, name: PolicyName, weight: real)
      requires 0 <= seqs <= tokens
      ensures maxNumBatchedTokens == tokens && maxNumSeqs == seqs && maxModelLen == modelLen
      ensures preemptionMode == setting && policy == name && wtWeight == weight
      ensures waiting == [] && running == [] && swapped == [] && Valid()
    {
      maxNumBatchedTokens, maxNumSeqs, maxModelLen := tokens, seqs, modelLen;
      preemptionMode, policy, wtWeight := setting, name, weight;
      waiting, running, swapped, numCumulativePreemption := [], [], [], 0;
      new;
      NothingQueued();
    }

    ghost predicate Valid()
      reads this
    {
      maxNumSeqs <= maxNumBatchedTokens && QueuesOk(maxNumSeqs, waiting, running, swapped)
    }

    // -------------------------------------------------------------- preemption

    /**
     Evicts one group. Without a setting, exactly the groups that may run one sequence are
     recomputed; the CPU needs room for a group that is swapped out.
     */
    method Preempt(m: Answers, g: SeqGroup) returns (r: Result<PreemptionMode>, moves: Moves)
      modifies this`numCumulativePreemption
      ensures r == Ok(RECOMPUTE) <==> g.active == 1 && (preemptionMode.ToRecompute? || (preemptionMode.Unset? && g.maxRunning == 1))
      ensures r == Ok(SWAP) <==> m.canSwapOut(g) && (preemptionMode.ToSwap? || (preemptionMode.Unset? && g.maxRunning != 1))
      ensures r == Err(RuntimeError) <==> !m.canSwapOut(g) && (preemptionMode.ToSwap? || (preemptionMode.Unset? && g.maxRunning != 1))
      ensures r.Err? ==> r.error == RuntimeError || r.error == AssertionError
      ensures moves == if r == Ok(SWAP) then m.movesOut(g) else []
      ensures r.Ok? ==> r.value == ModeOf(preemptionMode, g) && !Unpreemptable(preemptionMode, g)
      ensures r == Err(AssertionError) <==> Unpreemptable(preemptionMode, g)
      ensures r == Err(RuntimeError) ==> Stuck(m, preemptionMode, g)
      ensures numCumulativePreemption == old(numCumulativePreemption) + if preemptionMode.Unknown? then 0 else 1
    {
      moves := [];
      if preemptionMode.Unknown? {
        return Err(AssertionError), moves;
      }
      numCumulativePreemption := numCumulativePreemption + 1;
      if ModeOf(preemptionMode, g) == RECOMPUTE {
        if g.active != 1 {
          return Err(AssertionError), moves;
        }
        return Ok(RECOMPUTE), moves;
      }
      if !m.canSwapOut(g) {
        return Err(RuntimeError), moves;
      }
      return Ok(SWAP), m.movesOut(g);
    }

    /** Evicts from the back of the queue, at last the group itself, until the group's next tokens fit. */
    method MakeRoom(m: Answers, g: SeqGroup, queue: Queue, budget: SchedulingBudget, before: Evictions, ghost done: Queue)
      returns (r: Result<bool>, rest: Queue, e: Evictions, ghost evicted: Queue)
      requires Evicted(m, preemptionMode, done, before) && g.id !in budget.tokenIds
      modifies budget, this`numCumulativePreemption
      ensures r.Ok? ==> Evicted(m, preemptionMode, done + evicted, e)
      ensures r.Ok? ==> [g] + queue == (if r.value then [g] else []) + rest + Reverse(evicted)
      ensures r.Ok? && !r.value ==> rest == []
      ensures r.Ok? ==> NoRoom(m, g, |done|, |done| + |evicted|) && (r.value ==> m.canAppend(g, |done| + |evicted|))
      ensures budget.tokenIds == old(budget.tokenIds) && budget.numBatchedTokens == old(budget.numBatchedTokens)
      ensures budget.numCurrSeqs <= old(budget.numCurrSeqs)
      ensures r.Ok? && evicted == [] ==> budget.numCurrSeqs == old(budget.numCurrSeqs) && budget.seqIds == old(budget.seqIds)
      ensures r.Err? ==> RaisedBy(m, preemptionMode, [g] + queue, r.error)
    {
      hide Unpreemptable, ModeOf, Evicted, Reverse, RaisedBy, RoomMade, Stuck;
      rest, e, evicted := queue, before, [];
      NoRoomYet(g, queue, done);
      EvictedCount(m, preemptionMode, done, before);
      var count := |before.preempted| + |before.swappedOut|;
      var selfPreempted := false;
      while !m.canAppend(g, count)
        invariant !selfPreempted && RoomMade(g, queue, true, rest, evicted)
        invariant Evicted(m, preemptionMode, done + evicted, e)
        invariant count == |done| + |evicted| && NoRoom(m, g, |done|, count)
        invariant budget.tokenIds == old(budget.tokenIds) && budget.numBatchedTokens == old(budget.numBatchedTokens)
        invariant budget.numCurrSeqs <= old(budget.numCurrSeqs)
        invariant evicted == [] ==> budget.numCurrSeqs == old(budget.numCurrSeqs) && budget.seqIds == old(budget.seqIds)
        decreases |rest|
      {
        budget.SubtractNumBatchedTokens(g.id, g.active);
        budget.SubtractNumSeqs(g.id, g.maxRunning);
        var victim := if rest != [] then rest[|rest| - 1] else g;
        NextVictim(g, queue, rest, evicted, victim);
        var mode, moves := Preempt(m, victim);
        if mode.Err? {
          Raised(m, preemptionMode, [g] + queue, victim, mode.error);
          return Err(mode.error), rest, e, evicted;
        }
        OneMoreEvicted(m, preemptionMode, done + evicted, e, victim);
        if mode.value == RECOMPUTE {
          e := e.(preempted := e.preempted + [victim]);
        } else {
          e := e.(swappedOut := e.swappedOut + [victim], blocks := e.blocks + moves);
        }
        SnocAssoc(done, evicted, victim);
        evicted, count := evicted + [victim], count + 1;
        if rest != [] {
          rest := rest[..|rest| - 1];
        } else {
          selfPreempted := true;
          break;
        }
      }
      MadeRoom(g, queue, !selfPreempted, rest, evicted);
      return Ok(!selfPreempted), rest, e, evicted;
    }

    /** Decides which running groups go on, evicting from the back of the sorted queue for those at the front. */
    method ScheduleRunning(m: Answers, runningQueue: Queue, budget: SchedulingBudget, now: real)
      returns (r: Result<RunningOutputs>, ghost k: nat, ghost turns: seq<nat>)
      requires Covered(runningQueue) && Once(IdBag(runningQueue)) && Ids(runningQueue) !! budget.tokenIds
      modifies budget, this`numCumulativePreemption
      ensures r.Ok? ==> Preempted(preemptionMode, SortByPriority(policy, now, 0.5, runningQueue), k, r.value)
      ensures r.Ok? ==> RunningAnswered(m, SortByPriority(policy, now, 0.5, runningQueue), k, turns)
      ensures r.Ok? ==> r.value.blocksToSwapOut == AllMoves(m.movesOut, r.value.swappedOut)
      ensures r.Ok? ==> forall g :: g in r.value.preempted || g in r.value.swappedOut ==> !Unpreemptable(preemptionMode, g)
      ensures r.Ok? ==> budget.numBatchedTokens == old(budget.numBatchedTokens) + Active(r.value.decode)
                        && budget.tokenIds == old(budget.tokenIds) + Ids(r.value.decode)
      ensures budget.numCurrSeqs <= old(budget.numCurrSeqs)
      ensures r.Ok? && r.value.preempted == r.value.swappedOut == [] ==>
                k == |runningQueue| && budget.numCurrSeqs == old(budget.numCurrSeqs) && budget.seqIds == old(budget.seqIds)
                && r.value.blocksToSwapOut == []
      ensures r.Err? ==> RaisedBy(m, preemptionMode, runningQueue, r.error)
    {
      hide Unpreemptable, ModeOf, Evicted, RaisedBy, Reverse, Laid, Covered, Once, IdBag, Ids, DistinctIds, Active, PickMode,
           SortByPriority, MaxRunning, Answered, AllMoves, RunningAnswered, NoRoom, Turn;
      var queue := SortByPriority(policy, now, 0.5, runningQueue);
      ghost var sorted := queue;
      SortedQueue(policy, now, 0.5, runningQueue);
      StartLaid(sorted);
      var decode: Queue, e: Evictions := [], Evictions([], [], []);
      ghost var evicted: Queue := [];
      turns := [0];
      NothingReversed();
      NothingEvicted(m, preemptionMode);
      NothingAnswered(m, sorted, []);
      while queue != []
        invariant Laid(sorted, decode, queue, evicted)
        invariant Evicted(m, preemptionMode, evicted, e)
        invariant Answered(m, sorted, decode, turns, |evicted|, queue != [])
        invariant budget.numBatchedTokens == old(budget.numBatchedTokens) + Active(decode)
        invariant budget.tokenIds == old(budget.tokenIds) + Ids(decode)
        invariant budget.numCurrSeqs <= old(budget.numCurrSeqs)
        invariant evicted == [] ==> budget.numCurrSeqs == old(budget.numCurrSeqs) && budget.seqIds == old(budget.seqIds)
        decreases |queue|
      {
        var g := queue[0];
        ghost var tail := queue;
        queue := queue[1..];
        FreshGroup(sorted, decode, tail, evicted, old(budget.tokenIds));
        var room;
        ghost var more;
        room, queue, e, more := MakeRoom(m, g, queue, budget, e, evicted);
        if room.Err? {
          RaisedInPart(m, preemptionMode, sorted, decode, tail, evicted, runningQueue, room.error);
          return Err(room.error), 0, turns;
        }
        if room.value && !m.appends(g) {
          AppendRaised(m, preemptionMode, sorted, decode, tail, evicted, runningQueue);
          return Err(RuntimeError), 0, turns;
        }
        RegroupEvicted(sorted, decode, tail, evicted, g, room.value, queue, more);
        NextAnswered(m, sorted, decode, tail, evicted, turns, room.value, |more|);
        evicted := evicted + more;
        if room.value {
          turns := turns + [|evicted|];
          IdsSnoc(decode, g);
          ActiveSnoc(decode, g);
          decode := decode + [g];
          budget.AddNumBatchedTokens(g.id, g.active);
        }
      }
      k := |decode|;
      SplitQueue(sorted, decode, evicted);
      AllAnswered(m, sorted, decode, evicted, turns);
      if e.preempted == e.swappedOut == [] { NoneEvicted(m, preemptionMode, evicted, e); }
      EvictedPicked(m, preemptionMode, evicted, e);
      return Ok(RunningOutputs(decode, e.preempted, e.swappedOut, e.blocks)), k, turns;
    }

    // -------------------------------------------------------------- prompts

    function PromptLimit(): int {
      if maxModelLen < maxNumBatchedTokens then maxModelLen else maxNumBatchedTokens
    }

    /** Admits prompts from the front of the waiting queue while they fit; refuses those that never will. */
    method SchedulePrefills(m: Answers, waitingQueue: Queue, budget: SchedulingBudget) returns (r: Result<PrefillOutputs>, ghost j: nat)
      requires DistinctIds(waitingQueue) && Ids(waitingQueue) !! budget.seqIds && Ids(waitingQueue) !! budget.tokenIds
      modifies budget
      ensures r.Ok? ==> Taken(waitingQueue, j, r.value.remaining, r.value.seqGroups, r.value.ignored)
      ensures r.Ok? ==> budget.numBatchedTokens == old(budget.numBatchedTokens) + Prompts(r.value.seqGroups)
                        && budget.numCurrSeqs == old(budget.numCurrSeqs) + MaxRunning(r.value.seqGroups)
      ensures r.Ok? && r.value.seqGroups != [] ==>
                budget.numBatchedTokens <= budget.tokenBudget && budget.numCurrSeqs <= budget.maxNumSeqs
      ensures r.Ok? && r.value.seqGroups == [] ==> budget.seqIds == old(budget.seqIds) && budget.tokenIds == old(budget.tokenIds)
      ensures r.Ok? ==> forall g :: g in r.value.seqGroups ==> IsPrompt(g)
      ensures r.Ok? && budget.tokenBudget == maxNumBatchedTokens ==>
                PromptsAnswered(m, maxModelLen, maxNumBatchedTokens, budget.maxNumSeqs, waitingQueue, j,
                                r.value.seqGroups, r.value.ignored, budget.numBatchedTokens, budget.numCurrSeqs)
      ensures r.Err? ==> r.error == AssertionError && exists g :: g in waitingQueue && !IsPrompt(g)
    {
      hide Merges, DistinctIds, Ids, Prompts, MaxRunning, NeverFits;
      var queue, seqGroups: Queue, ignored: Queue := waitingQueue, [], [];
      j := 0;
      var j': nat := 0;
      NothingTaken(waitingQueue);
      while m.delayPassed(j') && queue != []
        invariant j == j' <= |waitingQueue| && queue == waitingQueue[j..] && Merges(waitingQueue[..j], seqGroups, ignored)
        invariant budget.numBatchedTokens == old(budget.numBatchedTokens) + Prompts(seqGroups)
        invariant budget.numCurrSeqs == old(budget.numCurrSeqs) + MaxRunning(seqGroups)
        invariant budget.seqIds == old(budget.seqIds) + Ids(seqGroups) && budget.tokenIds == old(budget.tokenIds) + Ids(seqGroups)
        invariant Ids(seqGroups) <= Ids(waitingQueue[..j])
        invariant seqGroups != [] ==> budget.numBatchedTokens <= budget.tokenBudget && budget.numCurrSeqs <= budget.maxNumSeqs
        invariant forall g :: g in seqGroups ==> IsPrompt(g)
        invariant PromptsSettled(m, maxModelLen, maxNumBatchedTokens, j, seqGroups, ignored)
        decreases |queue|
      {
        var g := queue[0];
        NextTaken(waitingQueue, j, seqGroups, ignored);
        NextSettled(m, maxModelLen, maxNumBatchedTokens, j, seqGroups, ignored, g);
        if g.active != 1 || g.len == 0 {
          return Err(AssertionError), j;
        }
        if g.len > PromptLimit() {
          ignored, queue, j, j' := ignored + [g], queue[1..], j + 1, j' + 1;
          continue;
        }
        if m.canAllocate(g) == LATER {
          break;
        }
        if m.canAllocate(g) == NEVER {
          ignored, queue, j, j' := ignored + [g], queue[1..], j + 1, j' + 1;
          continue;
        }
        var fits := budget.CanSchedule(g.len, g.maxRunning);
        if fits.Err? {
          return Err(AssertionError), j;
        }
        if !fits.value {
          break;
        }
        FreshPrompt(waitingQueue, j, seqGroups);
        budget.AddNumBatchedTokens(g.id, g.len);
        budget.AddNumSeqs(g.id, g.maxRunning);
        SumsSnoc(seqGroups, g);
        IdsSnoc(seqGroups, g);
        seqGroups, queue, j, j' := seqGroups + [g], queue[1..], j + 1, j' + 1;
      }
      NothingSummed();
      return Ok(PrefillOutputs(queue, seqGroups, ignored)), j;
    }

    // -------------------------------------------------------------- swapped groups

    /** Brings swapped groups back, by priority, while they fit. */
    method ScheduleSwapped(m: Answers, swappedQueue: Queue, budget: SchedulingBudget, now: real) returns (r: Result<SwappedInOutputs>, ghost j: nat)
      requires Covered(swappedQueue) && Once(IdBag(swappedQueue))
      requires Ids(swappedQueue) !! budget.seqIds && Ids(swappedQueue) !! budget.tokenIds
      modifies budget
      ensures r.Ok? ==> Taken(SortByPriority(policy, now, 0.5, swappedQueue), j, r.value.remaining, r.value.decode, r.value.infeasible)
      ensures r.Ok? ==> budget.numBatchedTokens == old(budget.numBatchedTokens) + Active(r.value.decode)
                        && budget.numCurrSeqs == old(budget.numCurrSeqs) + MaxRunning(r.value.decode)
      ensures r.Ok? && r.value.decode != [] ==>
                budget.numBatchedTokens <= budget.tokenBudget && budget.numCurrSeqs <= budget.maxNumSeqs
      ensures r.Ok? ==> r.value.blocksToSwapIn == AllMoves(m.movesIn, r.value.decode)
      ensures r.Ok? ==> SwapsAnswered(m, budget.tokenBudget, budget.maxNumSeqs, SortByPriority(policy, now, 0.5, swappedQueue), j,
                                      r.value.decode, r.value.infeasible, budget.numBatchedTokens, budget.numCurrSeqs)
      ensures r.Err? ==> r.error == RuntimeError && exists g :: g in swappedQueue && m.canSwapIn(g) == OK && !m.appends(g)
    {
      hide Merges, DistinctIds, Ids, Prompts, Active, MaxRunning, Covered, Once, IdBag, SortByPriority, AllMoves;
      var queue := SortByPriority(policy, now, 0.5, swappedQueue);
      ghost var sorted := queue;
      SortedQueue(policy, now, 0.5, swappedQueue);
      var decode: Queue, infeasible: Queue, blocks: Moves := [], [], [];
      j := 0;
      NothingTaken(sorted);
      NothingMoved(m.movesIn);
      while queue != []
        invariant j <= |sorted| && queue == sorted[j..] && Merges(sorted[..j], decode, infeasible)
        invariant budget.numBatchedTokens == old(budget.numBatchedTokens) + Active(decode)
        invariant budget.numCurrSeqs == old(budget.numCurrSeqs) + MaxRunning(decode)
        invariant budget.seqIds == old(budget.seqIds) + Ids(decode) && budget.tokenIds == old(budget.tokenIds) + Ids(decode)
        invariant Ids(decode) <= Ids(sorted[..j])
        invariant decode != [] ==> budget.numBatchedTokens <= budget.tokenBudget && budget.numCurrSeqs <= budget.maxNumSeqs
        invariant blocks == AllMoves(m.movesIn, decode)
        invariant forall g :: g in decode ==> m.canSwapIn(g) == OK && m.appends(g)
        invariant forall g :: g in infeasible ==> m.canSwapIn(g) == NEVER
        decreases |queue|
      {
        var g := queue[0];
        NextTaken(sorted, j, decode, infeasible);
        if m.canSwapIn(g) == LATER {
          break;
        }
        if m.canSwapIn(g) == NEVER {
          infeasible, queue, j := infeasible + [g], queue[1..], j + 1;
          continue;
        }
        CoveredAt(sorted, j);
        var fits := budget.CanSchedule(g.active, g.maxRunning);
        if !fits.value {
          break;
        }
        if !m.appends(g) {
          InBag(sorted, swappedQueue, g);
          return Err(RuntimeError), j;
        }
        FreshPrompt(sorted, j, decode);
        budget.AddNumBatchedTokens(g.id, g.active);
        budget.AddNumSeqs(g.id, g.maxRunning);
        SumsSnoc(decode, g);
        ActiveSnoc(decode, g);
        IdsSnoc(decode, g);
        MovesSnoc(m.movesIn, decode, g);
        decode, queue, j, blocks := decode + [g], queue[1..], j + 1, blocks + m.movesIn(g);
      }
      return Ok(SwappedInOutputs(queue, decode, infeasible, blocks)), j;
    }

    // -------------------------------------------------------------- the step

    /** Charges the running groups ahead of time, so that prompts do not exceed the batch. */
    method ChargeRunning(budget: SchedulingBudget)
      requires DistinctIds(running) && budget.seqIds == {} && budget.numCurrSeqs == 0
      modifies budget`seqIds, budget`numCurrSeqs
      ensures budget.seqIds == Ids(running) && budget.numCurrSeqs == MaxRunning(running)
    {
      hide Ids, MaxRunning;
      NothingTaken(running);
      assert running[..0] == [];
      for i := 0 to |running|
        invariant budget.seqIds == Ids(running[..i]) && budget.numCurrSeqs == MaxRunning(running[..i])
      {
        FreshPrompt(running, i, running[..i]);
        IdsSnoc(running[..i], running[i]);
        SumsSnoc(running[..i], running[i]);
        assert running[..i + 1] == running[..i] + [running[i]];
        budget.AddNumSeqs(running[i].id, running[i].maxRunning);
      }
      assert running[..|running|] == running;
    }

    /** The running groups and then, if none of them was evicted, the swapped ones. */
    method ScheduleDecodes(m: Answers, clock: Clock, budget: SchedulingBudget, ghost taken: nat)
      returns (r: Result<(RunningOutputs, SwappedInOutputs)>, ghost step: Step)
      requires Valid() && budget.tokenIds == {} && budget.numBatchedTokens == 0 && budget.tokenBudget == maxNumBatchedTokens
      requires budget.seqIds == Ids(running) && budget.numCurrSeqs == MaxRunning(running) && budget.maxNumSeqs <= maxNumSeqs
      modifies budget, this`numCumulativePreemption
      ensures r.Ok? ==> DecodePhase(m, maxNumBatchedTokens, budget.maxNumSeqs, preemptionMode, policy, clock, running, swapped,
                                    r.value.0, r.value.1, step, budget.numBatchedTokens) && step.taken == taken
      ensures r.Ok? ==> budget.numBatchedTokens <= maxNumBatchedTokens && budget.numCurrSeqs <= maxNumSeqs
      ensures r.Err? ==> r.error == RuntimeError || r.error == AssertionError
      ensures r == Err(AssertionError) ==> exists g :: g in running && Unpreemptable(preemptionMode, g)
      ensures r == Err(RuntimeError) ==> (exists g :: g in running && Stuck(m, preemptionMode, g))
                                         || exists g :: g in swapped && m.canSwapIn(g) == OK && !m.appends(g)
    {
      hide QueuesOk, Once, IdBag, Covered, DistinctIds, Ids, Active, MaxRunning, Prompts, Merges, PickMode, SortByPriority,
           Unpreemptable, Taken, Preempted, ModeOf, RunningAnswered, SwapsAnswered, AllMoves, Stuck, RaisedBy;
      ghost var w, q, s := waiting, running, swapped;
      ApartQueues(maxNumSeqs, w, q, s);
      step := Step(taken, 0, 0, []);
      var back := SwappedInOutputs(swapped, [], [], []);
      NothingMoved(m.movesIn);
      NothingTaken(w);
      ghost var k, i, turns;
      var o;
      o, k, turns := ScheduleRunning(m, running, budget, clock.running);
      if o.Err? {
        RaisedIn(m, preemptionMode, q, o.error);
        return Err(o.error), step;
      }
      var run := o.value;
      step := step.(kept := k, turns := turns);
      RunningFits(maxNumSeqs, preemptionMode, policy, clock.running, w, q, s, k, run);
      if |run.preempted| + |run.swappedOut| == 0 {
        var b;
        b, i := ScheduleSwapped(m, swapped, budget, clock.swapped);
        if b.Err? {
          return Err(b.error), step;
        }
        step, back := step.(restored := i), b.value;
      }
      return Ok((run, back)), step;
    }

    /**
     One step in the default mode: prompts first, unless groups are swapped out; else the
     running groups, evicting some if the blocks run out; then, if none was evicted, the
     swapped groups. The batch size comes from the cache policy and is at most maxNumSeqs.
     */
    method ScheduleDefault(m: Answers, clock: Clock, batchSize: int) returns (r: Result<SchedulerOutputs>, ghost step: Step)
      requires Valid() && batchSize <= maxNumSeqs
      modifies this
      ensures Valid()
      ensures r.Ok? ==> Stepped(preemptionMode, policy, clock, old(waiting), old(running), old(swapped),
                                waiting, running, swapped, r.value, step)
                        && Budgeted(maxNumBatchedTokens, batchSize, running, r.value, step)
      ensures r.Ok? ==> Explained(m, maxModelLen, maxNumBatchedTokens, batchSize, preemptionMode, policy, clock,
                                  old(waiting), old(running), old(swapped), running, r.value, step)
      ensures r.Ok? ==> r.value.numBatchedTokens <= maxNumBatchedTokens
      ensures r.Ok? ==> r.value.blocksToSwapIn == [] || r.value.blocksToSwapOut == []
      ensures r.Ok? ==> multiset(old(waiting + running + swapped)) == multiset(waiting + running + swapped) + multiset(r.value.ignored)
      ensures r.Err? ==> waiting == old(waiting) || waiting == SortByPriority(policy, clock.waiting, wtWeight, old(waiting))
      ensures r.Err? ==> multiset(old(waiting)) == multiset(waiting) && running == old(running) && swapped == old(swapped)
      ensures r.Err? ==> r.error == RuntimeError || r.error == AssertionError
      ensures r == Err(AssertionError) ==> (exists g :: g in old(waiting) && !IsPrompt(g))
                                           || exists g :: g in old(running) && Unpreemptable(preemptionMode, g)
      ensures r == Err(RuntimeError) ==> (exists g :: g in old(running) && Stuck(m, preemptionMode, g))
                                         || exists g :: g in old(swapped) && m.canSwapIn(g) == OK && !m.appends(g)
    {
      hide QueuesOk, Once, IdBag, Covered, DistinctIds, Ids, Active, MaxRunning, Prompts, Merges, PickMode, SortByPriority,
           Unpreemptable, IsPrompt, Stepped, Taken, ModeOf, Budgeted, Explained, PromptsAnswered, PromptPhase, DecodePhase, Stuck, Reverse;
      ghost var w, q, s := waiting, running, swapped;
      ApartQueues(maxNumSeqs, w, q, s);
      step := Step(0, 0, 0, []);
      var budget := new SchedulingBudget(maxNumBatchedTokens, batchSize);
      ChargeRunning(budget);
      var prefills := PrefillOutputs(waiting, [], []);
      NoPrompts(m, maxModelLen, maxNumBatchedTokens, batchSize, w, q, s);
      if swapped == [] {
        var p;
        ghost var j;
        p, j := SchedulePrefills(m, waiting, budget);
        if p.Err? {
          return Err(p.error), step;
        }
        step, prefills := step.(taken := j), p.value;
        PromptsDone(m, maxModelLen, maxNumBatchedTokens, batchSize, w, q, prefills, j, budget.numBatchedTokens, budget.numCurrSeqs);
      }
      waiting := SortByPriority(policy, clock.waiting, wtWeight, waiting);
      SortSorts(policy, clock.waiting, wtWeight, w);
      StillOk(maxNumSeqs, w, waiting, q, s);
      var run := RunningOutputs([], [], [], []);
      var back := SwappedInOutputs(swapped, [], [], []);
      var remainingRunning := running;
      if |prefills.seqGroups| == 0 {
        var d;
        NothingTaken(w);
        d, step := ScheduleDecodes(m, clock, budget, step.taken);
        if d.Err? {
          return Err(d.error), step;
        }
        run, back, remainingRunning := d.value.0, d.value.1, [];
      }
      assert budget.numBatchedTokens <= maxNumBatchedTokens;
      assert budget.numCurrSeqs <= maxNumSeqs;
      waiting := Reverse(run.preempted) + prefills.remaining;
      running := remainingRunning + prefills.seqGroups + run.decode + back.decode;
      swapped := back.remaining + run.swappedOut;
      r := Ok(SchedulerOutputs(prefills.seqGroups + run.decode + back.decode, |prefills.seqGroups|, budget.numBatchedTokens,
                               back.blocksToSwapIn, run.blocksToSwapOut, prefills.ignored + back.infeasible,
                               |run.preempted| + |run.swappedOut|));
      WholeStep(m, maxModelLen, maxNumBatchedTokens, batchSize, preemptionMode, policy, clock, w, q, s, prefills, run, back,
                waiting, running, swapped, r.value, step);
      StepKeepsInvariant(maxNumBatchedTokens, maxNumSeqs, batchSize, preemptionMode, policy, clock, w, q, s,
                         waiting, running, swapped, r.value, step);
    }
  }

  // ---------------------------------------------------------------- invariants of the queues

  /** Requests are in one queue each, run no more sequences than they may, and fit the batch. */
  ghost predicate QueuesOk(maxNumSeqs: int, waiting: Queue, running: Queue, swapped: Queue) {
    && Once(IdBag(waiting + running + swapped)) && Covered(waiting + running + swapped)
    && MaxRunning(running) <= maxNumSeqs
  }

  lemma NothingQueued()
    ensures IdBag([]) == multiset{} && MaxRunning([]) == 0
    ensures Once(IdBag([] + [] + [])) && Covered([] + [] + [])
  {
    var none: Queue := [];
    assert none + none + none == none;
  }

  lemma SortedQueue(policy: PolicyName, now: real, wtWeight: real, q: Queue)
    requires Covered(q) && Once(IdBag(q))
    ensures var s := SortByPriority(policy, now, wtWeight, q);
            && multiset(s) == multiset(q) && |s| == |q| && Covered(s) && Once(IdBag(s)) && DistinctIds(s) && Ids(s) == Ids(q)
            && MaxRunning(s) == MaxRunning(q)
  {
    hide SortByPriority, Covered, Once, DistinctIds, Ids;
    var s := SortByPriority(policy, now, wtWeight, q);
    SortSorts(policy, now, wtWeight, q);
    CoveredOfBag(s, q);
    IdBagOfBag(s, q);
    OnceIsDistinct(s);
    MaxRunningOfBag(s, q);
    SameIds(s, q);
  }

  lemma SameIds(a: Queue, b: Queue)
    requires multiset(a) == multiset(b)
    ensures Ids(a) == Ids(b)
  {
    forall id ensures id in Ids(a) <==> id in Ids(b) {
      if id in Ids(a) { var i :| 0 <= i < |a| && a[i].id == id; assert a[i] in multiset(b); assert a[i] in b; }
      if id in Ids(b) { var i :| 0 <= i < |b| && b[i].id == id; assert b[i] in multiset(a); assert b[i] in a; }
    }
  }

  lemma ReverseSnoc(q: Queue, g: SeqGroup)
    ensures Reverse(q + [g]) == [g] + Reverse(q)
  {
    ReverseAppend(q, [g]);
    assert [g][1..] == [];
  }

  lemma ActiveSnoc(q: Queue, g: SeqGroup)
    ensures Active(q + [g]) == Active(q) + g.active
  {
    assert (q + [g])[..|q|] == q;
  }

  /** A group and those behind it: the group if it was kept, those still queued, and the evicted ones in reverse. */
  ghost predicate RoomMade(g: SeqGroup, queue: Queue, kept: bool, rest: Queue, evicted: Queue) {
    [g] + queue == (if kept then [g] else []) + rest + Reverse(evicted)
  }

  lemma NoRoomYet(g: SeqGroup, queue: Queue, done: Queue)
    ensures RoomMade(g, queue, true, queue, []) && done + [] == done
  {
  }

  lemma MadeRoom(g: SeqGroup, queue: Queue, kept: bool, rest: Queue, evicted: Queue)
    requires RoomMade(g, queue, kept, rest, evicted)
    ensures [g] + queue == (if kept then [g] else []) + rest + Reverse(evicted)
  {
  }

  /** The victim comes off the back, or is the group itself when nothing else is left. */
  lemma NextVictim(g: SeqGroup, queue: Queue, rest: Queue, evicted: Queue, victim: SeqGroup)
    requires RoomMade(g, queue, true, rest, evicted) && victim == if rest != [] then rest[|rest| - 1] else g
    ensures victim in [g] + queue
    ensures rest != [] ==> RoomMade(g, queue, true, rest[..|rest| - 1], evicted + [victim])
    ensures rest == [] ==> RoomMade(g, queue, false, rest, evicted + [victim])
  {
    hide Reverse;
    ReverseSnoc(evicted, victim);
    if rest != [] { assert rest == rest[..|rest| - 1] + [victim]; }
    assert victim in [g] + rest + Reverse(evicted);
  }

  lemma SnocAssoc(a: Queue, b: Queue, g: SeqGroup)
    ensures a + (b + [g]) == a + b + [g]
  {
  }

  /** The sorted queue: scheduled groups, groups still queued, and the evicted ones in reverse. */
  ghost predicate Laid(sorted: Queue, decode: Queue, queue: Queue, evicted: Queue) {
    sorted == decode + queue + Reverse(evicted)
  }

  lemma StartLaid(sorted: Queue)
    ensures Laid(sorted, [], sorted, []) && Ids([]) == {} && Active([]) == 0
  {
  }

  /** The group taken from the front has not been charged before. */
  lemma FreshGroup(sorted: Queue, decode: Queue, tail: Queue, evicted: Queue, tokenIds: set<int>)
    requires Laid(sorted, decode, tail, evicted) && tail != [] && DistinctIds(sorted) && Ids(sorted) !! tokenIds
    ensures tail[0].id !in Ids(decode) && tail[0].id !in tokenIds
    ensures tail == [tail[0]] + tail[1..]
  {
    hide Reverse;
    assert sorted[|decode|] == tail[0];
    assert tail[0].id in Ids(sorted);
    forall i | 0 <= i < |decode| ensures decode[i].id != tail[0].id { assert sorted[i] == decode[i]; }
  }

  lemma NothingReversed()
    ensures Reverse([]) == []
  {
  }

  lemma NothingEvicted(m: Answers, setting: PreemptionSetting)
    ensures Evicted(m, setting, [], Evictions([], [], []))
  {
  }

  lemma EvictedCount(m: Answers, setting: PreemptionSetting, evicted: Queue, e: Evictions)
    requires Evicted(m, setting, evicted, e)
    ensures |e.preempted| + |e.swappedOut| == |evicted|
  {
  }

  lemma OneMoreEvicted(m: Answers, setting: PreemptionSetting, evicted: Queue, e: Evictions, victim: SeqGroup)
    requires Evicted(m, setting, evicted, e) && !Unpreemptable(setting, victim)
    ensures ModeOf(setting, victim) == RECOMPUTE ==>
              Evicted(m, setting, evicted + [victim], e.(preempted := e.preempted + [victim]))
    ensures ModeOf(setting, victim) == SWAP ==>
              Evicted(m, setting, evicted + [victim],
                      e.(swappedOut := e.swappedOut + [victim], blocks := e.blocks + m.movesOut(victim)))
  {
    hide Unpreemptable, ModeOf, PickMode, AllMoves;
    PickSnoc(setting, RECOMPUTE, evicted, victim);
    PickSnoc(setting, SWAP, evicted, victim);
    MovesSnoc(m.movesOut, e.swappedOut, victim);
  }

  lemma Raised(m: Answers, setting: PreemptionSetting, q: Queue, victim: SeqGroup, error: Error)
    requires victim in q
    requires (error == AssertionError && Unpreemptable(setting, victim)) || (error == RuntimeError && Stuck(m, setting, victim))
    ensures RaisedBy(m, setting, q, error)
  {
    hide Stuck, Unpreemptable;
  }

  lemma RaisedInPart(m: Answers, setting: PreemptionSetting, sorted: Queue, a: Queue, part: Queue, b: Queue, q: Queue, error: Error)
    requires Laid(sorted, a, part, b) && multiset(sorted) == multiset(q) && RaisedBy(m, setting, part, error)
    ensures RaisedBy(m, setting, q, error)
  {
    hide Unpreemptable, ModeOf, Stuck;
    forall g | g in part ensures g in q { assert g in multiset(sorted); }
  }

  lemma AppendRaised(m: Answers, setting: PreemptionSetting, sorted: Queue, a: Queue, part: Queue, b: Queue, q: Queue)
    requires Laid(sorted, a, part, b) && multiset(sorted) == multiset(q) && part != [] && !m.appends(part[0])
    ensures RaisedBy(m, setting, q, RuntimeError)
  {
    hide Unpreemptable, ModeOf, Laid;
    assert part[0] in part && Stuck(m, setting, part[0]);
    RaisedInPart(m, setting, sorted, a, part, b, q, RuntimeError);
  }

  lemma InBag(a: Queue, b: Queue, g: SeqGroup)
    requires multiset(a) == multiset(b) && g in a
    ensures g in b
  {
    assert g in multiset(b);
  }

  lemma NothingMoved(of: SeqGroup -> Moves)
    ensures AllMoves(of, []) == []
  {
  }

  // ---------------------------------------------------------------- answers, loop by loop

  /** The groups kept so far had their turns; the next one, if it was evicted itself, had no room till then. */
  ghost predicate Answered(m: Answers, sorted: Queue, decode: Queue, turns: seq<nat>, evicted: nat, more: bool) {
    var k := |decode|;
    && k <= |sorted| && |turns| == k + 1 && turns[0] == 0 && turns[k] <= evicted
    && (forall i :: 0 <= i < k ==> Turn(m, sorted[i], turns[i], turns[i + 1]))
    && (more ==> turns[k] == evicted)
    && (k < |sorted| ==> NoRoom(m, sorted[k], turns[k], evicted))
  }

  lemma NothingAnswered(m: Answers, sorted: Queue, decode: Queue)
    requires decode == []
    ensures Answered(m, sorted, decode, [0], 0, sorted != [])
  {
  }

  lemma NextAnswered(m: Answers, sorted: Queue, decode: Queue, tail: Queue, evicted: Queue, turns: seq<nat>, kept: bool, more: nat)
    requires Laid(sorted, decode, tail, evicted) && tail != [] && Answered(m, sorted, decode, turns, |evicted|, true)
    requires NoRoom(m, tail[0], |evicted|, |evicted| + more)
    requires kept ==> m.canAppend(tail[0], |evicted| + more) && m.appends(tail[0])
    ensures kept ==> Answered(m, sorted, decode + [tail[0]], turns + [|evicted| + more], |evicted| + more, true)
    ensures kept ==> Answered(m, sorted, decode + [tail[0]], turns + [|evicted| + more], |evicted| + more, false)
    ensures !kept ==> Answered(m, sorted, decode, turns, |evicted| + more, false)
  {
    hide Reverse;
    var k := |decode|;
    assert sorted[k] == tail[0];
    assert kept ==> Turn(m, sorted[k], turns[k], |evicted| + more);
  }

  lemma AllAnswered(m: Answers, sorted: Queue, decode: Queue, evicted: Queue, turns: seq<nat>)
    requires Laid(sorted, decode, [], evicted) && Answered(m, sorted, decode, turns, |evicted|, false)
    ensures RunningAnswered(m, sorted, |decode|, turns)
  {
    hide Reverse, Turn, NoRoom;
    ReversePermutes(evicted);
  }

  /** The prompts taken so far were settled on their own merits. */
  ghost predicate PromptsSettled(m: Answers, modelLen: int, maxTokens: int, j: nat, accepted: Queue, refused: Queue) {
    && (forall i :: 0 <= i < j ==> m.delayPassed(i))
    && (forall g :: g in accepted ==> !NeverFits(m, modelLen, maxTokens, g) && m.canAllocate(g) == OK)
    && (forall g :: g in refused ==> NeverFits(m, modelLen, maxTokens, g))
  }

  lemma NextSettled(m: Answers, modelLen: int, maxTokens: int, j: nat, accepted: Queue, refused: Queue, g: SeqGroup)
    requires PromptsSettled(m, modelLen, maxTokens, j, accepted, refused) && m.delayPassed(j)
    ensures g.len > modelLen || g.len > maxTokens || m.canAllocate(g) == NEVER ==>
              PromptsSettled(m, modelLen, maxTokens, j + 1, accepted, refused + [g])
    ensures g.len <= modelLen && g.len <= maxTokens && m.canAllocate(g) == OK ==>
              PromptsSettled(m, modelLen, maxTokens, j + 1, accepted + [g], refused)
    ensures g.len <= modelLen && g.len <= maxTokens && m.canAllocate(g) != NEVER ==> !NeverFits(m, modelLen, maxTokens, g)
  {
  }

  /** The evicted groups stay at the back of the sorted queue, in reverse. */
  lemma RegroupEvicted(sorted: Queue, decode: Queue, tail: Queue, evicted: Queue, g: SeqGroup, kept: bool, rest: Queue, more: Queue)
    requires Laid(sorted, decode, tail, evicted) && tail == (if kept then [g] else []) + rest + Reverse(more)
    ensures Laid(sorted, if kept then decode + [g] else decode, rest, evicted + more)
    ensures |rest| + (if kept then 1 else 0) <= |tail|
    ensures !kept && more == [] ==> tail == rest
  {
    hide Reverse;
    ReverseAppend(evicted, more);
    assert decode + [] == decode;
    assert more == [] ==> Reverse(more) == [] by { NothingReversed(); }
  }

  lemma SplitQueue(sorted: Queue, decode: Queue, evicted: Queue)
    requires Laid(sorted, decode, [], evicted)
    ensures |decode| <= |sorted| && decode == sorted[..|decode|] && Reverse(sorted[|decode|..]) == evicted
    ensures evicted == [] ==> |decode| == |sorted|
  {
    hide Reverse;
    assert sorted[|decode|..] == Reverse(evicted);
    ReverseTwice(evicted);
    ReversePermutes(evicted);
  }

  lemma NoneEvicted(m: Answers, setting: PreemptionSetting, evicted: Queue, e: Evictions)
    requires Evicted(m, setting, evicted, e) && e.preempted == e.swappedOut == []
    ensures evicted == []
  {
    PickBag(setting, evicted);
    assert |multiset(evicted)| == |evicted|;
  }

  lemma EvictedPicked(m: Answers, setting: PreemptionSetting, evicted: Queue, e: Evictions)
    requires Evicted(m, setting, evicted, e)
    ensures forall g :: g in e.preempted || g in e.swappedOut ==> !Unpreemptable(setting, g)
    ensures e.blocks == AllMoves(m.movesOut, e.swappedOut) && (e.swappedOut == [] ==> e.blocks == [])
    ensures e.preempted == PickMode(setting, RECOMPUTE, evicted) && e.swappedOut == PickMode(setting, SWAP, evicted)
  {
    hide Unpreemptable, PickMode;
    PickBag(setting, evicted);
    forall g | g in e.preempted || g in e.swappedOut ensures g in evicted {
      assert g in multiset(evicted) by {
        assert g in multiset(e.preempted) || g in multiset(e.swappedOut);
      }
    }
  }

  // ---------------------------------------------------------------- taking groups from the front

  /** The first j groups were accepted or refused, in order; the others remain. */
  ghost predicate Taken(q: Queue, j: nat, remaining: Queue, accepted: Queue, refused: Queue) {
    j <= |q| && remaining == q[j..] && Merges(q[..j], accepted, refused)
  }

  /** A waiting group consists of one prompt. */
  ghost predicate IsPrompt(g: SeqGroup) {
    g.active == 1 && g.len > 0 && g.maxRunning > 0
  }

  ghost function Prompts(q: Queue): nat {
    if q == [] then 0 else Prompts(q[..|q| - 1]) + q[|q| - 1].len
  }

  lemma NothingTaken(q: Queue)
    ensures q == q[0..] && Merges(q[..0], [], []) && Ids([]) == {} && Active([]) == MaxRunning([]) == Prompts([]) == 0
  {
  }

  lemma NothingSummed()
    ensures Ids([]) == {}
  {
  }

  lemma NextTaken(q: Queue, j: nat, accepted: Queue, refused: Queue)
    requires j < |q| && Merges(q[..j], accepted, refused)
    ensures q[j..][0] == q[j] && q[j] in q && q[j..][1..] == q[j + 1..]
    ensures Merges(q[..j + 1], accepted + [q[j]], refused) && Merges(q[..j + 1], accepted, refused + [q[j]])
    ensures Ids(q[..j + 1]) == Ids(q[..j]) + {q[j].id}
  {
    hide Merges;
    assert q[..j + 1] == q[..j] + [q[j]];
    MergesSnoc(q[..j], accepted, refused, q[j]);
    IdsSnoc(q[..j], q[j]);
  }

  lemma FreshPrompt(q: Queue, j: nat, accepted: Queue)
    requires j < |q| && DistinctIds(q) && Ids(accepted) <= Ids(q[..j])
    ensures q[j].id !in Ids(accepted) && q[j].id in Ids(q)
  {
    assert forall i :: 0 <= i < j ==> q[..j][i].id == q[i].id != q[j].id;
  }

  lemma SumsSnoc(q: Queue, g: SeqGroup)
    ensures Prompts(q + [g]) == Prompts(q) + g.len && MaxRunning(q + [g]) == MaxRunning(q) + g.maxRunning
  {
    assert (q + [g])[..|q|] == q;
  }

  lemma CoveredAt(q: Queue, j: nat)
    requires Covered(q) && j < |q|
    ensures 1 <= q[j].active <= q[j].maxRunning
  {
  }

  // ---------------------------------------------------------------- the whole step

  lemma NothingPrefilled(w: Queue)
    ensures Taken(w, 0, w, [], [])
  {
    NothingTaken(w);
  }

  lemma IdsInBag(q: Queue, id: int)
    requires id in Ids(q)
    ensures IdBag(q)[id] >= 1
  {
    var i :| 0 <= i < |q| && q[i].id == id;
    IdBagHas(q, i);
  }

  lemma BagOfThree(w: Queue, q: Queue, s: Queue)
    ensures IdBag(w + q + s) == IdBag(w) + IdBag(q) + IdBag(s)
  {
    IdBagAppend(w + q, s);
    IdBagAppend(w, q);
  }

  lemma OnceApart(a: multiset<int>, b: multiset<int>, q: Queue, s: Queue)
    requires Once(a) && b <= a && b == IdBag(q) + IdBag(s)
    ensures Ids(q) !! Ids(s) && Once(IdBag(q)) && Once(IdBag(s))
  {
    forall id | id in Ids(q) ensures id !in Ids(s) {
      IdsInBag(q, id);
      assert b[id] <= a[id] <= 1;
      if id in Ids(s) { IdsInBag(s, id); }
    }
    forall id ensures IdBag(q)[id] <= 1 && IdBag(s)[id] <= 1 { assert b[id] <= a[id] <= 1; }
  }

  lemma ApartQueues(maxNumSeqs: int, w: Queue, q: Queue, s: Queue)
    requires QueuesOk(maxNumSeqs, w, q, s)
    ensures DistinctIds(w) && DistinctIds(q) && Once(IdBag(q)) && Once(IdBag(s)) && Covered(q) && Covered(s)
    ensures Ids(w) !! Ids(q) && Ids(s) !! Ids(q) && MaxRunning(q) <= maxNumSeqs
  {
    hide Once, Covered, DistinctIds, Ids, MaxRunning;
    BagOfThree(w, q, s);
    var all := IdBag(w + q + s);
    OnceApart(all, IdBag(w) + IdBag(q), w, q);
    OnceApart(all, IdBag(q) + IdBag(s), q, s);
    OnceIsDistinct(w);
    OnceIsDistinct(q);
    CoveredOfBag(q, w + q + s);
    CoveredOfBag(s, w + q + s);
  }

  /** The invariant survives reordering, moving and dropping groups, while the running ones fit. */
  lemma Redistributed(maxNumSeqs: int, w: Queue, q: Queue, s: Queue, w': Queue, q': Queue, s': Queue, gone: Queue)
    requires QueuesOk(maxNumSeqs, w, q, s) && MaxRunning(q') <= maxNumSeqs
    requires multiset(w + q + s) == multiset(w' + q' + s') + multiset(gone)
    ensures QueuesOk(maxNumSeqs, w', q', s')
  {
    hide Covered, MaxRunning, IdBag;
    var all, now := w + q + s, w' + q' + s';
    assert multiset(now + gone) == multiset(now) + multiset(gone);
    IdBagOfBag(now + gone, all);
    IdBagAppend(now, gone);
    CoveredOfBag(now, all);
    forall id ensures IdBag(now)[id] <= 1 { assert IdBag(all)[id] <= 1; }
  }

  lemma StillOk(maxNumSeqs: int, w: Queue, w': Queue, q: Queue, s: Queue)
    requires QueuesOk(maxNumSeqs, w, q, s) && multiset(w) == multiset(w')
    ensures QueuesOk(maxNumSeqs, w', q, s)
  {
    hide Covered, MaxRunning, IdBag, Once;
    assert multiset(w + q + s) == multiset(w' + q + s) + multiset([]);
    assert MaxRunning(q) <= maxNumSeqs;
    hide QueuesOk;
    Redistributed(maxNumSeqs, w, q, s, w', q, s, []);
  }

  lemma RaisedIn(m: Answers, setting: PreemptionSetting, q: Queue, error: Error)
    requires RaisedBy(m, setting, q, error)
    ensures error == RuntimeError || error == AssertionError
    ensures error == AssertionError ==> exists g :: g in q && Unpreemptable(setting, g)
    ensures error == RuntimeError ==> exists g :: g in q && Stuck(m, setting, g)
  {
    hide Unpreemptable, Stuck;
  }

  /** The groups that run on are among the running ones, and cost no more tokens than the batch has sequences. */
  lemma RunningFits(maxNumSeqs: int, setting: PreemptionSetting, policy: PolicyName, now: real, w: Queue, q: Queue, s: Queue,
                    k: nat, o: RunningOutputs)
    requires QueuesOk(maxNumSeqs, w, q, s) && Preempted(setting, SortByPriority(policy, now, 0.5, q), k, o)
    ensures MaxRunning(o.decode) <= MaxRunning(q) && Active(o.decode) <= maxNumSeqs && Ids(o.decode) <= Ids(q)
  {
    hide QueuesOk, SortByPriority, PickMode, MaxRunning, Active, Ids;
    ApartQueues(maxNumSeqs, w, q, s);
    PrefixFits(policy, now, q, k);
  }

  lemma CoveredPrefix(q: Queue, k: nat)
    requires Covered(q) && k <= |q|
    ensures Covered(q[..k])
  {
  }

  lemma PrefixIds(q: Queue, k: nat)
    requires k <= |q|
    ensures Ids(q[..k]) <= Ids(q)
  {
    forall id | id in Ids(q[..k]) ensures id in Ids(q) {
      var i :| 0 <= i < k && q[..k][i].id == id;
      assert q[i].id == id;
    }
  }

  lemma {:induction false} MergesNone(q: Queue, b: Queue)
    requires Merges(q, [], b)
    ensures q == b
  {
    if q != [] {
      MergesNone(q[..|q| - 1], b[..|b| - 1]);
      assert q == q[..|q| - 1] + [q[|q| - 1]] && b == b[..|b| - 1] + [b[|b| - 1]];
    }
  }

  lemma TakenBag(q: Queue, j: nat, remaining: Queue, accepted: Queue, refused: Queue)
    requires Taken(q, j, remaining, accepted, refused)
    ensures multiset(q) == multiset(remaining) + multiset(accepted) + multiset(refused)
    ensures accepted == [] ==> refused == q[..j]
  {
    hide Merges;
    MergesBag(q[..j], accepted, refused);
    assert q == q[..j] + q[j..];
    if accepted == [] { MergesNone(q[..j], refused); }
  }

  lemma AfterPrompts(maxTokens: int, batchSize: int, w: Queue, q: Queue, s: Queue, p: PrefillOutputs,
                     w': Queue, q': Queue, s': Queue, o: SchedulerOutputs, step: Step)
    requires s == [] && p.seqGroups != [] && Taken(w, step.taken, p.remaining, p.seqGroups, p.ignored)
    requires MaxRunning(q) + MaxRunning(p.seqGroups) <= batchSize && o.numBatchedTokens == Prompts(p.seqGroups) <= maxTokens
    requires w' == Reverse([]) + p.remaining && q' == q + p.seqGroups + [] + [] && s' == s + []
    requires o.scheduled == p.seqGroups + [] + [] && o.ignored == p.ignored + [] && o.numPrefillGroups == |p.seqGroups|
    requires o.preempted == 0 && o.blocksToSwapIn == o.blocksToSwapOut == []
    ensures PromptStep(w, q, s, w', q', s', o, step) && Budgeted(maxTokens, batchSize, q', o, step)
  {
    hide Taken, MaxRunning, Prompts;
    assert w' == p.remaining && q' == q + p.seqGroups && s' == [] && o.scheduled == p.seqGroups && o.ignored == p.ignored;
    MaxRunningAppend(q, p.seqGroups);
  }

  lemma AfterEviction(maxTokens: int, batchSize: int, setting: PreemptionSetting, policy: PolicyName, clock: Clock,
                      w: Queue, q: Queue, s: Queue, p: PrefillOutputs, run: RunningOutputs,
                      w': Queue, q': Queue, s': Queue, o: SchedulerOutputs, step: Step)
    requires Taken(w, step.taken, p.remaining, [], p.ignored) && (s != [] ==> step.taken == 0)
    requires Preempted(setting, SortByPriority(policy, clock.running, 0.5, q), step.kept, run)
    requires |run.preempted| + |run.swappedOut| > 0 && o.numBatchedTokens == Active(run.decode)
    requires forall g :: g in run.preempted ==> !Unpreemptable(setting, g)
    requires w' == Reverse(run.preempted) + p.remaining && q' == [] + [] + run.decode + [] && s' == s + run.swappedOut
    requires o.scheduled == [] + run.decode + [] && o.ignored == p.ignored + [] && o.numPrefillGroups == 0
    requires o.preempted == |run.preempted| + |run.swappedOut| && o.blocksToSwapIn == []
    ensures DecodeStep(setting, policy, clock, w, q, s, w', q', s', o, step) && Budgeted(maxTokens, batchSize, q', o, step)
  {
    hide SortByPriority, PickMode, Merges, Reverse, Active, Unpreemptable;
    SplitEvicted(setting, policy, clock.running, q, step.kept, run);
    ReversePermutes(run.preempted);
    forall g | g in Reverse(run.preempted) ensures g in run.preempted { assert g in multiset(Reverse(run.preempted)); }
    TakenBag(w, step.taken, p.remaining, [], p.ignored);
    assert q' == run.decode && o.scheduled == run.decode && o.ignored == p.ignored;
  }

  /** The running queue splits into kept groups and victims of either mode. */
  lemma SplitEvicted(setting: PreemptionSetting, policy: PolicyName, now: real, q: Queue, k: nat, run: RunningOutputs)
    requires Preempted(setting, SortByPriority(policy, now, 0.5, q), k, run)
    ensures var sorted := SortByPriority(policy, now, 0.5, q);
            && Reverse(run.preempted) == PickMode(setting, RECOMPUTE, sorted[k..])
            && |run.preempted| + |run.swappedOut| == |sorted| - k
            && (|run.preempted| + |run.swappedOut| == 0 ==> run.decode == sorted)
  {
    hide PickMode, Reverse, SortByPriority;
    var sorted := SortByPriority(policy, now, 0.5, q);
    ReversePick(setting, RECOMPUTE, sorted[k..]);
    PickBag(setting, Reverse(sorted[k..]));
    ReversePermutes(sorted[k..]);
    BagSizes(Reverse(sorted[k..]), run.preempted, run.swappedOut);
  }

  lemma BagSizes(q: Queue, a: Queue, b: Queue)
    requires multiset(q) == multiset(a) + multiset(b)
    ensures |q| == |a| + |b|
  {
    assert |multiset(q)| == |q| && |multiset(a)| == |a| && |multiset(b)| == |b|;
  }

  lemma AfterSwapIn(maxTokens: int, batchSize: int, setting: PreemptionSetting, policy: PolicyName, clock: Clock,
                    w: Queue, q: Queue, s: Queue, p: PrefillOutputs, run: RunningOutputs, back: SwappedInOutputs,
                    w': Queue, q': Queue, s': Queue, o: SchedulerOutputs, step: Step)
    requires Covered(q) && Once(IdBag(q))
    requires Taken(w, step.taken, p.remaining, [], p.ignored) && (s != [] ==> step.taken == 0)
    requires Preempted(setting, SortByPriority(policy, clock.running, 0.5, q), step.kept, run)
    requires run.preempted == run.swappedOut == []
    requires Taken(SortByPriority(policy, clock.swapped, 0.5, s), step.restored, back.remaining, back.decode, back.infeasible)
    requires o.numBatchedTokens == Active(run.decode) + Active(back.decode)
    requires back.decode != [] ==> MaxRunning(q) + MaxRunning(back.decode) <= batchSize && o.numBatchedTokens <= maxTokens
    requires w' == Reverse([]) + p.remaining && q' == [] + [] + run.decode + back.decode && s' == back.remaining + []
    requires o.scheduled == [] + run.decode + back.decode && o.ignored == p.ignored + back.infeasible && o.numPrefillGroups == 0
    requires o.preempted == 0 && o.blocksToSwapOut == []
    ensures DecodeStep(setting, policy, clock, w, q, s, w', q', s', o, step) && Budgeted(maxTokens, batchSize, q', o, step)
  {
    hide SortByPriority, PickMode, MaxRunning, Active, Merges, Reverse, Taken, Preempted, DecodeStep, Covered, Once, IdBag,
         DistinctIds, Ids;
    SplitEvicted(setting, policy, clock.running, q, step.kept, run);
    SortedQueue(policy, clock.running, 0.5, q);
    NothingReversed();
    assert q' == run.decode + back.decode && o.scheduled == q' && s' == back.remaining && w' == p.remaining;
    MaxRunningAppend(run.decode, back.decode);
    ActiveAppend(run.decode, back.decode);
    SwapInShape(setting, policy, clock, w, q, s, p, run, back, w', q', s', o, step);
  }

  lemma SwapInShape(setting: PreemptionSetting, policy: PolicyName, clock: Clock, w: Queue, q: Queue, s: Queue,
                    p: PrefillOutputs, run: RunningOutputs, back: SwappedInOutputs, w': Queue, q': Queue, s': Queue,
                    o: SchedulerOutputs, step: Step)
    requires Taken(w, step.taken, p.remaining, [], p.ignored) && (s != [] ==> step.taken == 0)
    requires Preempted(setting, SortByPriority(policy, clock.running, 0.5, q), step.kept, run)
    requires run.decode == SortByPriority(policy, clock.running, 0.5, q)
    requires Taken(SortByPriority(policy, clock.swapped, 0.5, s), step.restored, back.remaining, back.decode, back.infeasible)
    requires w' == p.remaining && q' == run.decode + back.decode && s' == back.remaining
    requires o.scheduled == q' && o.ignored == p.ignored + back.infeasible && o.numPrefillGroups == 0
    requires o.preempted == 0 && o.blocksToSwapOut == []
    ensures DecodeStep(setting, policy, clock, w, q, s, w', q', s', o, step) && step.kept == |run.decode|
  {
    TakenBag(w, step.taken, p.remaining, [], p.ignored);
    hide SortByPriority, PickMode, Merges;
    var sorted := SortByPriority(policy, clock.running, 0.5, q);
    assert |sorted| == step.kept;
    NothingPicked(setting);
    assert sorted[step.kept..] == [];
    assert sorted[..step.kept] == sorted;
    assert q'[|sorted|..] == back.decode && o.ignored[step.taken..] == back.infeasible;
  }

  lemma NoPrompts(m: Answers, modelLen: int, maxTokens: int, batchSize: int, w: Queue, q: Queue, s: Queue)
    ensures s != [] ==> PromptPhase(m, modelLen, maxTokens, batchSize, w, q, s, PrefillOutputs(w, [], []), 0, 0)
  {
    NothingPrefilled(w);
    NothingTaken(w);
  }

  lemma PromptsDone(m: Answers, modelLen: int, maxTokens: int, batchSize: int, w: Queue, q: Queue, p: PrefillOutputs, taken: nat,
                    tokens: int, seqs: int)
    requires Taken(w, taken, p.remaining, p.seqGroups, p.ignored)
    requires PromptsAnswered(m, modelLen, maxTokens, batchSize, w, taken, p.seqGroups, p.ignored, tokens, seqs)
    requires tokens == Prompts(p.seqGroups) && seqs == MaxRunning(q) + MaxRunning(p.seqGroups)
    requires p.seqGroups != [] ==> tokens <= maxTokens && seqs <= batchSize
    ensures PromptPhase(m, modelLen, maxTokens, batchSize, w, q, [], p, taken, tokens)
  {
    hide Taken, PromptsAnswered, Prompts, MaxRunning;
  }

  /** The three phases make up the step. */
  lemma WholeStep(m: Answers, modelLen: int, maxTokens: int, batchSize: int, setting: PreemptionSetting, policy: PolicyName,
                  clock: Clock, w: Queue, q: Queue, s: Queue, p: PrefillOutputs, run: RunningOutputs, back: SwappedInOutputs,
                  w': Queue, q': Queue, s': Queue, o: SchedulerOutputs, step: Step)
    requires Covered(q) && Once(IdBag(q))
    requires PromptPhase(m, modelLen, maxTokens, batchSize, w, q, s, p, step.taken, if p.seqGroups == [] then 0 else o.numBatchedTokens)
    requires p.seqGroups != [] ==> run == RunningOutputs([], [], [], []) && back == SwappedInOutputs(s, [], [], [])
    requires p.seqGroups == [] ==> DecodePhase(m, maxTokens, batchSize, setting, policy, clock, q, s, run, back, step, o.numBatchedTokens)
    requires w' == Reverse(run.preempted) + p.remaining && s' == back.remaining + run.swappedOut
    requires q' == (if p.seqGroups == [] then [] else q) + p.seqGroups + run.decode + back.decode
    requires o.scheduled == p.seqGroups + run.decode + back.decode && o.numPrefillGroups == |p.seqGroups|
    requires o.blocksToSwapIn == back.blocksToSwapIn && o.blocksToSwapOut == run.blocksToSwapOut
    requires o.ignored == p.ignored + back.infeasible && o.preempted == |run.preempted| + |run.swappedOut|
    ensures Stepped(setting, policy, clock, w, q, s, w', q', s', o, step) && Budgeted(maxTokens, batchSize, q', o, step)
    ensures Explained(m, modelLen, maxTokens, batchSize, setting, policy, clock, w, q, s, q', o, step)
  {
    hide PromptsAnswered, RunningAnswered, SwapsAnswered, SortByPriority, MaxRunning, Prompts, Active, AllMoves, Merges, PickMode, Reverse,
         Taken, Covered, Once, IdBag, Unpreemptable, PromptStep, DecodeStep, Budgeted, Explained;
    NothingMoved(m.movesIn);
    NothingMoved(m.movesOut);
    NothingTaken(w);
    if |p.seqGroups| > 0 {
      AfterPrompts(maxTokens, batchSize, w, q, s, p, w', q', s', o, step);
    } else if |run.preempted| + |run.swappedOut| > 0 {
      AfterEviction(maxTokens, batchSize, setting, policy, clock, w, q, s, p, run, w', q', s', o, step);
    } else {
      AfterSwapIn(maxTokens, batchSize, setting, policy, clock, w, q, s, p, run, back, w', q', s', o, step);
    }
    assert p.seqGroups == [] ==> q' == run.decode + back.decode;
    ExplainStep(m, modelLen, maxTokens, batchSize, setting, policy, clock, w, q, s, p, run, back, q', o, step);
  }

  /** The three phases' answers are the step's. */
  lemma ExplainStep(m: Answers, modelLen: int, maxTokens: int, batchSize: int, setting: PreemptionSetting, policy: PolicyName,
                    clock: Clock, w: Queue, q: Queue, s: Queue, p: PrefillOutputs, run: RunningOutputs, back: SwappedInOutputs,
                    q': Queue, o: SchedulerOutputs, step: Step)
    requires Taken(w, step.taken, p.remaining, p.seqGroups, p.ignored)
    requires s == [] ==> PromptsAnswered(m, modelLen, maxTokens, batchSize, w, step.taken, p.seqGroups, p.ignored,
                                         Prompts(p.seqGroups), MaxRunning(q) + MaxRunning(p.seqGroups))
    requires o.numPrefillGroups == |p.seqGroups| && o.scheduled == p.seqGroups + run.decode + back.decode
    requires o.ignored == p.ignored + back.infeasible
    requires p.seqGroups != [] ==> run.decode == back.decode == back.infeasible == []
    requires p.seqGroups == [] ==>
               && Preempted(setting, SortByPriority(policy, clock.running, 0.5, q), step.kept, run)
               && RunningAnswered(m, SortByPriority(policy, clock.running, 0.5, q), step.kept, step.turns)
               && o.blocksToSwapOut == AllMoves(m.movesOut, run.swappedOut) && o.blocksToSwapIn == AllMoves(m.movesIn, back.decode)
               && q' == run.decode + back.decode
    requires p.seqGroups == [] && run.preempted == run.swappedOut == [] ==>
               SwapsAnswered(m, maxTokens, batchSize, SortByPriority(policy, clock.swapped, 0.5, s), step.restored,
                             back.decode, back.infeasible, o.numBatchedTokens, MaxRunning(q) + MaxRunning(back.decode))
    ensures Explained(m, modelLen, maxTokens, batchSize, setting, policy, clock, w, q, s, q', o, step)
  {
    hide PromptsAnswered, RunningAnswered, SwapsAnswered, SortByPriority, MaxRunning, Prompts, AllMoves, Merges, PickMode, Reverse;
    TakenSizes(w, step.taken, p.remaining, p.seqGroups, p.ignored);
    assert o.ignored[..|p.ignored|] == p.ignored && o.ignored[|p.ignored|..] == back.infeasible;
    if p.seqGroups != [] {
      assert o.scheduled == p.seqGroups;
    } else {
      var sorted := SortByPriority(policy, clock.running, 0.5, q);
      assert q'[step.kept..] == back.decode;
      if step.kept == |sorted| { NothingLeft(setting, sorted, step.kept, run); }
    }
  }

  lemma TakenSizes(q: Queue, j: nat, remaining: Queue, accepted: Queue, refused: Queue)
    requires Taken(q, j, remaining, accepted, refused)
    ensures |accepted| + |refused| == j
  {
    hide Merges;
    MergesBag(q[..j], accepted, refused);
    BagSizes(q[..j], accepted, refused);
  }

  lemma NothingLeft(setting: PreemptionSetting, sorted: Queue, k: nat, run: RunningOutputs)
    requires Preempted(setting, sorted, k, run) && k == |sorted|
    ensures run.preempted == run.swappedOut == []
  {
    assert sorted[k..] == [];
    NothingReversed();
    NothingPicked(setting);
  }

  // ---------------------------------------------------------------- what the answers mean for a request

  /** A request is dropped by a step only if it could never be served: its prompt exceeds a limit, or the manager said so. */
  lemma DroppedForGood(m: Answers, modelLen: int, maxTokens: int, batchSize: int, setting: PreemptionSetting, policy: PolicyName,
                       clock: Clock, w: Queue, q: Queue, s: Queue, w': Queue, q': Queue, s': Queue, o: SchedulerOutputs, step: Step,
                       g: SeqGroup)
    requires Stepped(setting, policy, clock, w, q, s, w', q', s', o, step)
    requires Explained(m, modelLen, maxTokens, batchSize, setting, policy, clock, w, q, s, q', o, step) && g in o.ignored
    ensures || (g in w && (g.len > modelLen || g.len > maxTokens || m.canAllocate(g) == NEVER))
            || (g in s && m.canSwapIn(g) == NEVER)
  {
    hide SortByPriority, MaxRunning, Prompts, AllMoves, Merges, PickMode, Reverse, RunningAnswered, Unpreemptable, Taken;
    var i :| 0 <= i < |o.ignored| && o.ignored[i] == g;
    if o.numPrefillGroups > 0 {
      TakenSizes(w, step.taken, w', o.scheduled, o.ignored);
      TakenFrom(w, step.taken, w', o.scheduled, o.ignored, g);
      assert g in o.ignored[..step.taken - |o.scheduled|];
    } else if i < step.taken {
      DecodeStepParts(setting, policy, clock, w, q, s, w', q', s', o, step);
      assert o.ignored[..step.taken][i] == w[..step.taken][i] == g;
      assert g in o.ignored[..step.taken];
    } else {
      DroppedSwapped(setting, policy, clock, w, q, s, w', q', s', o, step, g);
    }
  }

  lemma TakenFrom(q: Queue, j: nat, remaining: Queue, accepted: Queue, refused: Queue, g: SeqGroup)
    requires Taken(q, j, remaining, accepted, refused) && g in refused
    ensures g in q
  {
    TakenBag(q, j, remaining, accepted, refused);
    assert g in multiset(q);
  }

  lemma DroppedSwapped(setting: PreemptionSetting, policy: PolicyName, clock: Clock, w: Queue, q: Queue, s: Queue,
                       w': Queue, q': Queue, s': Queue, o: SchedulerOutputs, step: Step, g: SeqGroup)
    requires DecodeStep(setting, policy, clock, w, q, s, w', q', s', o, step)
    requires step.taken <= |o.ignored| && g in o.ignored[step.taken..]
    ensures g in s && step.kept == |SortByPriority(policy, clock.running, 0.5, q)|
  {
    hide SortByPriority, PickMode, Reverse, Unpreemptable, Taken;
    SortSorts(policy, clock.swapped, 0.5, s);
    var sorted := SortByPriority(policy, clock.running, 0.5, q);
    if step.kept == |sorted| {
      var back := SortByPriority(policy, clock.swapped, 0.5, s);
      TakenFrom(back, step.restored, s', q'[|sorted|..], o.ignored[step.taken..], g);
      assert g in multiset(s);
    }
  }

  /** A group is evicted only for a group, of at least its priority, that could not append. */
  lemma EvictedForRoom(m: Answers, modelLen: int, maxTokens: int, batchSize: int, setting: PreemptionSetting, policy: PolicyName,
                       clock: Clock, w: Queue, q: Queue, s: Queue, q': Queue, o: SchedulerOutputs, step: Step, n: nat)
    requires Explained(m, modelLen, maxTokens, batchSize, setting, policy, clock, w, q, s, q', o, step) && o.numPrefillGroups == 0
    requires n < |SortByPriority(policy, clock.running, 0.5, q)| - step.kept
    ensures exists i :: 0 <= i <= step.kept && !m.canAppend(SortByPriority(policy, clock.running, 0.5, q)[i], n)
  {
    hide SortByPriority, MaxRunning, Prompts, AllMoves, PickMode, Reverse, PromptsAnswered, SwapsAnswered, Turn;
    TurnOf(m, SortByPriority(policy, clock.running, 0.5, q), step.kept, step.turns, step.kept, n);
  }

  /** The eviction number n happened at the turn of the last group before whose turn n groups were gone. */
  lemma {:induction false} TurnOf(m: Answers, sorted: Queue, k: nat, turns: seq<nat>, i: nat, n: nat)
    requires RunningAnswered(m, sorted, k, turns) && i <= k < |sorted| && n < |sorted| - k && (i < k ==> n < turns[i + 1])
    ensures exists h :: 0 <= h <= k && !m.canAppend(sorted[h], n)
  {
    if n >= turns[i] {
      if i < k { assert Turn(m, sorted[i], turns[i], turns[i + 1]); }
      assert !m.canAppend(sorted[i], n);
    } else {
      TurnOf(m, sorted, k, turns, i - 1, n);
    }
  }

  /** Unless groups are swapped out, the first waiting prompt goes as soon as it may: nothing else holds it back. */
  lemma FirstPromptGoes(m: Answers, modelLen: int, maxTokens: int, batchSize: int, setting: PreemptionSetting, policy: PolicyName,
                        clock: Clock, w: Queue, q: Queue, s: Queue, w': Queue, q': Queue, s': Queue, o: SchedulerOutputs, step: Step)
    requires Stepped(setting, policy, clock, w, q, s, w', q', s', o, step)
    requires Explained(m, modelLen, maxTokens, batchSize, setting, policy, clock, w, q, s, q', o, step)
    requires s == [] && w != [] && m.delayPassed(0) && m.canAllocate(w[0]) == OK
    requires w[0].len <= modelLen && w[0].len <= maxTokens && MaxRunning(q) + w[0].maxRunning <= batchSize
    ensures o.numPrefillGroups > 0 && o.scheduled[0] == w[0]
  {
    hide SortByPriority, AllMoves, PickMode, Reverse, RunningAnswered, Unpreemptable, SwapsAnswered, Taken;
    NothingTaken(w);
    if o.numPrefillGroups > 0 {
      FirstAccepted(m, modelLen, maxTokens, w, step.taken, w', o.scheduled, o.ignored);
    } else if step.taken > 0 {
      FirstIgnored(setting, policy, clock, w, q, s, w', q', s', o, step);
    }
  }

  lemma FirstIgnored(setting: PreemptionSetting, policy: PolicyName, clock: Clock, w: Queue, q: Queue, s: Queue,
                     w': Queue, q': Queue, s': Queue, o: SchedulerOutputs, step: Step)
    requires DecodeStep(setting, policy, clock, w, q, s, w', q', s', o, step) && 0 < step.taken
    ensures |w| > 0 && step.taken <= |o.ignored| && w[0] in o.ignored[..step.taken]
  {
    hide SortByPriority, PickMode, Reverse, Unpreemptable, Taken;
    assert o.ignored[..step.taken][0] == w[..step.taken][0];
  }

  /** The first of the taken prompts is the first accepted or the first refused one. */
  lemma {:induction false} MergesFirst(q: Queue, a: Queue, b: Queue)
    requires Merges(q, a, b) && q != []
    ensures (a != [] && a[0] == q[0]) || (b != [] && b[0] == q[0])
    decreases |q|
  {
    var n := |q| - 1;
    if n == 0 {
      assert q[..n] == [] && q[n] == q[0];
      assert a != [] && Merges(q[..n], a[..|a| - 1], b) ==> a[..|a| - 1] == [];
      assert b != [] && Merges(q[..n], a, b[..|b| - 1]) ==> b[..|b| - 1] == [];
    } else if a != [] && a[|a| - 1] == q[n] && Merges(q[..n], a[..|a| - 1], b) {
      MergesFirst(q[..n], a[..|a| - 1], b);
    } else {
      MergesFirst(q[..n], a, b[..|b| - 1]);
    }
  }

  lemma FirstAccepted(m: Answers, modelLen: int, maxTokens: int, w: Queue, j: nat, w': Queue, accepted: Queue, refused: Queue)
    requires Taken(w, j, w', accepted, refused) && accepted != [] && w != [] && !NeverFits(m, modelLen, maxTokens, w[0])
    requires |accepted| <= j <= |accepted| + |refused|
    requires forall g :: g in refused[..j - |accepted|] ==> NeverFits(m, modelLen, maxTokens, g)
    ensures accepted[0] == w[0]
  {
    hide Merges, NeverFits;
    TakenSizes(w, j, w', accepted, refused);
    MergesFirst(w[..j], accepted, refused);
  }

  // ---------------------------------------------------------------- what every step keeps

  lemma DecodeStepParts(setting: PreemptionSetting, policy: PolicyName, clock: Clock, w: Queue, q: Queue, s: Queue,
                        w': Queue, q': Queue, s': Queue, o: SchedulerOutputs, step: Step)
    requires DecodeStep(setting, policy, clock, w, q, s, w', q', s', o, step)
    ensures var sorted := SortByPriority(policy, clock.running, 0.5, q);
            && step.taken <= |w| && step.kept <= |sorted|
            && w' == PickMode(setting, RECOMPUTE, sorted[step.kept..]) + w[step.taken..]
            && q' == sorted[..step.kept] + q'[step.kept..]
            && w[..step.taken] <= o.ignored
            && (|q'| == step.kept ==> q' == sorted[..step.kept])
            && multiset(s) + multiset(PickMode(setting, SWAP, sorted[step.kept..]))
               == multiset(s') + multiset(q'[step.kept..]) + multiset(o.ignored[step.taken..])
  {
    hide SortByPriority, PickMode, Merges, Taken, Reverse;
    var sorted := SortByPriority(policy, clock.running, 0.5, q);
    assert q'[..step.kept] == sorted[..step.kept];
    if step.kept < |sorted| {
      PickReversed(setting, SWAP, sorted[step.kept..]);
      assert q'[step.kept..] == [] && o.ignored[step.taken..] == [];
    } else {
      SortSorts(policy, clock.swapped, 0.5, s);
      TakenBag(SortByPriority(policy, clock.swapped, 0.5, s), step.restored, s', q'[|sorted|..], o.ignored[step.taken..]);
      NothingPicked(setting);
      assert sorted[step.kept..] == [];
    }
  }

  lemma PickReversed(setting: PreemptionSetting, mode: PreemptionMode, q: Queue)
    ensures multiset(PickMode(setting, mode, Reverse(q))) == multiset(PickMode(setting, mode, q))
  {
    ReversePick(setting, mode, q);
    ReversePermutes(PickMode(setting, mode, Reverse(q)));
  }

  /** Every group ends up in exactly one of the three queues or among the ignored ones. */
  lemma StepConserves(setting: PreemptionSetting, policy: PolicyName, clock: Clock, w: Queue, q: Queue, s: Queue,
                      w': Queue, q': Queue, s': Queue, o: SchedulerOutputs, step: Step)
    requires Stepped(setting, policy, clock, w, q, s, w', q', s', o, step)
    ensures multiset(w + q + s) == multiset(w' + q' + s') + multiset(o.ignored)
  {
    hide SortByPriority, PickMode, Merges, Taken, DecodeStep;
    if o.numPrefillGroups > 0 {
      TakenBag(w, step.taken, w', o.scheduled, o.ignored);
    } else {
      DecodeStepParts(setting, policy, clock, w, q, s, w', q', s', o, step);
      var sorted := SortByPriority(policy, clock.running, 0.5, q);
      SortSorts(policy, clock.running, 0.5, q);
      PickBag(setting, sorted[step.kept..]);
      assert sorted == sorted[..step.kept] + sorted[step.kept..];
      assert w == w[..step.taken] + w[step.taken..];
      assert o.ignored == w[..step.taken] + o.ignored[step.taken..];
      ConservedBags(w[..step.taken], w[step.taken..], sorted[..step.kept], PickMode(setting, RECOMPUTE, sorted[step.kept..]),
                    PickMode(setting, SWAP, sorted[step.kept..]), s, s', q'[step.kept..], o.ignored[step.taken..], w, q, w', q', o.ignored);
    }
  }

  lemma ConservedBags(w1: Queue, w2: Queue, kept: Queue, recomputed: Queue, swapped: Queue, s: Queue, s': Queue, back: Queue,
                      infeasible: Queue, w: Queue, q: Queue, w': Queue, q': Queue, ignored: Queue)
    requires w == w1 + w2 && w' == recomputed + w2 && q' == kept + back && ignored == w1 + infeasible
    requires multiset(q) == multiset(kept) + (multiset(recomputed) + multiset(swapped))
    requires multiset(s) + multiset(swapped) == multiset(s') + multiset(back) + multiset(infeasible)
    ensures multiset(w + q + s) == multiset(w' + q' + s') + multiset(ignored)
  {
    assert multiset(w) == multiset(w1) + multiset(w2);
    assert multiset(w') == multiset(recomputed) + multiset(w2);
    assert multiset(q') == multiset(kept) + multiset(back);
    assert multiset(ignored) == multiset(w1) + multiset(infeasible);
    assert multiset(w + q + s) == multiset(w) + multiset(q) + multiset(s);
    assert multiset(w' + q' + s') == multiset(w') + multiset(q') + multiset(s');
    forall g ensures multiset(w + q + s)[g] == (multiset(w' + q' + s') + multiset(ignored))[g] {
      assert (multiset(s) + multiset(swapped))[g] == (multiset(s') + multiset(back) + multiset(infeasible))[g];
    }
  }

  /**
   A step keeps the invariant of the queues, and the two assertions of the source hold
   after it: the batched tokens are within the token budget, although the running groups
   are charged without a check, and swapping never goes both ways.
   */
  lemma StepKeepsInvariant(maxTokens: int, maxNumSeqs: int, batchSize: int, setting: PreemptionSetting, policy: PolicyName, clock: Clock,
                           w: Queue, q: Queue, s: Queue, w': Queue, q': Queue, s': Queue, o: SchedulerOutputs, step: Step)
    requires batchSize <= maxNumSeqs <= maxTokens && QueuesOk(maxNumSeqs, w, q, s)
    requires Stepped(setting, policy, clock, w, q, s, w', q', s', o, step) && Budgeted(maxTokens, batchSize, q', o, step)
    ensures QueuesOk(maxNumSeqs, w', q', s') && MaxRunning(q') <= maxNumSeqs && o.numBatchedTokens <= maxTokens
    ensures o.blocksToSwapIn == [] || o.blocksToSwapOut == []
    ensures multiset(w + q + s) == multiset(w' + q' + s') + multiset(o.ignored)
  {
    hide QueuesOk, MaxRunning, Active, Prompts, Covered, SortByPriority, PickMode, Merges, Taken;
    StepConserves(setting, policy, clock, w, q, s, w', q', s', o, step);
    if o.numPrefillGroups == 0 && |q'| == step.kept {
      KeptFits(maxNumSeqs, setting, policy, clock, w, q, s, w', q', s', o, step);
    }
    Redistributed(maxNumSeqs, w, q, s, w', q', s', o.ignored);
  }

  /** Without newcomers the running groups are some of those that ran before. */
  lemma KeptFits(maxNumSeqs: int, setting: PreemptionSetting, policy: PolicyName, clock: Clock, w: Queue, q: Queue, s: Queue,
                 w': Queue, q': Queue, s': Queue, o: SchedulerOutputs, step: Step)
    requires QueuesOk(maxNumSeqs, w, q, s) && DecodeStep(setting, policy, clock, w, q, s, w', q', s', o, step)
    requires |q'| == step.kept
    ensures MaxRunning(q') <= maxNumSeqs && Active(q') <= maxNumSeqs
  {
    hide QueuesOk, DecodeStep, MaxRunning, Active, SortByPriority, PickMode;
    DecodeStepParts(setting, policy, clock, w, q, s, w', q', s', o, step);
    ApartQueues(maxNumSeqs, w, q, s);
    PrefixFits(policy, clock.running, q, step.kept);
  }

  lemma PrefixFits(policy: PolicyName, now: real, q: Queue, k: nat)
    requires Covered(q) && Once(IdBag(q)) && k <= |SortByPriority(policy, now, 0.5, q)|
    ensures var kept := SortByPriority(policy, now, 0.5, q)[..k];
            Active(kept) <= MaxRunning(kept) <= MaxRunning(q) && Ids(kept) <= Ids(q)
  {
    hide SortByPriority, Covered, Once, IdBag, Ids, DistinctIds, Active, MaxRunning;
    var sorted := SortByPriority(policy, now, 0.5, q);
    SortedQueue(policy, now, 0.5, q);
    assert sorted == sorted[..k] + sorted[k..];
    MaxRunningAppend(sorted[..k], sorted[k..]);
    CoveredPrefix(sorted, k);
    ActiveBounded(sorted[..k]);
    PrefixIds(sorted, k);
  }

  // ---------------------------------------------------------------- over whole runs

  /**
   No group is evicted while one of lower priority runs on: every running group that a
   step keeps ranks at least as high as every group that the step puts in front of the
   waiting queue or into the swapped one, and those in front are in priority order.
   */
  lemma NoInversion(setting: PreemptionSetting, policy: PolicyName, clock: Clock, w: Queue, q: Queue, s: Queue,
                    w': Queue, q': Queue, s': Queue, o: SchedulerOutputs, step: Step, victim: SeqGroup)
    requires DecodeStep(setting, policy, clock, w, q, s, w', q', s', o, step)
    ensures step.kept <= |q'| && |w| - step.taken <= |w'|
    ensures var front := w'[..|w'| - (|w| - step.taken)];
            && (victim in front || (step.kept < |q| && |s| <= |s'| && victim in s'[|s|..]) ==>
                  forall i :: 0 <= i < step.kept ==> Priority(policy, clock.running, 0.5, q'[i]) >= Priority(policy, clock.running, 0.5, victim))
            && Descending(policy, clock.running, 0.5, front)
  {
    hide SortByPriority, PickMode, Taken, Priority, Merges, Reverse, Descending;
    var sorted, k := SortByPriority(policy, clock.running, 0.5, q), step.kept;
    SortSorts(policy, clock.running, 0.5, q);
    var front := PickMode(setting, RECOMPUTE, sorted[k..]);
    assert w'[..|w'| - (|w| - step.taken)] == front;
    assert forall i :: 0 <= i < k ==> q'[i] == sorted[..k][i] == sorted[i];
    PickDescends(setting, RECOMPUTE, policy, clock.running, sorted[k..]) by { DescendsFrom(policy, clock.running, sorted, k); }
    if victim in front { PickedFrom(setting, RECOMPUTE, sorted[k..], victim); }
    if k < |q| && victim in s'[|s|..] {
      assert s'[|s|..] == PickMode(setting, SWAP, Reverse(sorted[k..]));
      PickedFrom(setting, SWAP, Reverse(sorted[k..]), victim);
      ReversePermutes(sorted[k..]);
      assert victim in multiset(Reverse(sorted[k..]));
    }
    if victim in sorted[k..] { Outranks(policy, clock.running, sorted, k, victim); }
  }

  lemma Outranks(policy: PolicyName, now: real, sorted: Queue, k: nat, victim: SeqGroup)
    requires Descending(policy, now, 0.5, sorted) && k <= |sorted| && victim in sorted[k..]
    ensures forall i :: 0 <= i < k ==> Priority(policy, now, 0.5, sorted[i]) >= Priority(policy, now, 0.5, victim)
  {
    hide Priority;
    var j :| 0 <= j < |sorted[k..]| && sorted[k..][j] == victim;
    assert sorted[k + j] == victim;
  }

  lemma DescendsFrom(policy: PolicyName, now: real, sorted: Queue, k: nat)
    requires Descending(policy, now, 0.5, sorted) && k <= |sorted|
    ensures Descending(policy, now, 0.5, sorted[k..])
  {
    hide Priority;
  }

  lemma DescendsTo(policy: PolicyName, now: real, sorted: Queue, k: nat)
    requires Descending(policy, now, 0.5, sorted) && k <= |sorted|
    ensures Descending(policy, now, 0.5, sorted[..k])
  {
    hide Priority;
  }

  lemma {:induction false} PickedFrom(setting: PreemptionSetting, mode: PreemptionMode, q: Queue, g: SeqGroup)
    requires g in PickMode(setting, mode, q)
    ensures g in q
  {
    if g in PickMode(setting, mode, q[..|q| - 1]) { PickedFrom(setting, mode, q[..|q| - 1], g); }
  }

  lemma {:induction false} PickDescends(setting: PreemptionSetting, mode: PreemptionMode, policy: PolicyName, now: real, q: Queue)
    requires Descending(policy, now, 0.5, q)
    ensures Descending(policy, now, 0.5, PickMode(setting, mode, q))
  {
    hide Priority;
    if q != [] {
      var n := |q| - 1;
      DescendsTo(policy, now, q, n);
      PickDescends(setting, mode, policy, now, q[..n]);
      PickedOutrank(setting, mode, policy, now, q);
      hide PickMode, Descending;
      PickSnoc(setting, mode, q[..n], q[n]);
      assert q[..n] + [q[n]] == q;
      SnocDescends(policy, now, PickMode(setting, mode, q[..n]), q[n]);
    }
  }

  lemma PickedOutrank(setting: PreemptionSetting, mode: PreemptionMode, policy: PolicyName, now: real, q: Queue)
    requires Descending(policy, now, 0.5, q) && q != []
    ensures var n, picked := |q| - 1, PickMode(setting, mode, q[..|q| - 1]);
            forall i :: 0 <= i < |picked| ==> Priority(policy, now, 0.5, picked[i]) >= Priority(policy, now, 0.5, q[n])
  {
    hide Priority, PickMode;
    var n, picked := |q| - 1, PickMode(setting, mode, q[..|q| - 1]);
    forall i | 0 <= i < |picked| ensures Priority(policy, now, 0.5, picked[i]) >= Priority(policy, now, 0.5, q[n]) {
      PickedFrom(setting, mode, q[..n], picked[i]);
      var j :| 0 <= j < n && q[..n][j] == picked[i];
      assert q[j] == picked[i];
    }
  }

  lemma SnocDescends(policy: PolicyName, now: real, q: Queue, g: SeqGroup)
    requires Descending(policy, now, 0.5, q)
    requires forall i :: 0 <= i < |q| ==> Priority(policy, now, 0.5, q[i]) >= Priority(policy, now, 0.5, g)
    ensures Descending(policy, now, 0.5, q + [g])
  {
    hide Priority;
  }

  /** With no setting given, recomputation is never asked of a group with several running sequences. */
  lemma DefaultModeNeverAsserts(q: Queue, g: SeqGroup)
    requires Covered(q) && g in q
    ensures !Unpreemptable(Unset, g)
  {
  }

  /**
   What happens to one group between two steps: it may run fewer or more sequences,
   its most ever never grows and still covers them.
   */
  ghost predicate Progressed(g: SeqGroup, h: SeqGroup) {
    h.id == g.id && 1 <= h.active <= h.maxRunning <= g.maxRunning
  }

  ghost predicate AllProgressed(a: Queue, b: Queue) {
    |a| == |b| && forall i :: 0 <= i < |a| ==> Progressed(a[i], b[i])
  }

  /**
   Between two steps: groups progress (w1, q1, s1), some leave their queue (gone), the
   rest keep their queue, and new groups with new ids join the waiting ones.
   */
  datatype Between = Between(w1: Queue, q1: Queue, s1: Queue, goneW: Queue, goneQ: Queue, goneS: Queue, arrivals: Queue)

  ghost predicate EnvironmentStep(w: Queue, q: Queue, s: Queue, w': Queue, q': Queue, s': Queue, b: Between) {
    && AllProgressed(w, b.w1) && AllProgressed(q, b.q1) && AllProgressed(s, b.s1)
    && multiset(b.w1) + multiset(b.arrivals) == multiset(w') + multiset(b.goneW)
    && multiset(b.q1) == multiset(q') + multiset(b.goneQ) && multiset(b.s1) == multiset(s') + multiset(b.goneS)
    && Covered(b.arrivals) && Once(IdBag(w + q + s) + IdBag(b.arrivals))
  }

  lemma {:induction false} ProgressKeeps(a: Queue, b: Queue)
    requires AllProgressed(a, b)
    ensures IdBag(b) == IdBag(a) && MaxRunning(b) <= MaxRunning(a) && Covered(b)
    decreases |a|
  {
    if a != [] {
      assert Progressed(a[|a| - 1], b[|b| - 1]);
      ProgressKeeps(a[..|a| - 1], b[..|b| - 1]);
    }
  }

  lemma DroppedBag(all: Queue, kept: Queue, gone: Queue)
    requires multiset(all) == multiset(kept) + multiset(gone)
    ensures IdBag(all) == IdBag(kept) + IdBag(gone) && MaxRunning(all) == MaxRunning(kept) + MaxRunning(gone)
    ensures forall id :: IdBag(kept)[id] <= IdBag(all)[id]
    ensures Covered(all) ==> Covered(kept)
  {
    hide IdBag, MaxRunning, Covered;
    assert multiset(kept + gone) == multiset(kept) + multiset(gone);
    IdBagOfBag(all, kept + gone);
    IdBagAppend(kept, gone);
    MaxRunningOfBag(all, kept + gone);
    MaxRunningAppend(kept, gone);
    if Covered(all) { CoveredOfBag(kept, all); }
  }

  lemma CoveredThree(w: Queue, q: Queue, s: Queue)
    requires Covered(w) && Covered(q) && Covered(s)
    ensures Covered(w + q + s)
  {
  }

  /** Whatever happens between steps, the invariant holds again before the next one. */
  lemma EnvironmentKeepsInvariant(maxNumSeqs: int, w: Queue, q: Queue, s: Queue, w': Queue, q': Queue, s': Queue, b: Between)
    requires QueuesOk(maxNumSeqs, w, q, s) && EnvironmentStep(w, q, s, w', q', s', b)
    ensures QueuesOk(maxNumSeqs, w', q', s')
  {
    hide IdBag, MaxRunning, Covered, AllProgressed;
    ProgressKeeps(w, b.w1);
    ProgressKeeps(q, b.q1);
    ProgressKeeps(s, b.s1);
    assert multiset(b.w1 + b.arrivals) == multiset(b.w1) + multiset(b.arrivals);
    DroppedBag(b.w1 + b.arrivals, w', b.goneW);
    DroppedBag(b.w1 + b.arrivals, b.w1, b.arrivals);
    DroppedBag(b.q1, q', b.goneQ);
    DroppedBag(b.s1, s', b.goneS);
    CoveredTwo(b.w1, b.arrivals);
    CoveredThree(w', q', s');
    BagOfThree(w, q, s);
    BagOfThree(w', q', s');
    forall id ensures IdBag(w' + q' + s')[id] <= 1 {
      assert (IdBag(w + q + s) + IdBag(b.arrivals))[id] <= 1;
      assert IdBag(w')[id] <= (IdBag(w) + IdBag(b.arrivals))[id];
      assert IdBag(q')[id] <= IdBag(q)[id] && IdBag(s')[id] <= IdBag(s)[id];
    }
  }

  lemma CoveredTwo(w: Queue, q: Queue)
    requires Covered(w) && Covered(q)
    ensures Covered(w + q)
  {
  }

  // ---------------------------------------------------------------- waiting groups are prompts

  ghost predicate AllPrompts(q: Queue) {
    forall g :: g in q ==> IsPrompt(g)
  }

  /** Waiting groups are single prompts, and no group is without tokens. */
  ghost predicate PromptsWait(w: Queue, q: Queue, s: Queue) {
    AllPrompts(w) && forall g :: g in q || g in s ==> g.len > 0
  }

  /** New groups are prompts, waiting groups only wait, and the others lose no tokens. */
  ghost predicate PromptsArrive(w: Queue, q: Queue, s: Queue, b: Between) {
    && AllPrompts(b.arrivals)
    && |w| == |b.w1| && |q| == |b.q1| && |s| == |b.s1|
    && (forall i :: 0 <= i < |w| ==> b.w1[i].active == w[i].active && b.w1[i].len == w[i].len)
    && (forall i :: 0 <= i < |q| ==> b.q1[i].len >= q[i].len)
    && forall i :: 0 <= i < |s| ==> b.s1[i].len >= s[i].len
  }

  lemma {:induction false} PickedMode(setting: PreemptionSetting, mode: PreemptionMode, q: Queue, g: SeqGroup)
    requires g in PickMode(setting, mode, q)
    ensures ModeOf(setting, g) == mode
  {
    if g in PickMode(setting, mode, q[..|q| - 1]) { PickedMode(setting, mode, q[..|q| - 1], g); }
  }

  /** A recomputed victim runs a single sequence, so it waits as a prompt again. */
  lemma StepKeepsPrompts(maxNumSeqs: int, setting: PreemptionSetting, policy: PolicyName, clock: Clock, w: Queue, q: Queue, s: Queue,
                         w': Queue, q': Queue, s': Queue, o: SchedulerOutputs, step: Step)
    requires QueuesOk(maxNumSeqs, w, q, s) && PromptsWait(w, q, s) && Stepped(setting, policy, clock, w, q, s, w', q', s', o, step)
    ensures PromptsWait(w', q', s')
  {
    hide SortByPriority, PickMode, Merges, Unpreemptable, Taken, DecodeStep, Once, IdBag, MaxRunning;
    StepConserves(setting, policy, clock, w, q, s, w', q', s', o, step);
    forall g | g in w' || g in q' || g in s' ensures g in w || g in q || g in s { SomewhereBefore(w, q, s, w', q', s', o.ignored, g); }
    forall g | g in w' ensures IsPrompt(g) {
      if o.numPrefillGroups > 0 {
        RestWaited(w, step.taken, w', o.scheduled, o.ignored, g);
      } else {
        VictimOrWaiting(setting, policy, clock, w, q, s, w', q', s', o, step, g);
      }
      assert g in w + q + s;
    }
  }

  lemma SomewhereBefore(w: Queue, q: Queue, s: Queue, w': Queue, q': Queue, s': Queue, gone: Queue, g: SeqGroup)
    requires multiset(w + q + s) == multiset(w' + q' + s') + multiset(gone) && (g in w' || g in q' || g in s')
    ensures g in w || g in q || g in s
  {
    assert g in w' + q' + s';
    assert g in multiset(w' + q' + s');
    assert g in multiset(w + q + s);
    assert g in w + q + s;
  }

  lemma RestWaited(q: Queue, j: nat, remaining: Queue, accepted: Queue, refused: Queue, g: SeqGroup)
    requires Taken(q, j, remaining, accepted, refused) && g in remaining
    ensures g in q
  {
    hide Merges;
  }

  lemma VictimOrWaiting(setting: PreemptionSetting, policy: PolicyName, clock: Clock, w: Queue, q: Queue, s: Queue,
                        w': Queue, q': Queue, s': Queue, o: SchedulerOutputs, step: Step, g: SeqGroup)
    requires DecodeStep(setting, policy, clock, w, q, s, w', q', s', o, step) && g in w'
    ensures g in w || (g.active == 1)
  {
    hide SortByPriority, PickMode, Merges, Taken, Reverse;
    var front := PickMode(setting, RECOMPUTE, SortByPriority(policy, clock.running, 0.5, q)[step.kept..]);
    if g in front {
      PickedMode(setting, RECOMPUTE, SortByPriority(policy, clock.running, 0.5, q)[step.kept..], g);
    } else {
      assert g in w[step.taken..];
    }
  }

  lemma EnvironmentKeepsPrompts(w: Queue, q: Queue, s: Queue, w': Queue, q': Queue, s': Queue, b: Between)
    requires PromptsWait(w, q, s) && EnvironmentStep(w, q, s, w', q', s', b) && PromptsArrive(w, q, s, b)
    ensures PromptsWait(w', q', s')
  {
    hide IdBag, Once, Covered;
    forall g | g in w' ensures IsPrompt(g) {
      assert g in multiset(w') && g in multiset(b.w1) + multiset(b.arrivals);
      if g in b.w1 {
        var i :| 0 <= i < |b.w1| && b.w1[i] == g;
        assert w[i] in w && IsPrompt(w[i]) && Progressed(w[i], b.w1[i]);
      }
    }
    forall g | g in q' ensures g.len > 0 {
      assert g in multiset(q') && g in multiset(b.q1);
      var i :| 0 <= i < |b.q1| && b.q1[i] == g;
      assert q[i] in q;
    }
    forall g | g in s' ensures g.len > 0 {
      assert g in multiset(s') && g in multiset(b.s1);
      var i :| 0 <= i < |b.s1| && b.s1[i] == g;
      assert s[i] in s;
    }
  }

  /** The three queues between two events. */
  datatype Queues = Queues(waiting: Queue, running: Queue, swapped: Queue)

  datatype Event = Scheduling(clock: Clock, batchSize: int, o: SchedulerOutputs, step: Step) | Meanwhile(b: Between)

  ghost predicate Happens(maxTokens: int, setting: PreemptionSetting, policy: PolicyName, a: Queues, e: Event, b: Queues) {
    match e
    case Scheduling(clock, batchSize, o, step) =>
      && Stepped(setting, policy, clock, a.waiting, a.running, a.swapped, b.waiting, b.running, b.swapped, o, step)
      && Budgeted(maxTokens, batchSize, b.running, o, step)
    case Meanwhile(m) => EnvironmentStep(a.waiting, a.running, a.swapped, b.waiting, b.running, b.swapped, m)
  }

  /** A run from empty queues; batch sizes vary with the cache policy, up to the configured maximum. */
  ghost predicate IsRun(maxTokens: int, maxNumSeqs: int, setting: PreemptionSetting, policy: PolicyName,
                        run: seq<Queues>, events: seq<Event>)
  {
    && |run| == |events| + 1 && run[0] == Queues([], [], [])
    && (forall i :: 0 <= i < |events| ==> Happens(maxTokens, setting, policy, run[i], events[i], run[i + 1]))
    && forall i :: 0 <= i < |events| && events[i].Scheduling? ==> events[i].batchSize <= maxNumSeqs
  }

  /** On every run, after every event, the queues satisfy the invariant. */
  lemma {:induction false} RunKeepsInvariant(maxTokens: int, maxNumSeqs: int, setting: PreemptionSetting, policy: PolicyName,
                                             run: seq<Queues>, events: seq<Event>, n: nat)
    requires 0 <= maxNumSeqs <= maxTokens && IsRun(maxTokens, maxNumSeqs, setting, policy, run, events) && n <= |events|
    ensures QueuesOk(maxNumSeqs, run[n].waiting, run[n].running, run[n].swapped)
  {
    hide QueuesOk, Stepped, Budgeted, EnvironmentStep;
    if n == 0 {
      EmptyQueuesOk(maxNumSeqs);
    } else {
      RunKeepsInvariant(maxTokens, maxNumSeqs, setting, policy, run, events, n - 1);
      var a, b := run[n - 1], run[n];
      assert Happens(maxTokens, setting, policy, run[n - 1], events[n - 1], run[n - 1 + 1]);
      match events[n - 1]
      case Scheduling(clock, batchSize, o, step) =>
        StepKeepsInvariant(maxTokens, maxNumSeqs, batchSize, setting, policy, clock, a.waiting, a.running, a.swapped,
                           b.waiting, b.running, b.swapped, o, step);
      case Meanwhile(m) =>
        EnvironmentKeepsInvariant(maxNumSeqs, a.waiting, a.running, a.swapped, b.waiting, b.running, b.swapped, m);
    }
  }

  lemma EmptyQueuesOk(maxNumSeqs: int)
    requires maxNumSeqs >= 0
    ensures QueuesOk(maxNumSeqs, [], [], [])
  {
    NothingQueued();
  }

  /**
   The assertions after a scheduling step never fire, on any run: the batched tokens stay
   within the budget, the running groups' sequences within the maximum, swapping goes one
   way, and no group is lost or duplicated.
   */
  lemma AssertionsNeverFire(maxTokens: int, maxNumSeqs: int, setting: PreemptionSetting, policy: PolicyName,
                            run: seq<Queues>, events: seq<Event>, n: nat)
    requires 0 <= maxNumSeqs <= maxTokens && IsRun(maxTokens, maxNumSeqs, setting, policy, run, events)
    requires n < |events| && events[n].Scheduling?
    ensures events[n].o.numBatchedTokens <= maxTokens && MaxRunning(run[n + 1].running) <= maxNumSeqs
    ensures events[n].o.blocksToSwapIn == [] || events[n].o.blocksToSwapOut == []
    ensures multiset(run[n].waiting + run[n].running + run[n].swapped)
            == multiset(run[n + 1].waiting + run[n + 1].running + run[n + 1].swapped) + multiset(events[n].o.ignored)
  {
    hide QueuesOk, Stepped, Budgeted, EnvironmentStep;
    RunKeepsInvariant(maxTokens, maxNumSeqs, setting, policy, run, events, n);
    var a, e, b := run[n], events[n], run[n + 1];
    assert Happens(maxTokens, setting, policy, a, e, b);
    StepKeepsInvariant(maxTokens, maxNumSeqs, e.batchSize, setting, policy, e.clock, a.waiting, a.running, a.swapped,
                       b.waiting, b.running, b.swapped, e.o, e.step);
  }

  /** On every run into which only prompts arrive, every waiting group is a prompt. */
  lemma {:induction false} RunKeepsPrompts(maxTokens: int, maxNumSeqs: int, setting: PreemptionSetting, policy: PolicyName,
                                           run: seq<Queues>, events: seq<Event>, n: nat)
    requires 0 <= maxNumSeqs <= maxTokens && IsRun(maxTokens, maxNumSeqs, setting, policy, run, events) && n <= |events|
    requires forall i :: 0 <= i < n && events[i].Meanwhile? ==> PromptsArrive(run[i].waiting, run[i].running, run[i].swapped, events[i].b)
    ensures PromptsWait(run[n].waiting, run[n].running, run[n].swapped)
  {
    hide QueuesOk, Stepped, Budgeted, EnvironmentStep, PromptsArrive;
    if n > 0 {
      RunKeepsPrompts(maxTokens, maxNumSeqs, setting, policy, run, events, n - 1);
      RunKeepsInvariant(maxTokens, maxNumSeqs, setting, policy, run, events, n - 1);
      var a, b := run[n - 1], run[n];
      assert Happens(maxTokens, setting, policy, run[n - 1], events[n - 1], run[n - 1 + 1]);
      match events[n - 1]
      case Scheduling(clock, batchSize, o, step) =>
        StepKeepsPrompts(maxNumSeqs, setting, policy, clock, a.waiting, a.running, a.swapped, b.waiting, b.running, b.swapped, o, step);
      case Meanwhile(m) =>
        EnvironmentKeepsPrompts(a.waiting, a.running, a.swapped, b.waiting, b.running, b.swapped, m);
    }
  }

  /**
   On such a run neither cause of an AssertionError of a step ever arises: waiting groups
   are prompts, and unless recomputation is configured for all groups (or the setting is
   invalid) every running group can be preempted.
   */
  lemma NothingToAssertAbout(maxTokens: int, maxNumSeqs: int, setting: PreemptionSetting, policy: PolicyName,
                             run: seq<Queues>, events: seq<Event>, n: nat)
    requires 0 <= maxNumSeqs <= maxTokens && IsRun(maxTokens, maxNumSeqs, setting, policy, run, events) && n <= |events|
    requires forall i :: 0 <= i < n && events[i].Meanwhile? ==> PromptsArrive(run[i].waiting, run[i].running, run[i].swapped, events[i].b)
    ensures forall g :: g in run[n].waiting ==> IsPrompt(g)
    ensures setting.Unset? || setting.ToSwap? ==> forall g :: g in run[n].running ==> !Unpreemptable(setting, g)
  {
    hide Happens, PromptsArrive, Once, IdBag, MaxRunning;
    RunKeepsPrompts(maxTokens, maxNumSeqs, setting, policy, run, events, n);
    RunKeepsInvariant(maxTokens, maxNumSeqs, setting, policy, run, events, n);
    var w, q, s := run[n].waiting, run[n].running, run[n].swapped;
    forall g | g in q ensures setting.Unset? ==> !Unpreemptable(setting, g) {
      assert g in w + q + s;
      if setting.Unset? { DefaultModeNeverAsserts(w + q + s, g); }
    }
  }
}
