/**
 What the two attention kernels compute, from the plain query, key and value rows alone:
 softmax attention with scaled dot products and a linear position bias.
 */
module AttentionOutputs {
  import opened Arithmetic
  import opened Results
  import opened RealSums
  import opened Softmax
  import opened CacheLayout
  import opened CacheWrites
  import opened SoftmaxKernels
  import opened PagedAttention
  import opened PagedAttentionKernels
  import opened PagedAttentionV2
  import opened AttentionOverTokens

  ghost function Exponentials(exp: real -> real, l: int -> real): int -> real {
    t => exp(l(t))
  }

  ghost function Scaled(exp: real -> real, l: int -> real, v: int -> real): int -> real {
    t => exp(l(t)) * v(t)
  }

  /** Attention as it is defined on paper: the average of v over n tokens, weighted by exp(l). */
  ghost function SoftmaxAttention(exp: real -> real, l: int -> real, v: int -> real, n: int): real {
    var total := Sum(0, n, Exponentials(exp, l));
    if total == 0.0 then 0.0 else Sum(0, n, Scaled(exp, l, v)) / total
  }

  /** One product of the dot product of query head h with the key head that it shares. */
  ghost function QueryKey(k: Launch, s: int, h: int, key: seq<real>): int -> real {
    e => if k.numHeads / k.d.heads == 0 then 0.0
         else At(Queries(k, s), h * k.d.headSize + e) * At(key, h / (k.numHeads / k.d.heads) * k.d.headSize + e)
  }

  /** The scaled dot product of token t's key row, less the slope times the token's distance from the newest one. */
  ghost function PlainLogit(k: Launch, s: int, h: int, keys: int -> seq<real>): int -> real {
    t => Sum(0, k.d.headSize, QueryKey(k, s, h, keys(t))) * k.scale
         - (if k.slopes.Some? && 0 <= h < |k.slopes.value| then k.slopes.value[h] * (Length(k, s) - 1 - t) as real else 0.0)
  }

  /** Element e of the value head that query head h shares. */
  ghost function PlainValue(k: Launch, h: int, e: int, vals: int -> seq<real>): int -> real {
    t => if k.numHeads / k.d.heads == 0 then 0.0 else At(vals(t), h / (k.numHeads / k.d.heads) * k.d.headSize + e)
  }

  // ---------------------------------------------------------------- logits

  /** The position bias of a token falls with its distance from the newest token, which has none. */
  lemma BiasByDistance(k: Launch, s: int, h: int, t: int)
    requires Ready(k) && Row(k, s, h)
    ensures Logit(k, s, h)(t) ==
            RawLogit(k, s, h)(t) - if k.slopes.Some? then k.slopes.value[h] * (k.lens[s] - 1 - t) as real else 0.0
  {
    hide IsExp, SequenceReady;
    if k.slopes.Some? {
      Opposite(k.slopes.value[h], k.lens[s] - 1 - t);
      assert Bias(k.slopes.value[h], 0, Length(k, s), t) == k.slopes.value[h] * (t - k.lens[s] + 1) as real;
      assert Logit(k, s, h)(t) == RawLogit(k, s, h)(t) + Bias(k.slopes.value[h], 0, Length(k, s), t);
    } else {
      assert Logit(k, s, h)(t) == RawLogit(k, s, h)(t) + 0.0;
    }
  }

  lemma Opposite(slope: real, n: int)
    ensures slope * (-n) as real == -(slope * n as real)
  {
    assert (-n) as real == -(n as real);
  }

  /** The rows that were written to the slots of a sequence's tokens, keys and values alike. */
  datatype WrittenRows = WrittenRows(keysBefore: seq<real>, valsBefore: seq<real>, keys: seq<seq<real>>, vals: seq<seq<real>>, slots: seq<int>, at: seq<nat>)

  /** Every token of the sequence has a slot of its own, which row at[t] was written to. */
  ghost predicate AllWritten(k: Launch, s: int, r: WrittenRows) {
    && |r.slots| == |r.keys| == |r.vals| && 0 <= s < |k.lens| && |r.at| == k.lens[s]
    && Stored(Keys, k.d, r.keysBefore, k.keys, r.keys, r.slots, |r.slots|)
    && Stored(Values, k.d, r.valsBefore, k.vals, r.vals, r.slots, |r.slots|)
    && forall t :: 0 <= t < |r.at| ==> WrittenAs(k, s, t, r.slots, r.at[t])
  }

  ghost function KeyOf(r: WrittenRows): int -> seq<real> {
    t => if 0 <= t < |r.at| && r.at[t] < |r.keys| then r.keys[r.at[t]] else []
  }

  ghost function ValueOf(r: WrittenRows): int -> seq<real> {
    t => if 0 <= t < |r.at| && r.at[t] < |r.vals| then r.vals[r.at[t]] else []
  }

  /** The kernel's score is the plain dot product of the two heads. */
  lemma DotIsPlain(k: Launch, s: int, h: int, t: int, r: WrittenRows)
    requires Ready(k) && Row(k, s, h) && AllWritten(k, s, r) && 0 <= t < k.lens[s]
    ensures RawLogit(k, s, h)(t) == Sum(0, k.d.headSize, QueryKey(k, s, h, KeyOf(r)(t))) * k.scale
  {
    hide Ready, Stored, RawLogit, Queries, Sum, At;
    var i := r.at[t];
    assert WrittenAs(k, s, t, r.slots, i);
    ScoreIsPlain(k, s, h, t, r.keysBefore, r.keys, r.slots, i);
    LaunchOf(k, s, h);
    assert KeyOf(r)(t) == r.keys[i];
    hide WrittenAs;
    SumExt(0, k.d.headSize, PlainProducts(k.d, Queries(k, s), h * k.d.headSize, r.keys[i], KvHead(k, h)), QueryKey(k, s, h, r.keys[i]));
  }

  lemma LogitIsPlain(k: Launch, s: int, h: int, t: int, r: WrittenRows)
    requires Ready(k) && Row(k, s, h) && AllWritten(k, s, r) && 0 <= t < k.lens[s]
    ensures Logit(k, s, h)(t) == PlainLogit(k, s, h, KeyOf(r))(t)
  {
    hide Ready, AllWritten, RawLogit, Logit, QueryKey, Sum;
    DotIsPlain(k, s, h, t, r);
    BiasByDistance(k, s, h, t);
    LaunchOf(k, s, h);
  }

  /** Query heads share key-value heads in equal, consecutive groups. */
  lemma LaunchOf(k: Launch, s: int, h: int)
    requires Ready(k) && Row(k, s, h)
    ensures k.numHeads / k.d.heads > 0 && KvHead(k, h) == h / (k.numHeads / k.d.heads) && 0 <= KvHead(k, h) < k.d.heads
    ensures Length(k, s) == k.lens[s] >= 1 && IsExp(k.exp) && (k.slopes.Some? ==> |k.slopes.value| == k.numHeads)
  {
    KvHeadBound(k, h);
    hide IsExp, KvHead;
    assert SequenceReady(k, s);
  }

  lemma ValueIsPlainRow(k: Launch, s: int, h: int, t: int, e: int, r: WrittenRows)
    requires Ready(k) && Row(k, s, h) && AllWritten(k, s, r) && 0 <= t < k.lens[s] && 0 <= e < k.d.headSize
    ensures ValueAt(k, s, h, e)(t) == PlainValue(k, h, e, ValueOf(r))(t)
  {
    hide Ready, Stored, ValueAt;
    var i := r.at[t];
    assert WrittenAs(k, s, t, r.slots, i);
    ValueIsPlain(k, s, h, t, e, r.valsBefore, r.vals, r.slots, i);
    LaunchOf(k, s, h);
    hide WrittenAs;
    assert ValueOf(r)(t) == r.vals[i];
  }

  // ---------------------------------------------------------------- outputs

  /** The kernels' average relative to the largest logit is the textbook average. */
  lemma AverageIsAttention(exp: real -> real, l: int -> real, v: int -> real, n: int)
    requires IsExp(exp) && n >= 1
    ensures Average(exp, l, 0, n, v) == SoftmaxAttention(exp, l, v, n)
  {
    hide IsExp, Max, Sum, Weigh, Weighted, Exponentials, Scaled;
    var m := Max(0, n, l);
    MassAtLeastOne(exp, l, 0, n);
    Rescale(exp, l, 0, n, m, 0.0, v);
    ExpSum(exp, m, 0.0);
    Unshifted(exp, l, v, n);
    assert m - 0.0 == m;
    SameQuotient(exp(m), Mix(exp, l, 0, n, m, v), Mass(exp, l, 0, n, m));
  }

  lemma Unshifted(exp: real -> real, l: int -> real, v: int -> real, n: int)
    ensures Mass(exp, l, 0, n, 0.0) == Sum(0, n, Exponentials(exp, l))
    ensures Mix(exp, l, 0, n, 0.0, v) == Sum(0, n, Scaled(exp, l, v))
  {
    hide Sum;
    forall t ensures Weigh(exp, l, 0.0)(t) == Exponentials(exp, l)(t) && Weighted(exp, l, 0.0, v)(t) == Scaled(exp, l, v)(t) {
      assert l(t) - 0.0 == l(t);
    }
    SumExt(0, n, Weigh(exp, l, 0.0), Exponentials(exp, l));
    SumExt(0, n, Weighted(exp, l, 0.0, v), Scaled(exp, l, v));
  }

  lemma SameQuotient(c: real, a: real, b: real)
    requires c > 0.0 && b >= 1.0
    ensures c * b > 0.0 && (c * a) / (c * b) == a / b
  {
    var q := a / b;
    assert q * b == a;
    assert q * (c * b) == c * (q * b);
  }

  lemma AttentionExt(exp: real -> real, l: int -> real, l': int -> real, v: int -> real, v': int -> real, n: int)
    requires forall t :: 0 <= t < n ==> l(t) == l'(t) && v(t) == v'(t)
    ensures SoftmaxAttention(exp, l, v, n) == SoftmaxAttention(exp, l', v', n)
  {
    SumExt(0, n, Exponentials(exp, l), Exponentials(exp, l'));
    SumExt(0, n, Scaled(exp, l, v), Scaled(exp, l', v'));
    hide Sum;
  }

  /** Attention over the paged cache is attention over the rows. */
  lemma AttentionIsPlain(k: Launch, s: int, h: int, e: int, r: WrittenRows)
    requires Ready(k) && Row(k, s, h) && AllWritten(k, s, r) && 0 <= e < k.d.headSize
    ensures Attention(k, s, h, e)
            == SoftmaxAttention(k.exp, PlainLogit(k, s, h, KeyOf(r)), PlainValue(k, h, e, ValueOf(r)), k.lens[s])
  {
    hide Ready, AllWritten, Logit, ValueAt, PlainLogit, PlainValue, IsExp, Average, SoftmaxAttention;
    LaunchOf(k, s, h);
    AverageIsAttention(k.exp, Logit(k, s, h), ValueAt(k, s, h, e), k.lens[s]);
    forall t | 0 <= t < k.lens[s]
      ensures Logit(k, s, h)(t) == PlainLogit(k, s, h, KeyOf(r))(t) && ValueAt(k, s, h, e)(t) == PlainValue(k, h, e, ValueOf(r))(t)
    {
      LogitIsPlain(k, s, h, t, r);
      ValueIsPlainRow(k, s, h, t, e, r);
    }
    AttentionExt(k.exp, Logit(k, s, h), PlainLogit(k, s, h, KeyOf(r)), ValueAt(k, s, h, e), PlainValue(k, h, e, ValueOf(r)), k.lens[s]);
  }

  /**
   What v1 leaves at [s][h][e] of an output of shape [sequences][heads][headSize]: softmax
   attention of the query head over the sequence's key and value rows.
   */
  lemma V1OutputIsPlain(k: Launch, s: int, h: int, e: int, r: WrittenRows, out: seq<real>)
    requires Ready(k) && Row(k, s, h) && AllWritten(k, s, r) && 0 <= e < k.d.headSize && Attended(k, s, h, out)
    ensures At(out, (s * k.numHeads + h) * k.d.headSize + e)
            == SoftmaxAttention(k.exp, PlainLogit(k, s, h, KeyOf(r)), PlainValue(k, h, e, ValueOf(r)), k.lens[s])
  {
    hide Ready, AllWritten, SoftmaxAttention, Attention;
    AttentionIsPlain(k, s, h, e, r);
    assert RowElem(out, k.d.headSize, RowIndex(k, s, h), e) == Attention(k, s, h, e);
  }

  /** And v2: the same for a sequence that fits one partition, and else with one small factor for the whole row. */
  lemma V2OutputIsPlain(k: Launch, w: nat, maxParts: nat, s: int, h: int, e: int, r: WrittenRows, out: seq<real>)
    requires Partitioned(k, w, maxParts) && Row(k, s, h) && AllWritten(k, s, r) && 0 <= e < k.d.headSize && RowCombined(k, w, s, h, out)
    ensures Total(k, s, h) >= 1.0
    ensures var plain := SoftmaxAttention(k.exp, PlainLogit(k, s, h, KeyOf(r)), PlainValue(k, h, e, ValueOf(r)), k.lens[s]);
            At(out, (s * k.numHeads + h) * k.d.headSize + e) ==
            if k.lens[s] <= w then plain else plain * (Total(k, s, h) / (Total(k, s, h) + 0.00000001))
  {
    hide Ready, AllWritten, SoftmaxAttention, Attention, RowCombined, Total, Partitioned, Parts, Row;
    PartitionedReady(k, w, maxParts, s, h);
    AttentionIsPlain(k, s, h, e, r);
    ElementIs(k, w, maxParts, s, h, e, out);
  }

  lemma PartitionedReady(k: Launch, w: nat, maxParts: nat, s: int, h: int)
    requires Partitioned(k, w, maxParts) && Row(k, s, h)
    ensures Ready(k) && w > 0 && (Parts(k, w, s) == 1 <==> k.lens[s] <= w)
  {
    PartsAre(k, w, maxParts, s, h);
    hide Ready;
    LaunchOf(k, s, h);
    var parts := Parts(k, w, s);
    if parts > 1 { MulMono(1, parts - 1, w); }
  }
}
