/** One-pass and partitioned softmax averages over the reals. */
module Softmax {
  import opened RealSums

  /** The small constant that the partitioned form adds to its denominator. */
  const EPSILON := 0.00000001

  /** All that is used of the exponential: it is positive and turns sums into products. */
  ghost predicate IsExp(exp: real -> real) {
    (forall a :: exp(a) > 0.0) && forall a, b :: exp(a) * exp(b) == exp(a + b)
  }

  lemma ExpSum(exp: real -> real, a: real, b: real)
    requires IsExp(exp)
    ensures exp(a + b) == exp(a) * exp(b) && exp(a) > 0.0
  {
  }

  lemma ExpZero(exp: real -> real)
    requires IsExp(exp)
    ensures exp(0.0) == 1.0
  {
    var e := exp(0.0);
    ExpSum(exp, 0.0, 0.0);
    assert e * (e - 1.0) == 0.0;
  }

  ghost function Weigh(exp: real -> real, l: int -> real, m: real): int -> real {
    t => exp(l(t) - m)
  }

  ghost function Weighted(exp: real -> real, l: int -> real, m: real, v: int -> real): int -> real {
    t => exp(l(t) - m) * v(t)
  }

  /** The softmax denominator of lo..hi, relative to m. */
  ghost function Mass(exp: real -> real, l: int -> real, lo: int, hi: int, m: real): real {
    Sum(lo, hi, Weigh(exp, l, m))
  }

  /** The softmax numerator of lo..hi, relative to m. */
  ghost function Mix(exp: real -> real, l: int -> real, lo: int, hi: int, m: real, v: int -> real): real {
    Sum(lo, hi, Weighted(exp, l, m, v))
  }

  /** A range has at least the mass of its largest logit. */
  lemma MassAtLeastOne(exp: real -> real, l: int -> real, lo: int, hi: int)
    requires IsExp(exp) && lo < hi
    ensures Mass(exp, l, lo, hi, Max(lo, hi, l)) >= 1.0
  {
    MaxIs(lo, hi, l);
    var m := Max(lo, hi, l);
    var i :| lo <= i < hi && l(i) == m;
    ExpZero(exp);
    assert Weigh(exp, l, m)(i) == 1.0;
    SumCovers(lo, hi, Weigh(exp, l, m), i);
  }

  lemma WeightRescale(exp: real -> real, l: int -> real, m: real, m': real, v: int -> real, t: int)
    requires IsExp(exp)
    ensures Weigh(exp, l, m')(t) == exp(m - m') * Weigh(exp, l, m)(t)
    ensures Weighted(exp, l, m', v)(t) == exp(m - m') * Weighted(exp, l, m, v)(t)
  {
    hide IsExp;
    Shift(exp, l(t), m, m');
    TimesAssoc(exp(m - m'), exp(l(t) - m), v(t));
  }

  lemma Shift(exp: real -> real, x: real, m: real, m': real)
    requires IsExp(exp)
    ensures exp(x - m') == exp(m - m') * exp(x - m)
  {
    ExpSum(exp, m - m', x - m);
    assert (m - m') + (x - m) == x - m';
  }

  /** Moving the reference point scales every weight alike. */
  lemma Rescale(exp: real -> real, l: int -> real, lo: int, hi: int, m: real, m': real, v: int -> real)
    requires IsExp(exp)
    ensures Mass(exp, l, lo, hi, m') == exp(m - m') * Mass(exp, l, lo, hi, m)
    ensures Mix(exp, l, lo, hi, m', v) == exp(m - m') * Mix(exp, l, lo, hi, m, v)
  {
    hide IsExp, Weigh, Weighted;
    forall t { WeightRescale(exp, l, m, m', v, t); }
    SumScale(lo, hi, Weigh(exp, l, m), exp(m - m'), Weigh(exp, l, m'));
    SumScale(lo, hi, Weighted(exp, l, m, v), exp(m - m'), Weighted(exp, l, m', v));
  }

  lemma TimesAssoc(a: real, b: real, c: real)
    ensures a * b * c == a * (b * c)
  {
  }

  /** The one-pass average of v, weighted by the softmax of l. */
  ghost function Average(exp: real -> real, l: int -> real, lo: int, hi: int, v: int -> real): real {
    var m := Max(lo, hi, l);
    var s := Mass(exp, l, lo, hi, m);
    if s == 0.0 then 0.0 else Mix(exp, l, lo, hi, m, v) / s
  }

  // ---------------------------------------------------------------- partitions

  ghost function PartMax(l: int -> real, n: int, w: int): int -> real {
    p => Max(p * w, PartEnd(n, w, p), l)
  }

  ghost function PartMass(exp: real -> real, l: int -> real, n: int, w: int): int -> real {
    p => Mass(exp, l, p * w, PartEnd(n, w, p), PartMax(l, n, w)(p))
  }

  ghost function PartAverage(exp: real -> real, l: int -> real, n: int, w: int, v: int -> real): int -> real {
    p => Average(exp, l, p * w, PartEnd(n, w, p), v)
  }

  /** The rescaled mass of each part. */
  ghost function Rescaled(exp: real -> real, maxima: int -> real, sums: int -> real, m: real): int -> real {
    p => exp(maxima(p) - m) * sums(p)
  }

  /** What the final reduction adds up: each part's average times its factor. */
  ghost function Contribution(exp: real -> real, l: int -> real, n: int, w: int, v: int -> real, m: real, total: real): int -> real {
    p => PartAverage(exp, l, n, w, v)(p)
         * (if total + EPSILON == 0.0 then 0.0
            else Rescaled(exp, PartMax(l, n, w), PartMass(exp, l, n, w), m)(p) / (total + EPSILON))
  }

  /** n tokens make up exactly this many parts of size w, none of them empty. */
  ghost predicate PartsOf(n: int, w: int, parts: int) {
    w > 0 && parts > 0 && (parts - 1) * w < n <= parts * w
  }

  lemma PartRange(n: int, w: int, parts: int, p: int)
    requires PartsOf(n, w, parts) && 0 <= p < parts
    ensures 0 <= p * w < PartEnd(n, w, p) <= n
    ensures PartEnd(n, w, p) <= p * w + w
  {
    assert (p + 1) * w == p * w + w;
    NonNegative(p, w);
    NonNegative(parts - 1 - p, w);
    assert (parts - 1) * w == p * w + (parts - 1 - p) * w;
  }

  /** Token t lies in part t / w. */
  lemma PartOfToken(n: int, w: int, parts: int, t: int)
    requires PartsOf(n, w, parts) && 0 <= t < n
    ensures var p := t / w; 0 <= p < parts && p * w <= t < PartEnd(n, w, p)
  {
    var p := t / w;
    assert t == p * w + t % w && (p + 1) * w == p * w + w;
    assert (p - parts) * w == p * w - parts * w && (-1 - p) * w == -w - p * w;
    if p >= parts { NonNegative(p - parts, w); }
    if p < 0 { NonNegative(-1 - p, w); }
  }

  /** The largest of the parts' maxima is the maximum. */
  lemma MaxOfParts(l: int -> real, n: int, w: int, parts: int)
    requires PartsOf(n, w, parts)
    ensures Max(0, parts, PartMax(l, n, w)) == Max(0, n, l)
  {
    PartRange(n, w, parts, 0);
    MaxIs(0, n, l);
    var m := Max(0, n, l);
    var t :| 0 <= t < n && l(t) == m;
    PartOfToken(n, w, parts, t);
    var p := t / w;
    forall q | 0 <= q < parts ensures PartMax(l, n, w)(q) <= m && (q == p ==> PartMax(l, n, w)(q) == m) {
      PartRange(n, w, parts, q);
      MaxIs(q * w, PartEnd(n, w, q), l);
    }
    MaxUnique(0, parts, PartMax(l, n, w), m, p);
  }

  /** One part's mass relative to the common reference point. */
  lemma RescaledIs(exp: real -> real, l: int -> real, n: int, w: int, m: real, p: int)
    requires IsExp(exp)
    ensures Rescaled(exp, PartMax(l, n, w), PartMass(exp, l, n, w), m)(p) == PartSums(n, w, Weigh(exp, l, m))(p)
  {
    hide IsExp;
    Rescale(exp, l, p * w, PartEnd(n, w, p), PartMax(l, n, w)(p), m, l);
  }

  /** The rescaled masses add up to the one-pass mass. */
  lemma MassOfParts(exp: real -> real, l: int -> real, n: int, w: int, parts: int, m: real)
    requires IsExp(exp) && PartsOf(n, w, parts)
    ensures Sum(0, parts, Rescaled(exp, PartMax(l, n, w), PartMass(exp, l, n, w), m)) == Mass(exp, l, 0, n, m)
  {
    PartRange(n, w, parts, 0);
    SumParts(n, w, parts, Weigh(exp, l, m));
    hide IsExp, Rescaled, PartMax, PartMass, PartSums, Weigh;
    forall p { RescaledIs(exp, l, n, w, m, p); }
    SumExt(0, parts, Rescaled(exp, PartMax(l, n, w), PartMass(exp, l, n, w), m), PartSums(n, w, Weigh(exp, l, m)));
  }

  lemma FactorOut(avg: real, mix: real, mass: real, e: real, total: real)
    requires mass != 0.0 && avg == mix / mass && total != 0.0
    ensures avg * (e * mass / total) == (1.0 / total) * (e * mix)
  {
    assert avg * mass == mix;
    assert avg * (e * mass / total) == (avg * mass) * e / total;
  }

  lemma ContributionParts(exp: real -> real, l: int -> real, n: int, w: int, v: int -> real, m: real, total: real, p: int)
    requires total + EPSILON != 0.0
    ensures var lo, hi := p * w, PartEnd(n, w, p);
            && Contribution(exp, l, n, w, v, m, total)(p)
               == Average(exp, l, lo, hi, v) * (exp(Max(lo, hi, l) - m) * Mass(exp, l, lo, hi, Max(lo, hi, l)) / (total + EPSILON))
            && PartSums(n, w, Weighted(exp, l, m, v))(p) == Mix(exp, l, lo, hi, m, v)
  {
    hide PartEnd, Average, Max, Sum;
    var lo, hi := p * w, PartEnd(n, w, p);
    assert PartMax(l, n, w)(p) == Max(lo, hi, l);
    assert PartMass(exp, l, n, w)(p) == Mass(exp, l, lo, hi, Max(lo, hi, l));
    assert PartAverage(exp, l, n, w, v)(p) == Average(exp, l, lo, hi, v);
    assert Rescaled(exp, PartMax(l, n, w), PartMass(exp, l, n, w), m)(p)
        == exp(Max(lo, hi, l) - m) * Mass(exp, l, lo, hi, Max(lo, hi, l));
  }

  lemma AverageIs(exp: real -> real, l: int -> real, lo: int, hi: int, v: int -> real)
    requires IsExp(exp) && lo < hi
    ensures var m := Max(lo, hi, l);
            && Mass(exp, l, lo, hi, m) >= 1.0
            && Average(exp, l, lo, hi, v) == Mix(exp, l, lo, hi, m, v) / Mass(exp, l, lo, hi, m)
  {
    hide IsExp, Max, Mass, Mix;
    MassAtLeastOne(exp, l, lo, hi);
  }

  /** One part contributes its share of the one-pass numerator. */
  lemma ContributionIs(exp: real -> real, l: int -> real, n: int, w: int, parts: int, v: int -> real, m: real, total: real, p: int)
    requires IsExp(exp) && PartsOf(n, w, parts) && 0 <= p < parts && total + EPSILON != 0.0
    ensures Contribution(exp, l, n, w, v, m, total)(p) == (1.0 / (total + EPSILON)) * PartSums(n, w, Weighted(exp, l, m, v))(p)
  {
    hide IsExp, Mix, Mass, PartEnd, Max, PartSums, Contribution, Average, Weighted, PartsOf;
    PartRange(n, w, parts, p);
    var lo, hi := p * w, PartEnd(n, w, p);
    var mp := Max(lo, hi, l);
    AverageIs(exp, l, lo, hi, v);
    Rescale(exp, l, lo, hi, mp, m, v);
    ContributionParts(exp, l, n, w, v, m, total, p);
    FactorOut(Average(exp, l, lo, hi, v), Mix(exp, l, lo, hi, mp, v), Mass(exp, l, lo, hi, mp), exp(mp - m), total + EPSILON);
  }

  /** The numerator, part by part. */
  lemma MixOfParts(exp: real -> real, l: int -> real, n: int, w: int, parts: int, m: real, v: int -> real)
    requires PartsOf(n, w, parts)
    ensures Sum(0, parts, PartSums(n, w, Weighted(exp, l, m, v))) == Mix(exp, l, 0, n, m, v)
  {
    PartRange(n, w, parts, 0);
    SumParts(n, w, parts, Weighted(exp, l, m, v));
  }

  /** The partitioned result: the one-pass average times S / (S + EPSILON), where S is the one-pass mass. */
  lemma PartitionedIsScaled(exp: real -> real, l: int -> real, n: int, w: int, parts: int, v: int -> real)
    requires IsExp(exp) && PartsOf(n, w, parts)
    ensures var m := Max(0, n, l);
            var s := Mass(exp, l, 0, n, m);
            && s >= 1.0
            && Sum(0, parts, Contribution(exp, l, n, w, v, m, s)) == Average(exp, l, 0, n, v) * (s / (s + EPSILON))
  {
    hide IsExp, Mass, Mix, PartSums, PartEnd, Contribution, Weighted, Average, Max;
    var m := Max(0, n, l);
    var s := Mass(exp, l, 0, n, m);
    PartRange(n, w, parts, 0);
    AverageIs(exp, l, 0, n, v);
    MixOfParts(exp, l, n, w, parts, m, v);
    forall p | 0 <= p < parts
      ensures Contribution(exp, l, n, w, v, m, s)(p) == (1.0 / (s + EPSILON)) * PartSums(n, w, Weighted(exp, l, m, v))(p)
    {
      ContributionIs(exp, l, n, w, parts, v, m, s, p);
    }
    SumScale(0, parts, PartSums(n, w, Weighted(exp, l, m, v)), 1.0 / (s + EPSILON), Contribution(exp, l, n, w, v, m, s));
    Share(Mix(exp, l, 0, n, m, v), s, s + EPSILON);
  }

  lemma Share(mix: real, s: real, d: real)
    requires s != 0.0 && d != 0.0
    ensures (1.0 / d) * mix == (mix / s) * (s / d)
  {
    assert (mix / s) * s == mix;
    assert (mix / s) * (s / d) == (mix / s) * s / d;
  }

  /** How much of the one-pass result the partitioned form keeps. */
  ghost function Kept(s: real): real
    requires s >= 1.0
  {
    s / (s + EPSILON)
  }

  /** The loss is real but at most one part in a hundred million. */
  lemma KeptAlmostAll(s: real)
    requires s >= 1.0
    ensures 1.0 - EPSILON <= Kept(s) < 1.0
  {
    var d := s + EPSILON;
    assert Kept(s) == (d - EPSILON) / d == 1.0 - EPSILON / d;
    assert 0.0 < EPSILON / d <= EPSILON;
  }
}
