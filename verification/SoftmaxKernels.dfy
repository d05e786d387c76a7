/** The in-place softmax loops of the CPU attention kernels. */
module SoftmaxKernels {
  import opened RealSums
  import opened Softmax
  import opened CacheWrites

  /** The values stored from a base address on. */
  ghost function Elem(s: seq<real>, base: int): int -> real {
    i => At(s, base + i)
  }

  lemma ElemAt(s: seq<real>, base: nat, i: nat)
    requires base + i < |s|
    ensures Elem(s, base)(i) == s[base + i]
  {
    assert At(s, base + i) == s[base + i];
    var f := Elem(s, base);
    assert f(i) == At(s, base + i);
  }

  /** The linear position bias of token i of a range that starts at start. */
  function Bias(slope: real, start: int, seqLen: int, i: int): real {
    slope * (start + i - seqLen + 1) as real
  }

  ghost function Biased(s: seq<real>, slope: real, start: int, seqLen: int): int -> real {
    i => At(s, i) + Bias(slope, start, seqLen, i)
  }

  /** Replaces the first size logits by their softmax and clears up to the capacity. */
  method ReduceSoftmax(exp: real -> real, data: array<real>, size: nat, capacity: nat) returns (max: real, sum: real)
    requires IsExp(exp) && 1 <= size <= capacity <= data.Length
    modifies data
    ensures max == Max(0, size, Elem(old(data[..]), 0))
    ensures sum == Mass(exp, Elem(old(data[..]), 0), 0, size, max) && sum >= 1.0
    ensures forall i :: 0 <= i < size ==> data[i] == exp(old(data[i]) - max) / sum
    ensures forall i :: size <= i < capacity ==> data[i] == 0.0
    ensures forall i :: capacity <= i < data.Length ==> data[i] == old(data[i])
  {
    hide IsExp;
    ghost var l := Elem(data[..], 0);
    max := data[0];
    for i := 1 to size
      invariant max == Max(0, i, l)
    {
      max := if max >= data[i] then max else data[i];
    }
    sum := Exponentiate(exp, data, size, max, l);
    MassAtLeastOne(exp, l, 0, size);
    Normalize(data, size, capacity, sum);
  }

  /** The same after adding each token's position bias. */
  method ReduceSoftmaxAlibi(exp: real -> real, data: array<real>, size: nat, capacity: nat, slope: real, start: int, seqLen: int)
    returns (max: real, sum: real)
    requires IsExp(exp) && 1 <= size <= capacity <= data.Length
    modifies data
    ensures max == Max(0, size, Biased(old(data[..]), slope, start, seqLen))
    ensures sum == Mass(exp, Biased(old(data[..]), slope, start, seqLen), 0, size, max) && sum >= 1.0
    ensures forall i :: 0 <= i < size ==> data[i] == exp(old(data[i]) + Bias(slope, start, seqLen, i) - max) / sum
    ensures forall i :: size <= i < capacity ==> data[i] == 0.0
    ensures forall i :: capacity <= i < data.Length ==> data[i] == old(data[i])
  {
    hide IsExp, Bias;
    ghost var l := Biased(data[..], slope, start, seqLen);
    max := AddBias(data, size, slope, start, seqLen);
    sum := Exponentiate(exp, data, size, max, l);
    MassAtLeastOne(exp, l, 0, size);
    Normalize(data, size, capacity, sum);
  }

  method AddBias(data: array<real>, size: nat, slope: real, start: int, seqLen: int) returns (max: real)
    requires 1 <= size <= data.Length
    modifies data
    ensures max == Max(0, size, Biased(old(data[..]), slope, start, seqLen))
    ensures forall i :: 0 <= i < size ==> data[i] == old(data[i]) + Bias(slope, start, seqLen, i)
    ensures forall i :: size <= i < data.Length ==> data[i] == old(data[i])
  {
    hide Bias;
    ghost var l := Biased(data[..], slope, start, seqLen);
    data[0] := data[0] + Bias(slope, start, seqLen, 0);
    max := data[0];
    for i := 1 to size
      invariant max == Max(0, i, l)
      invariant forall j :: 0 <= j < i ==> data[j] == old(data[j]) + Bias(slope, start, seqLen, j)
      invariant forall j :: i <= j < data.Length ==> data[j] == old(data[j])
    {
      var qk := data[i] + Bias(slope, start, seqLen, i);
      data[i] := qk;
      max := if max >= qk then max else qk;
    }
  }

  method Exponentiate(exp: real -> real, data: array<real>, size: nat, max: real, ghost l: int -> real) returns (sum: real)
    requires size <= data.Length && forall i :: 0 <= i < size ==> data[i] == l(i)
    modifies data
    ensures sum == Mass(exp, l, 0, size, max)
    ensures forall i :: 0 <= i < size ==> data[i] == exp(old(data[i]) - max)
    ensures forall i :: size <= i < data.Length ==> data[i] == old(data[i])
  {
    sum := 0.0;
    for i := 0 to size
      invariant sum == Mass(exp, l, 0, i, max)
      invariant forall j :: 0 <= j < i ==> data[j] == exp(old(data[j]) - max)
      invariant forall j :: i <= j < data.Length ==> data[j] == old(data[j])
    {
      data[i] := exp(data[i] - max);
      sum := sum + data[i];
    }
  }

  method Normalize(data: array<real>, size: nat, capacity: nat, sum: real)
    requires size <= capacity <= data.Length && sum != 0.0
    modifies data
    ensures forall i :: 0 <= i < size ==> data[i] == old(data[i]) / sum
    ensures forall i :: size <= i < capacity ==> data[i] == 0.0
    ensures forall i :: capacity <= i < data.Length ==> data[i] == old(data[i])
  {
    for i := 0 to size
      invariant forall j :: 0 <= j < i ==> data[j] == old(data[j]) / sum
      invariant forall j :: i <= j < data.Length ==> data[j] == old(data[j])
    {
      data[i] := data[i] / sum;
    }
    for i := size to capacity
      invariant forall j :: 0 <= j < size ==> data[j] == old(data[j]) / sum
      invariant forall j :: size <= j < i ==> data[j] == 0.0
      invariant forall j :: capacity <= j < data.Length ==> data[j] == old(data[j])
    {
      data[i] := 0.0;
    }
  }

  /** Turns the parts' sums, from a base address on, into the factors that combine the parts. */
  method ReducePartitionSoftmax(exp: real -> real, maxData: array<real>, sumData: array<real>, base: nat, size: nat)
    returns (ghost max: real, ghost total: real)
    requires IsExp(exp) && size >= 1 && base + size <= maxData.Length && base + size <= sumData.Length && maxData != sumData
    requires forall j :: base <= j < base + size ==> sumData[j] >= 0.0
    modifies sumData
    ensures max == Max(0, size, Elem(maxData[..], base))
    ensures total == Sum(0, size, Rescaled(exp, Elem(maxData[..], base), Elem(old(sumData[..]), base), max)) && total >= 0.0
    ensures forall j :: base <= j < base + size ==>
              sumData[j] == Rescaled(exp, Elem(maxData[..], base), Elem(old(sumData[..]), base), max)(j - base) / (total + EPSILON)
    ensures forall j :: 0 <= j < sumData.Length && !(base <= j < base + size) ==> sumData[j] == old(sumData[j])
  {
    hide IsExp, Rescaled, Elem, Max, Sum;
    var m := LargestPart(maxData, base, size);
    var rescaledSum := RescaleParts(exp, maxData, sumData, base, size, m);
    ghost var sums := sumData[..];
    for i := base to base + size
      invariant forall j :: base <= j < i ==> sumData[j] == sums[j] / (rescaledSum + EPSILON)
      invariant forall j :: 0 <= j < sumData.Length && !(base <= j < i) ==> sumData[j] == sums[j]
    {
      sumData[i] := sumData[i] / (rescaledSum + EPSILON);
    }
    max, total := m, rescaledSum;
  }

  method LargestPart(maxData: array<real>, base: nat, size: nat) returns (m: real)
    requires size >= 1 && base + size <= maxData.Length
    ensures m == Max(0, size, Elem(maxData[..], base))
  {
    ghost var maxima := Elem(maxData[..], base);
    ElemAt(maxData[..], base, 0);
    m := maxData[base];
    for i := 1 to size
      invariant m == Max(0, i, maxima)
    {
      ElemAt(maxData[..], base, i);
      m := if m >= maxData[base + i] then m else maxData[base + i];
    }
  }

  /** Scales each part's sum to the common maximum and adds them up. */
  method RescaleParts(exp: real -> real, maxData: array<real>, sumData: array<real>, base: nat, size: nat, m: real) returns (total: real)
    requires IsExp(exp) && base + size <= maxData.Length && base + size <= sumData.Length && maxData != sumData
    requires forall j :: base <= j < base + size ==> sumData[j] >= 0.0
    modifies sumData
    ensures total == Sum(0, size, Rescaled(exp, Elem(maxData[..], base), Elem(old(sumData[..]), base), m)) && total >= 0.0
    ensures forall j :: base <= j < base + size ==>
              sumData[j] == Rescaled(exp, Elem(maxData[..], base), Elem(old(sumData[..]), base), m)(j - base)
    ensures forall j :: 0 <= j < sumData.Length && !(base <= j < base + size) ==> sumData[j] == old(sumData[j])
  {
    hide IsExp, Rescaled;
    ghost var rescaled := Rescaled(exp, Elem(maxData[..], base), Elem(sumData[..], base), m);
    total := 0.0;
    for i := 0 to size
      invariant total == Sum(0, i, rescaled) && total >= 0.0
      invariant forall j :: base <= j < base + i ==> sumData[j] == rescaled(j - base)
      invariant forall j :: 0 <= j < sumData.Length && !(base <= j < base + i) ==> sumData[j] == old(sumData[j])
    {
      var factor := exp(maxData[base + i] - m);
      PartIsRescaled(exp, maxData[..], old(sumData[..]), base, m, i);
      total := total + factor * sumData[base + i];
      sumData[base + i] := sumData[base + i] * factor;
    }
  }

  lemma PartIsRescaled(exp: real -> real, maxima: seq<real>, sums: seq<real>, base: nat, m: real, i: nat)
    requires IsExp(exp) && base + i < |maxima| && base + i < |sums| && sums[base + i] >= 0.0
    ensures Rescaled(exp, Elem(maxima, base), Elem(sums, base), m)(i) == exp(maxima[base + i] - m) * sums[base + i] >= 0.0
  {
    assert exp(maxima[base + i] - m) > 0.0;
    hide IsExp;
    ElemAt(maxima, base, i);
    ElemAt(sums, base, i);
  }
}
