/** The classifier's two pieces of exact arithmetic: the class-balance weight and the 0.5 decision threshold. */
module Decisions {

  import opened Wrappers
  import opened Errors

  /** `[1 if y > 0.5 else 0 for y in scores]`. */
  function Decide(scores: seq<real>): (r: seq<int>)
    ensures |r| == |scores|
    ensures forall i :: 0 <= i < |scores| ==> (r[i] == 1 <==> scores[i] > 0.5) && (r[i] == 0 <==> scores[i] <= 0.5)
  {
    if scores == [] then [] else [if scores[0] > 0.5 then 1 else 0] + Decide(scores[1..])
  }

  /** Deciding a batch is deciding its parts: no row's label depends on another row. */
  lemma DecideSplits(a: seq<real>, b: seq<real>)
    ensures Decide(a + b) == Decide(a) + Decide(b)
  {
  }

  /** A higher score never gives a lower label. */
  lemma DecideMonotone(a: seq<real>, b: seq<real>)
    requires |a| == |b| && forall i :: 0 <= i < |a| ==> a[i] <= b[i]
    ensures forall i :: 0 <= i < |a| ==> Decide(a)[i] <= Decide(b)[i]
  {
  }

  /** Exactly 0.5 is not a delay; anything above it is. */
  lemma DecideBoundary()
    ensures Decide([0.5, 0.5000001, 0.0, 1.0]) == [0, 1, 0, 1]
  {
  }

  /** `len(target[target["delay"] == v])`. */
  function CountLabel(labels: seq<int>, v: int): (n: nat)
    ensures n <= |labels|
  {
    if labels == [] then 0 else (if labels[0] == v then 1 else 0) + CountLabel(labels[1..], v)
  }

  /** The count is the multiplicity of the label in the batch, whatever the order of the rows. */
  lemma {:induction false} CountIsMultiplicity(labels: seq<int>, v: int)
    ensures CountLabel(labels, v) == multiset(labels)[v]
  {
    if labels != [] {
      CountIsMultiplicity(labels[1..], v);
      assert labels == [labels[0]] + labels[1..];
      assert multiset(labels) == multiset{labels[0]} + multiset(labels[1..]);
    }
  }

  /** `scale_pos_weight = label_0 / label_1`; there is no weight without a positive label. */
  function ScalePosWeight(labels: seq<int>): (r: Result<real, Error>)
    ensures r.Ok? <==> CountLabel(labels, 1) > 0
    ensures r.Err? ==> r.error == ZeroPositiveLabels
    ensures r.Ok? ==> r.value * CountLabel(labels, 1) as real == CountLabel(labels, 0) as real
    ensures r.Ok? ==> r.value >= 0.0
  {
    var label0, label1 := CountLabel(labels, 0), CountLabel(labels, 1);
    if label1 == 0 then Err(ZeroPositiveLabels) else Ok(label0 as real / label1 as real)
  }

  /** The weight depends only on how many rows carry each label. */
  lemma ScalePosWeightOrderFree(a: seq<int>, b: seq<int>)
    requires multiset(a) == multiset(b)
    ensures ScalePosWeight(a) == ScalePosWeight(b)
  {
    CountIsMultiplicity(a, 0);
    CountIsMultiplicity(a, 1);
    CountIsMultiplicity(b, 0);
    CountIsMultiplicity(b, 1);
  }

  /** `n0` negatives followed by `n1` positives. */
  function Labels(n0: nat, n1: nat): (r: seq<int>)
    ensures |r| == n0 + n1
  {
    seq(n0, _ => 0) + seq(n1, _ => 1)
  }

  lemma {:induction false} CountConstant(n: nat, x: int, v: int)
    ensures CountLabel(seq(n, _ => x), v) == if x == v then n else 0
  {
    if n > 0 {
      assert seq(n, _ => x)[1..] == seq(n - 1, _ => x);
      CountConstant(n - 1, x, v);
    }
  }

  lemma {:induction false} CountAppend(a: seq<int>, b: seq<int>, v: int)
    ensures CountLabel(a + b, v) == CountLabel(a, v) + CountLabel(b, v)
  {
    if a == [] {
      assert a + b == b;
    } else {
      assert (a + b)[1..] == a[1..] + b;
      CountAppend(a[1..], b, v);
    }
  }

  /** With `n0` negatives and `n1 > 0` positives the weight is `n0 / n1`: 80 and 20 give 4. */
  lemma ScalePosWeightOfCounts(n0: nat, n1: nat)
    ensures n1 > 0 ==> ScalePosWeight(Labels(n0, n1)) == Ok(n0 as real / n1 as real)
    ensures n1 == 0 ==> ScalePosWeight(Labels(n0, n1)) == Err(ZeroPositiveLabels)
    ensures ScalePosWeight(Labels(80, 20)) == Ok(4.0)
  {
    forall m0: nat, m1: nat, v: int
      ensures CountLabel(Labels(m0, m1), v) == (if v == 0 then m0 else 0) + (if v == 1 then m1 else 0)
    {
      CountAppend(seq(m0, _ => 0), seq(m1, _ => 1), v);
      CountConstant(m0, 0, v);
      CountConstant(m1, 1, v);
    }
  }
}
