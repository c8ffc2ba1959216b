/**
 * One-dimensional tensors over exact reals: sums, normalisation to a
 * probability vector, and the symbolic logarithm that logits are built from.
 */
module Tensors {

  /**
   * One entry of a logits tensor. The natural logarithm is transcendental,
   * so the model keeps it symbolic: `Ln(p)` is the logarithm of `p` (minus
   * infinity when `p` is zero, and the not-a-number that torch returns when
   * `p` is negative), `Real(x)` a logit given directly, and `NaN` the
   * not-a-number that floating point produces for 0/0.
   */
  datatype Scalar = Real(r: real) | Ln(arg: real) | NaN

  /**
   * Elementwise logarithm of a tensor, `Tensor.log()`: the log of each entry,
   * and the log of a distribution when the tensor is one.
   */
  function LnAll(p: seq<real>): (r: seq<Scalar>)
    ensures |r| == |p| && forall i :: 0 <= i < |p| ==> r[i] == Ln(p[i])
    ensures IsDistribution(p) ==> IsLogOfDistribution(r)
  {
    var r := seq(|p|, i requires 0 <= i < |p| => Ln(p[i]));
    assert seq(|r|, i requires 0 <= i < |r| => if r[i].Ln? then r[i].arg else 0.0) == p;
    r
  }

  /** `Tensor.sum()`; its properties are the lemmas below. */
  function Sum(s: seq<real>): real
  {
    if s == [] then 0.0 else s[0] + Sum(s[1..])
  }

  function Zeros(n: nat): (r: seq<real>)
    ensures |r| == n && forall i :: 0 <= i < n ==> r[i] == 0.0
  {
    if n == 0 then [] else [0.0] + Zeros(n - 1)
  }

  predicate NonNegative(s: seq<real>)
  {
    forall i :: 0 <= i < |s| ==> 0.0 <= s[i]
  }

  predicate Positive(s: seq<real>)
  {
    forall i :: 0 <= i < |s| ==> 0.0 < s[i]
  }

  /** A valid categorical distribution: non-negative entries summing to one. */
  predicate IsDistribution(p: seq<real>)
  {
    NonNegative(p) && Sum(p) == 1.0
  }

  /** True of a logits tensor that is, entry by entry, the log of a distribution. */
  predicate IsLogOfDistribution(l: seq<Scalar>)
  {
    (forall i :: 0 <= i < |l| ==> l[i].Ln?) &&
    IsDistribution(seq(|l|, i requires 0 <= i < |l| => if l[i].Ln? then l[i].arg else 0.0))
  }

  lemma {:induction false} SumAppend(s: seq<real>, t: seq<real>)
    ensures Sum(s + t) == Sum(s) + Sum(t)
  {
    if s == [] {
      assert s + t == t;
    } else {
      assert (s + t)[1..] == s[1..] + t;
      SumAppend(s[1..], t);
    }
  }

  lemma {:induction false} SumZeros(n: nat)
    ensures Sum(Zeros(n)) == 0.0
  {
    if n > 0 {
      assert Zeros(n)[1..] == Zeros(n - 1);
      SumZeros(n - 1);
    }
  }

  /** Adding `d` to one entry adds `d` to the sum. */
  lemma {:induction false} SumUpdate(s: seq<real>, i: nat, d: real)
    requires i < |s|
    ensures Sum(s[i := s[i] + d]) == Sum(s) + d
  {
    if i > 0 {
      assert s[i := s[i] + d][1..] == s[1..][i - 1 := s[1..][i - 1] + d];
      SumUpdate(s[1..], i - 1, d);
    }
  }

  /** The sum of non-negative entries is non-negative, and positive when some entry is. */
  lemma {:induction false} SumSign(s: seq<real>)
    requires NonNegative(s)
    ensures 0.0 <= Sum(s)
    ensures (exists i :: 0 <= i < |s| && 0.0 < s[i]) ==> 0.0 < Sum(s)
  {
    if s != [] {
      SumSign(s[1..]);
      if exists i :: 0 <= i < |s| && 0.0 < s[i] {
        var i :| 0 <= i < |s| && 0.0 < s[i];
        if i > 0 {
          assert 0.0 < s[1..][i - 1];
        }
      }
    }
  }

  /** Dividing every entry by `t` divides the sum by `t`. */
  lemma {:induction false} SumScaled(w: seq<real>, t: real)
    requires t != 0.0
    ensures Sum(seq(|w|, i requires 0 <= i < |w| => w[i] / t)) == Sum(w) / t
  {
    var scaled := seq(|w|, i requires 0 <= i < |w| => w[i] / t);
    if w != [] {
      assert scaled[1..] == seq(|w[1..]|, i requires 0 <= i < |w[1..]| => w[1..][i] / t);
      SumScaled(w[1..], t);
      assert (w[0] + Sum(w[1..])) / t == w[0] / t + Sum(w[1..]) / t;
    }
  }

  lemma DivSelf(t: real)
    requires t != 0.0
    ensures t / t == 1.0
  {
  }

  /**
   * Divides every entry by the total, `w / w.sum()`. The result sums to one;
   * it is a distribution when the weights are non-negative.
   */
  function Normalize(w: seq<real>): (r: seq<real>)
    requires Sum(w) != 0.0
    ensures |r| == |w| && Sum(r) == 1.0
    ensures forall i :: 0 <= i < |w| ==> r[i] * Sum(w) == w[i]
    ensures NonNegative(w) ==> IsDistribution(r)
    ensures Positive(w) ==> Positive(r)
  {
    var total := Sum(w);
    SumScaled(w, total);
    assert NonNegative(w) ==> 0.0 < total by {
      if NonNegative(w) { SumSign(w); }
    }
    var r := seq(|w|, i requires 0 <= i < |w| => w[i] / total);
    assert Sum(r) == total / total;
    DivSelf(total);
    r
  }

  /**
   * `softmax(0)` of a one-dimensional tensor, given the exponentials of its
   * entries (the exponential itself is transcendental and stays outside the
   * model): every entry strictly positive and, unless empty, summing to one.
   */
  function Softmax(expU: seq<real>): (r: seq<real>)
    requires Positive(expU)
    ensures |r| == |expU| && Positive(r)
    ensures expU != [] ==> IsDistribution(r)
    ensures expU != [] ==> forall i :: 0 <= i < |r| ==> r[i] * Sum(expU) == expU[i]
  {
    if expU == [] then []
    else
      SumSign(expU);
      assert 0.0 < expU[0];
      Normalize(expU)
  }
}
