/**
 * The closed-form estimators the emission models fit with: counting category
 * indices into bins (`Tensor.bincount`), and the per-column sample mean and
 * unbiased sample variance (`Tensor.mean(0)`, `Tensor.std(0).pow(2)`).
 */
module Stats {
  import opened Tensors

  /** Integer category indices converted to reals, `Tensor.float()`. */
  function ToReals(c: seq<nat>): (r: seq<real>)
    ensures |r| == |c| && NonNegative(r)
    ensures forall i :: 0 <= i < |c| ==> r[i] == c[i] as real
  {
    seq(|c|, i requires 0 <= i < |c| => c[i] as real)
  }

  predicate AllNonNegative(xs: seq<int>)
  {
    forall i :: 0 <= i < |xs| ==> 0 <= xs[i]
  }

  /** Bins `counts` extended with empty bins so that bin `v` exists, then bin `v` incremented. */
  function Tally(counts: seq<nat>, v: nat): (r: seq<nat>)
    ensures |r| == if v < |counts| then |counts| else v + 1
    ensures r[v] == (if v < |counts| then counts[v] else 0) + 1
    ensures forall u :: 0 <= u < |r| && u != v ==> r[u] == if u < |counts| then counts[u] else 0
  {
    var grown := if v < |counts| then counts else counts + seq(v + 1 - |counts|, _ => 0);
    grown[v := grown[v] + 1]
  }

  /**
   * `xs.bincount(minlength)`: bin `v` holds the number of occurrences of `v`
   * in `xs`; there are at least `minlength` bins, every observation has a
   * bin, and a bin past `minlength` exists only because an observation
   * landed in the last one.
   */
  function BinCount(xs: seq<int>, minlength: nat): (r: seq<nat>)
    requires AllNonNegative(xs)
    ensures minlength <= |r|
    ensures forall i :: 0 <= i < |xs| ==> xs[i] < |r|
    ensures |r| == minlength || (|r| - 1) in xs
    ensures forall v :: 0 <= v < |r| ==> r[v] == multiset(xs)[v]
    decreases |xs|
  {
    if xs == [] then seq(minlength, _ => 0)
    else
      var init, last := xs[..|xs| - 1], xs[|xs| - 1];
      assert xs == init + [last];
      assert multiset(xs) == multiset(init) + multiset{last};
      Tally(BinCount(init, minlength), last)
  }

  /** Tallying one observation adds one to the total of the bins. */
  lemma TallyTotal(c: seq<nat>, v: nat)
    ensures Sum(ToReals(Tally(c, v))) == Sum(ToReals(c)) + 1.0
  {
    var g := if v < |c| then ToReals(c) else ToReals(c) + Zeros(v + 1 - |c|);
    if v >= |c| {
      SumAppend(ToReals(c), Zeros(v + 1 - |c|));
      SumZeros(v + 1 - |c|);
    }
    assert ToReals(Tally(c, v)) == g[v := g[v] + 1.0];
    SumUpdate(g, v, 1.0);
  }

  /** Bin counts always add up to the number of observations. */
  lemma {:induction false} BinCountTotal(xs: seq<int>, minlength: nat)
    requires AllNonNegative(xs)
    ensures Sum(ToReals(BinCount(xs, minlength))) == |xs| as real
    decreases |xs|
  {
    if xs == [] {
      assert ToReals(BinCount(xs, minlength)) == Zeros(minlength);
      SumZeros(minlength);
    } else {
      var init, last := xs[..|xs| - 1], xs[|xs| - 1];
      BinCountTotal(init, minlength);
      TallyTotal(BinCount(init, minlength), last);
    }
  }

  /**
   * `Tensor.mean()`: the number that, taken N times, gives the total; for a
   * constant column, that constant.
   */
  function Mean(c: seq<real>): (r: real)
    requires |c| > 0
    ensures |c| as real * r == Sum(c)
    ensures (forall i :: 0 <= i < |c| ==> c[i] == c[0]) ==> r == c[0]
  {
    assert (forall i :: 0 <= i < |c| ==> c[i] == c[0]) ==> Sum(c) == |c| as real * c[0] by {
      if forall i :: 0 <= i < |c| ==> c[i] == c[0] {
        SumConstant(c, c[0]);
      }
    }
    Sum(c) / |c| as real
  }

  function Square(x: real): real
  {
    x * x
  }

  lemma SquareSign(d: real)
    ensures 0.0 <= Square(d)
  {
    if d > 0.0 {
      assert d * d > 0.0 * d;
    } else if d < 0.0 {
      assert (0.0 - d) * (0.0 - d) > 0.0 * (0.0 - d);
    }
  }

  /** A nonzero square plus something non-negative is positive. */
  lemma SquarePlusPositive(d: real, t: real, r: real)
    requires d != 0.0 && t == Square(d) + r && 0.0 <= r
    ensures 0.0 < t
  {
    assert Square(d) == d * d;
    if d > 0.0 {
      ProductPlusPositive(d, d, t, r);
    } else {
      assert (0.0 - d) * (0.0 - d) == d * d;
      ProductPlusPositive(0.0 - d, 0.0 - d, t, r);
    }
  }

  /** Over plain reals: the product of two positives plus a non-negative is positive. */
  lemma ProductPlusPositive(a: real, b: real, t: real, r: real)
    requires 0.0 < a && 0.0 < b && t == a * b + r && 0.0 <= r
    ensures 0.0 < t
  {
  }

  /** The sum of squared deviations of the entries of `c` from `m`. */
  function SquaredDeviations(c: seq<real>, m: real): real
  {
    if c == [] then 0.0 else Square(c[0] - m) + SquaredDeviations(c[1..], m)
  }

  /**
   * Squared deviations are never negative in sum; the sum is zero when every
   * entry equals `m` and positive as soon as one entry differs.
   */
  lemma {:induction false} SquaredDeviationsSign(c: seq<real>, m: real)
    ensures 0.0 <= SquaredDeviations(c, m)
    ensures (forall i :: 0 <= i < |c| ==> c[i] == m) ==> SquaredDeviations(c, m) == 0.0
    ensures (exists i :: 0 <= i < |c| && c[i] != m) ==> 0.0 < SquaredDeviations(c, m)
  {
    if c != [] {
      var d, rest := c[0] - m, c[1..];
      SquaredDeviationsSign(rest, m);
      SquareSign(d);
      assert SquaredDeviations(c, m) == Square(d) + SquaredDeviations(rest, m);
      if exists i :: 0 <= i < |c| && c[i] != m {
        var i :| 0 <= i < |c| && c[i] != m;
        if i > 0 {
          assert rest[i - 1] != m;
          assert 0.0 < SquaredDeviations(rest, m);
        } else {
          SquarePlusPositive(d, SquaredDeviations(c, m), SquaredDeviations(rest, m));
        }
      }
      if forall i :: 0 <= i < |c| ==> c[i] == m {
        assert forall i :: 0 <= i < |rest| ==> rest[i] == c[i + 1];
        assert Square(d) == 0.0;
      }
    }
  }

  /**
   * `c.std().pow(2)`: `Tensor.std` defaults to the unbiased estimator, so the
   * squared deviations are divided by N - 1, which needs at least two entries.
   * A variance is never negative.
   */
  function SampleVariance(c: seq<real>): (r: real)
    requires |c| >= 2
    ensures 0.0 <= r
  {
    SquaredDeviationsSign(c, Mean(c));
    SquaredDeviations(c, Mean(c)) / (|c| - 1) as real
  }

  /** Deviations from the mean cancel out: their sum is zero. */
  lemma {:induction false} DeviationsSumToZero(c: seq<real>)
    requires |c| > 0
    ensures Sum(seq(|c|, i requires 0 <= i < |c| => c[i] - Mean(c))) == 0.0
  {
    SumShifted(c, Mean(c));
  }

  lemma {:induction false} SumShifted(c: seq<real>, m: real)
    ensures Sum(seq(|c|, i requires 0 <= i < |c| => c[i] - m)) == Sum(c) - |c| as real * m
  {
    if c != [] {
      var shifted := seq(|c|, i requires 0 <= i < |c| => c[i] - m);
      assert shifted[1..] == seq(|c[1..]|, i requires 0 <= i < |c[1..]| => c[1..][i] - m);
      SumShifted(c[1..], m);
    }
  }

  /** A constant sequence has that constant as its sum divided by its length. */
  lemma {:induction false} SumConstant(c: seq<real>, x: real)
    requires forall i :: 0 <= i < |c| ==> c[i] == x
    ensures Sum(c) == |c| as real * x
  {
    if c != [] {
      SumConstant(c[1..], x);
    }
  }

  /** The unbiased variance is zero exactly when every entry is the same. */
  lemma VarianceZeroIffConstant(c: seq<real>)
    requires |c| >= 2
    ensures SampleVariance(c) == 0.0 <==> forall i :: 0 <= i < |c| ==> c[i] == c[0]
  {
    var n := (|c| - 1) as real;
    assert SampleVariance(c) == 0.0 <==> SquaredDeviations(c, Mean(c)) == 0.0;
    SquaredDeviationsSign(c, Mean(c));
    if forall i :: 0 <= i < |c| ==> c[i] == c[0] {
      SumConstant(c, c[0]);
      assert Mean(c) == c[0];
    }
  }

  /** Every row of `X` has `width` entries: `X` is an N x width tensor. */
  predicate Rectangular(X: seq<seq<real>>, width: nat)
  {
    forall n :: 0 <= n < |X| ==> |X[n]| == width
  }

  /** Column `d` of an N x D tensor, `X[:, d]`. */
  function Column(X: seq<seq<real>>, width: nat, d: nat): (r: seq<real>)
    requires Rectangular(X, width) && d < width
    ensures |r| == |X| && forall n :: 0 <= n < |X| ==> r[n] == X[n][d]
  {
    seq(|X|, n requires 0 <= n < |X| => X[n][d])
  }

  /** The column [1, 2, 3] has mean 2 and unbiased variance 1 (the population variance would be 2/3). */
  lemma UnbiasedVarianceExample()
    ensures Mean([1.0, 2.0, 3.0]) == 2.0
    ensures SampleVariance([1.0, 2.0, 3.0]) == 1.0
  {
    var c := [1.0, 2.0, 3.0];
    assert Sum(c) == 6.0 by {
      assert c[1..] == [2.0, 3.0];
      assert c[1..][1..] == [3.0];
    }
    assert SquaredDeviations(c, 2.0) == 2.0 by {
      assert c[1..] == [2.0, 3.0];
      assert c[1..][1..] == [3.0];
    }
  }
}
