/**
 * The discrete emission model: one vector of logits over K categories,
 * built from probabilities or logits, refitted from observed category
 * indices by counting and normalising, and exposed for optimisation.
 */
module Categorical {
  import opened Wrappers
  import opened Tensors
  import opened Stats
  import opened Base

  const BothGiven := "Both probs and logits provided; only one should be used."
  const NeitherGiven := "Neither probs or logits provided; one must be."
  const NegativeBin := "bincount only supports 1-d non-negative integral inputs."

  /**
   * The constructor's decision: with exactly one of `probs` and `logits`
   * given, the logits to store (the elementwise log of the probabilities, or
   * the logits as they are); with both or neither, the `ValueError`.
   */
  function InitLogits(probs: Option<seq<real>>, logits: Option<seq<Scalar>>): (r: Result<seq<Scalar>, Error>)
    ensures r.Success? <==> (probs.Some? <==> logits.None?)
    ensures probs.Some? && logits.Some? ==> r == Failure(ValueError(BothGiven))
    ensures probs.None? && logits.None? ==> r == Failure(ValueError(NeitherGiven))
    ensures r.Success? && probs.Some? ==>
      |r.value| == |probs.value| && forall i :: 0 <= i < |probs.value| ==> r.value[i] == Ln(probs.value[i])
    ensures r.Success? && logits.Some? ==> r.value == logits.value
  {
    if probs.Some? && logits.Some? then Failure(ValueError(BothGiven))
    else if probs.Some? then Success(LnAll(probs.value))
    else if logits.Some? then Success(logits.value)
    else Failure(ValueError(NeitherGiven))
  }

  /**
   * `(counts / counts.sum()).log()`: the log of each count's share of the
   * total, or not-a-number in every entry when the total is zero (0/0).
   */
  function LogShares(counts: seq<real>): (r: seq<Scalar>)
    requires NonNegative(counts)
    ensures |r| == |counts|
    ensures Sum(counts) == 0.0 ==> forall v :: 0 <= v < |r| ==> r[v] == NaN
    ensures Sum(counts) != 0.0 ==> forall v :: 0 <= v < |r| ==> r[v] == Ln(counts[v] / Sum(counts))
  {
    if Sum(counts) == 0.0 then seq(|counts|, _ => NaN)
    else
      var prob := Normalize(counts);
      assert forall v :: 0 <= v < |prob| ==> prob[v] == counts[v] / Sum(counts);
      LnAll(prob)
  }

  /**
   * `fit`'s new logits for observations `xs` and current length `k`: the log
   * of the bin counts (at least `k` bins) divided by their total. A negative
   * index is a `RuntimeError` from `bincount`.
   */
  function FitLogits(xs: seq<int>, k: nat): (r: Result<seq<Scalar>, Error>)
    ensures r.Failure? <==> exists i :: 0 <= i < |xs| && xs[i] < 0
    ensures r.Failure? ==> r.error == RuntimeError(NegativeBin)
    ensures r.Success? ==> k <= |r.value| && forall i :: 0 <= i < |xs| ==> xs[i] < |r.value|
    ensures r.Success? ==> |r.value| == k || |r.value| - 1 in xs
    ensures r.Success? && (forall i :: 0 <= i < |xs| ==> xs[i] < k) ==> |r.value| == k
  {
    if !AllNonNegative(xs) then Failure(RuntimeError(NegativeBin))
    else
      var bins := BinCount(xs, k);
      assert (forall i :: 0 <= i < |xs| ==> xs[i] < k) ==> |bins| == k by {
        if |bins| != k {
          assert |bins| - 1 in xs;
        }
      }
      Success(LogShares(ToReals(bins)))
  }

  /** Fitting no observations at all gives k not-a-number logits. */
  lemma FitEmpty(k: nat)
    ensures FitLogits([], k) == Success(seq(k, _ => NaN))
  {
    BinCountTotal([], k);
  }

  /**
   * Fitted on at least one valid observation, logit `v` is the log of the
   * share of the observations equal to `v`.
   */
  lemma FitShares(xs: seq<int>, k: nat)
    requires xs != [] && AllNonNegative(xs)
    ensures FitLogits(xs, k).Success?
    ensures forall v :: 0 <= v < |FitLogits(xs, k).value| ==>
      FitLogits(xs, k).value[v] == Ln(multiset(xs)[v] as real / |xs| as real)
  {
    BinCountTotal(xs, k);
  }

  /**
   * Fitted on at least one valid observation, the logits are the log of a
   * probability vector: non-negative entries that add up to one.
   */
  lemma FitIsLogOfDistribution(xs: seq<int>, k: nat)
    requires xs != [] && AllNonNegative(xs)
    ensures FitLogits(xs, k).Success? && IsLogOfDistribution(FitLogits(xs, k).value)
  {
    var counts := ToReals(BinCount(xs, k));
    BinCountTotal(xs, k);
    assert FitLogits(xs, k).value == LnAll(Normalize(counts));
  }

  /** An index beyond the current categories grows the logits: fitting [5] with K = 2 gives six bins. */
  lemma FitGrowsLogits()
    ensures FitLogits([5], 2).Success? && |FitLogits([5], 2).value| == 6
  {
    assert AllNonNegative([5]);
    assert |BinCount([5], 2)| == 6 by {
      assert [5][..0] == [];
    }
  }

  /** Two zeros and a one over two categories: the logits of 2/3 and 1/3. */
  lemma FitExample()
    ensures FitLogits([0, 0, 1], 2) == Success([Ln(2.0 / 3.0), Ln(1.0 / 3.0)])
  {
    var xs := [0, 0, 1];
    assert multiset(xs)[0] == 2 && multiset(xs)[1] == 1;
    assert forall i :: 0 <= i < |xs| ==> xs[i] < 2;
    FitShares(xs, 2);
    var r := FitLogits(xs, 2).value;
    assert |r| == 2;
    assert r[0] == Ln(2.0 / 3.0) && r[1] == Ln(1.0 / 3.0);
    assert r == [r[0], r[1]];
  }

  /** The categorical emission model; `logits` is rebound, never updated in place. */
  class CategoricalModel {
    var logits: seq<Scalar>

    constructor WithLogits(l: seq<Scalar>)
      ensures logits == l
    {
      logits := l;
    }

    /** `CategoricalModel(probs, logits)`: a new model, or the `ValueError`. */
    static method New(probs: Option<seq<real>>, logits: Option<seq<Scalar>>)
      returns (r: Result<CategoricalModel, Error>)
      ensures r.Success? <==> InitLogits(probs, logits).Success?
      ensures r.Failure? ==> r.error == InitLogits(probs, logits).error
      ensures r.Success? ==> fresh(r.value) && r.value.logits == InitLogits(probs, logits).value
    {
      var init := InitLogits(probs, logits);
      if init.Failure? {
        return Failure(init.error);
      }
      var m := new CategoricalModel.WithLogits(init.value);
      return Success(m);
    }

    /**
     * Replaces the logits with the log of the softmax of uniform noise of the
     * same length; `expNoise` holds the exponentials of that noise.
     */
    method InitParamsRandom(expNoise: seq<real>)
      requires |expNoise| == |logits| && Positive(expNoise)
      modifies this
      ensures logits == LnAll(Softmax(expNoise))
      ensures |logits| == old(|logits|)
      ensures |logits| > 0 ==> IsLogOfDistribution(logits)
      ensures forall i :: 0 <= i < |logits| ==> logits[i].Ln? && 0.0 < logits[i].arg
    {
      var p := Softmax(expNoise);
      logits := LnAll(p);
    }

    /** Refits the logits from observed indices, or reports the error and keeps them. */
    method Fit(xs: seq<int>) returns (err: Option<Error>)
      modifies this
      ensures FitLogits(xs, old(|logits|)).Failure? ==>
        err == Some(FitLogits(xs, old(|logits|)).error) && logits == old(logits)
      ensures FitLogits(xs, old(|logits|)).Success? ==>
        err.None? && logits == FitLogits(xs, old(|logits|)).value
    {
      var fitted := FitLogits(xs, |logits|);
      if fitted.Failure? {
        return Some(fitted.error);
      }
      logits := fitted.value;
      return None;
    }

    /** The parameters for optimisation: the logits alone. */
    method Parameters() returns (ps: seq<seq<Scalar>>)
      ensures ps == [logits]
    {
      ps := [logits];
    }

    /** Rebinds the logits to the first parameter; an empty list is an `IndexError`. */
    method SetParameters(params: seq<seq<Scalar>>) returns (err: Option<Error>)
      modifies this
      ensures params == [] ==> err == Some(IndexError) && logits == old(logits)
      ensures params != [] ==> err.None? && logits == params[0]
    {
      if params == [] {
        return Some(IndexError);
      }
      logits := params[0];
      return None;
    }
  }

  /** Setting the parameters a model reports leaves the model as it was. */
  method ParametersRoundTrip(m: CategoricalModel)
    modifies m
    ensures m.logits == old(m.logits)
  {
    var ps := m.Parameters();
    var err := m.SetParameters(ps);
    assert err.None?;
  }
}
