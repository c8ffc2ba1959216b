/**
 * The continuous emission model with independent dimensions: a vector of
 * means and a vector of variances ("covs") of the same shape, validated on
 * construction, randomised in place, refitted from an N x D tensor of
 * observations by the column mean and unbiased variance, and exposed for
 * optimisation.
 */
module DiagNormal {
  import opened Wrappers
  import opened Tensors
  import opened Stats
  import opened Base

  const MeansNotTensor := "Means must be a tensor."
  const CovsNotTensor := "Covs must be a tensor."
  const ShapeMismatch := "Means and covs must have same shape!"

  /** A constructor argument: a one-dimensional tensor, or some other Python object. */
  datatype Arg = Tensor(t: array<real>) | NotTensor

  /** The constructor's checks, in their order: means a tensor, covs a tensor, equal shapes. */
  function CheckArgs(means: Arg, covs: Arg): (r: Option<Error>)
    ensures r.None? <==> means.Tensor? && covs.Tensor? && means.t.Length == covs.t.Length
    ensures means.NotTensor? ==> r == Some(ValueError(MeansNotTensor))
    ensures means.Tensor? && covs.NotTensor? ==> r == Some(ValueError(CovsNotTensor))
    ensures means.Tensor? && covs.Tensor? && means.t.Length != covs.t.Length ==>
      r == Some(ValueError(ShapeMismatch))
  {
    if means.NotTensor? then Some(ValueError(MeansNotTensor))
    else if covs.NotTensor? then Some(ValueError(CovsNotTensor))
    else if means.t.Length != covs.t.Length then Some(ValueError(ShapeMismatch))
    else None
  }

  /**
   * The diagonal normal emission model. The fields refer to tensors: the
   * constructor stores the caller's own, `init_params_random` overwrites
   * their entries in place, and `fit` and `set_parameters` rebind the fields.
   */
  class DiagNormalModel {
    var means: array<real>
    var covs: array<real>

    /** The invariant the constructor establishes and `set_parameters` does not re-check. */
    predicate SameShape()
      reads this
    {
      means.Length == covs.Length
    }

    constructor WithTensors(m: array<real>, c: array<real>)
      ensures means == m && covs == c
    {
      means := m;
      covs := c;
    }

    /** `DiagNormalModel(means, covs)`: a model over the caller's tensors, or the `ValueError`. */
    static method New(means: Arg, covs: Arg) returns (r: Result<DiagNormalModel, Error>)
      ensures r.Success? <==> CheckArgs(means, covs).None?
      ensures r.Failure? ==> r.error == CheckArgs(means, covs).value
      ensures r.Success? ==>
        fresh(r.value) && r.value.means == means.t && r.value.covs == covs.t && r.value.SameShape()
    {
      var check := CheckArgs(means, covs);
      if check.Some? {
        return Failure(check.value);
      }
      var m := new DiagNormalModel.WithTensors(means.t, covs.t);
      return Success(m);
    }

    /**
     * `means.normal_()` then `covs.log_normal_()`: overwrites the entries of
     * both tensors in place with the given draws, the log-normal ones being
     * positive. When both fields are the same tensor the second write wins.
     */
    method InitParamsRandom(normalDraws: seq<real>, logNormalDraws: seq<real>)
      requires |normalDraws| == means.Length && |logNormalDraws| == covs.Length
      requires Positive(logNormalDraws)
      modifies means, covs
      ensures covs[..] == logNormalDraws && Positive(covs[..])
      ensures means[..] == if means == covs then logNormalDraws else normalDraws
    {
      forall i | 0 <= i < means.Length {
        means[i] := normalDraws[i];
      }
      forall i | 0 <= i < covs.Length {
        covs[i] := logNormalDraws[i];
      }
    }

    /**
     * Refits from N >= 2 rows of width D: `means` becomes a new tensor of the
     * column means and `covs` one of the unbiased column variances, which are
     * never negative.
     */
    method Fit(X: seq<seq<real>>)
      requires |X| >= 2 && Rectangular(X, |X[0]|)
      modifies this
      ensures fresh(means) && fresh(covs) && means != covs
      ensures means.Length == |X[0]| && covs.Length == |X[0]| && SameShape()
      ensures forall d :: 0 <= d < |X[0]| ==> means[d] == Mean(Column(X, |X[0]|, d))
      ensures forall d :: 0 <= d < |X[0]| ==> covs[d] == SampleVariance(Column(X, |X[0]|, d))
      ensures NonNegative(covs[..])
    {
      var width := |X[0]|;
      means := new real[width](d requires 0 <= d < width => Mean(Column(X, width, d)));
      covs := new real[width](d requires 0 <= d < width => SampleVariance(Column(X, width, d)));
    }

    /** The parameters for optimisation: the means, then the variances. */
    method Parameters() returns (ps: seq<array<real>>)
      ensures ps == [means, covs]
    {
      ps := [means, covs];
    }

    /**
     * Rebinds `means` to the first parameter, then `covs` to the second; a
     * list too short fails with `IndexError` after the rebindings it reached.
     * The shapes are not compared.
     */
    method SetParameters(params: seq<array<real>>) returns (err: Option<Error>)
      modifies this
      ensures |params| == 0 ==> err == Some(IndexError) && means == old(means) && covs == old(covs)
      ensures |params| == 1 ==> err == Some(IndexError) && means == params[0] && covs == old(covs)
      ensures |params| >= 2 ==> err.None? && means == params[0] && covs == params[1]
    {
      if |params| == 0 {
        return Some(IndexError);
      }
      means := params[0];
      if |params| == 1 {
        return Some(IndexError);
      }
      covs := params[1];
      return None;
    }
  }

  /** Setting the parameters a model reports leaves the model, and its tensors, as they were. */
  method ParametersRoundTrip(m: DiagNormalModel)
    modifies m
    ensures m.means == old(m.means) && m.covs == old(m.covs)
    ensures m.means[..] == old(m.means[..]) && m.covs[..] == old(m.covs[..])
  {
    var ps := m.Parameters();
    var err := m.SetParameters(ps);
    assert err.None?;
  }

  /** `set_parameters` accepts tensors of different shapes, so it can break `SameShape`. */
  method SetParametersBreaksShape() returns (m: DiagNormalModel)
    ensures !m.SameShape()
  {
    var means := new real[2];
    var covs := new real[3];
    var created := DiagNormalModel.New(Tensor(means), Tensor(means));
    m := created.value;
    var err := m.SetParameters([means, covs]);
    assert err.None?;
  }

  /** Fitting the single column [1, 2, 3] gives mean 2 and variance 1. */
  method FitExample(m: DiagNormalModel)
    modifies m
    ensures m.means[..] == [2.0] && m.covs[..] == [1.0]
  {
    m.Fit([[1.0], [2.0], [3.0]]);
    var X := [[1.0], [2.0], [3.0]];
    assert Column(X, 1, 0) == [1.0, 2.0, 3.0];
    UnbiasedVarianceExample();
  }
}
