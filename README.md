# torchmm emission models in Dafny

This project models the emission-model layer of torchmm (`torchmm/base.py`).
That layer has three parts:

- `Model` is the abstract contract. Each of its six operations raises `NotImplementedError`.
- `CategoricalModel` holds one logits vector over K categories.
- `DiagNormalModel` holds a vector of means and a vector of variances ("covs") for independent dimensions.

Each concrete model is a small state machine over its fields:

- a constructor that validates its arguments;
- `init_params_random`, which draws new parameters;
- `fit`, a closed-form estimator (counting and normalising, or column mean and unbiased variance);
- `parameters` and `set_parameters`, which expose the fields and replace them.

Modules:

- `Wrappers`: `Option` and `Result`, used for the operations that raise.
- `Tensors`: one-dimensional tensors over exact `real`s. It has sums, `Normalize` (`w / w.sum()`) and `Softmax`. It also has the symbolic scalar `Scalar = Real(x) | Ln(p) | NaN`, because the logarithm is transcendental. `Ln(p)` stands for the natural log of `p`, which is minus infinity when `p` is 0.
- `Stats`: `bincount` (specified against `multiset` counts), column extraction, the mean, and the unbiased variance that `std(0).pow(2)` computes.
- `Base`: the exceptions (`ValueError`, `NotImplementedError`, `IndexError`, `RuntimeError`) and the abstract `Model`.
- `Categorical`: the constructor's decision (`InitLogits`) and the fit (`FitLogits`) as pure functions, with their properties as lemmas. `CategoricalModel` is a class whose methods rebind `logits`.
- `DiagNormal`: the constructor's checks (`CheckArgs`). `DiagNormalModel` is a class with `array<real>` fields:
  - the constructor stores the caller's own tensors;
  - `init_params_random` overwrites their entries in place, so callers that alias them see the change;
  - `fit` and `set_parameters` rebind the fields.

Where the code behaves differently from what its class and method names suggest, the model follows the code:

- `CategoricalModel.fit` can grow the logits. `bincount(minlength=K)` has more than K bins when an index is K or larger. `FitGrowsLogits` shows this, so K is not fixed for the model's lifetime.
- `DiagNormalModel.fit` rebinds both fields to fresh tensors of the data's width. This also changes D when the data has a different width.
- `DiagNormalModel.set_parameters` does not re-check that the two shapes are equal. `SetParametersBreaksShape` builds a model where they differ.
- The variance `fit` stores is the unbiased one. `Tensor.std` divides by N - 1. For the column [1, 2, 3] it is 1, not the population value 2/3.

## Model

| member | source | states |
|---|---|---|
| `Base.Model.InitParamsRandom` | torchmm/base.py:16-20 | the abstract operation always fails with `NotImplementedError` and its message |
| `Base.Model.Sample` | torchmm/base.py:22-27 | the abstract operation always fails with `NotImplementedError` and its message |
| `Base.Model.LogProb` | torchmm/base.py:29-33 | the abstract operation always fails with `NotImplementedError`; the message names `log_likelihood` |
| `Base.Model.Fit` | torchmm/base.py:35-40 | the abstract operation always fails with `NotImplementedError` and its message |
| `Base.Model.Parameters` | torchmm/base.py:42-48 | the abstract operation always fails with `NotImplementedError` and its message |
| `Base.Model.SetParameters` | torchmm/base.py:50-54 | the abstract operation always fails with `NotImplementedError` and its message |
| `Tensors.Normalize` | torchmm/base.py:111 | dividing by the total keeps the length, sums to 1, scales each entry back to its weight, and gives a distribution for non-negative weights |
| `Tensors.LnAll` | torchmm/base.py:67 | `log()` takes the log of each entry and keeps the length; the log of a distribution is the log of a distribution |
| `Tensors.SumSign` | torchmm/base.py:111 | `sum()` of non-negative entries is non-negative, and positive as soon as one entry is positive |
| `Tensors.SumScaled` | torchmm/base.py:111 | dividing every entry by a nonzero total divides the sum by it |
| `Tensors.Softmax` | torchmm/base.py:74 | softmax over one dimension keeps the length, is strictly positive, and is a distribution when non-empty; entry i times the total of the exponentials is the i-th exponential |
| `Stats.ToReals` | torchmm/base.py:110 | `.float()` keeps the length and turns each count into the same non-negative real |
| `Stats.BinCount` | torchmm/base.py:110 | at least `minlength` bins; every index has a bin; bin `v` holds the number of occurrences of `v`; the bins exceed `minlength` only because the last index occurs |
| `Stats.BinCountTotal` | torchmm/base.py:110-111 | the bin counts add up to the number of observations |
| `Stats.Mean` | torchmm/base.py:178 | the mean taken N times gives the column's total; a constant column has that constant as its mean |
| `Stats.Column` | torchmm/base.py:178-179 | column `d` of an N x D tensor has N entries, entry n being `X[n][d]` |
| `Stats.SquaredDeviationsSign` | torchmm/base.py:179 | the squared deviations add up to a value that is never negative, is zero when every entry equals the centre, and is positive when one differs |
| `Stats.SampleVariance` | torchmm/base.py:179 | the unbiased variance (squared deviations over N - 1, for N >= 2) is never negative |
| `Stats.VarianceZeroIffConstant` | torchmm/base.py:179 | the unbiased variance is zero exactly when all entries are equal |
| `Stats.DeviationsSumToZero` | torchmm/base.py:178 | deviations from the mean add up to zero |
| `Stats.UnbiasedVarianceExample` | torchmm/base.py:178-179 | the column [1, 2, 3] has mean 2 and unbiased variance 1 |
| `Categorical.InitLogits` | torchmm/base.py:63-71 | succeeds exactly when one of probs and logits is given; both and neither give their `ValueError`s; probs are stored as their elementwise log, logits unchanged, and the length is kept |
| `Categorical.LogShares` | torchmm/base.py:111-112 | for non-negative counts, each entry is the log of that count's share of the total, or NaN everywhere when the total is 0 (0/0) |
| `Categorical.FitLogits` | torchmm/base.py:110-112 | fails (bincount's `RuntimeError`) exactly when some index is negative; otherwise max(K, largest index + 1) logits: at least K, a bin for every index, more than K only when the last bin's index occurs, and exactly K when every index is below K |
| `Categorical.FitEmpty` | torchmm/base.py:110-112 | fitting no observations gives K NaN logits |
| `Categorical.FitShares` | torchmm/base.py:110-112 | on non-empty valid data, logit `v` is the log of (occurrences of `v`) / N |
| `Categorical.FitIsLogOfDistribution` | torchmm/base.py:110-112 | on non-empty valid data, the logits are the log of non-negative probabilities that sum to 1 |
| `Categorical.FitGrowsLogits` | torchmm/base.py:110 | fitting [5] with K = 2 gives 6 logits |
| `Categorical.FitExample` | torchmm/base.py:110-112 | fitting [0, 0, 1] with K = 2 gives the logs of 2/3 and 1/3 |
| `Categorical.CategoricalModel.New` | torchmm/base.py:59-71 | construction succeeds exactly when `InitLogits` does; the new model holds its logits, otherwise the error is returned |
| `Categorical.CategoricalModel.InitParamsRandom` | torchmm/base.py:73-74 | the new logits are the log of the softmax of the noise: same length, strictly positive, and the log of a distribution when non-empty |
| `Categorical.CategoricalModel.Fit` | torchmm/base.py:103-112 | on error the logits are kept and the error is reported; otherwise the logits become `FitLogits` of the data and the current length |
| `Categorical.CategoricalModel.Parameters` | torchmm/base.py:91-95 | the parameters are exactly `[logits]` |
| `Categorical.CategoricalModel.SetParameters` | torchmm/base.py:97-101 | the logits become `params[0]`; an empty list is an `IndexError` that changes nothing |
| `Categorical.ParametersRoundTrip` | torchmm/base.py:91-101 | setting the reported parameters leaves the logits unchanged |
| `DiagNormal.CheckArgs` | torchmm/base.py:123-128 | passes exactly for two tensors of equal shape; otherwise the first failing check's `ValueError`, in the source's order |
| `DiagNormal.DiagNormalModel.New` | torchmm/base.py:117-131 | construction succeeds exactly when the checks pass; the model holds the caller's own tensors, of the same shape |
| `DiagNormal.DiagNormalModel.InitParamsRandom` | torchmm/base.py:133-135 | overwrites both tensors in place: covs with the positive log-normal draws, means with the normal draws, or also with the log-normal draws when both fields are one tensor; lengths kept |
| `DiagNormal.DiagNormalModel.Fit` | torchmm/base.py:171-179 | on N >= 2 rows of width D: two distinct fresh tensors of length D holding the column means and the unbiased column variances, which are non-negative |
| `DiagNormal.DiagNormalModel.Parameters` | torchmm/base.py:156-161 | the parameters are exactly `[means, covs]`, in that order |
| `DiagNormal.DiagNormalModel.SetParameters` | torchmm/base.py:163-169 | rebinds means to `params[0]` and then covs to `params[1]`; a short list is an `IndexError` after the rebindings already made; shapes not checked |
| `DiagNormal.ParametersRoundTrip` | torchmm/base.py:156-169 | setting the reported parameters leaves both fields and their contents unchanged |
| `DiagNormal.SetParametersBreaksShape` | torchmm/base.py:163-169 | `set_parameters` can leave means and covs with different lengths |
| `DiagNormal.FitExample` | torchmm/base.py:178-179 | fitting the single column [1, 2, 3] gives mean 2 and variance 1 |

## Left out

- `sample` (torchmm/base.py:76-82, 137-145) and `log_prob` (84-89, 147-154) are not modelled. They draw from, or evaluate densities of, `torch.distributions`, which is library code outside this model. The model also omits the default sample shape `[1]` and the `covs.abs().diag()` covariance.
- Random number generation is not modelled. `rand_like`, `normal_` and `log_normal_` become parameters of `InitParamsRandom`, constrained only by what those draws guarantee.
- Categorical.CategoricalModel.InitParamsRandom: the exponentials of the uniform noise are given directly, as positive reals, because the exponential is transcendental. The softmax normalisation itself is modelled.
- The logarithm is kept symbolic (`Ln(p)`), and floating-point rounding is not modelled. Entries are exact reals. NaN appears where the source computes 0/0; `Ln(p)` with `p < 0` (a negative probability passed to the constructor) stands for the NaN torch's `log` returns.
- DiagNormal.DiagNormalModel.Fit: requires at least two rows. With fewer, `std` divides by zero and stores NaN, which is not modelled. The data is taken as a rectangular N x D list of rows.
- Tensors are one-dimensional, and a shape is a length. Batched or multi-dimensional `means`/`covs` and broadcasting are not modelled.
- The `print` call in `DiagNormalModel.set_parameters` (torchmm/base.py:167) is console output and is not modelled.
- `parameters()` is a Python generator. The model returns the list it yields. So the round trips `ParametersRoundTrip` state hold for `set_parameters(list(parameters()))`; passing the generator itself raises `TypeError`, because a generator cannot be indexed.
- The categorical logits are copied by value (`seq<Scalar>`), not held as a shared tensor. The model does not capture in-place updates to the logits tensor made by someone else holding it. Examples are an optimiser updating the tensor that `parameters()` yields, or a `DiagNormalModel` built over the same tensor and overwriting it in `init_params_random`.
- The subclassing of `Model` is not modelled. Each model class stands on its own and provides all six operations itself, apart from `sample` and `log_prob`, which are left out as above.
- Data types are not modelled: a `float` index tensor for `bincount`, or a non-tensor argument to `fit`. Categorical observations are integers.
- Autodiff and device placement are not modelled.
