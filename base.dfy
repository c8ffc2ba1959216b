/**
 * The errors the emission models raise, and the abstract `Model` contract
 * every emission model of the library follows.
 */
module Base {

  /** The Python exceptions the emission models can raise, with their messages. */
  datatype Error =
    | ValueError(message: string)
    | NotImplementedError(message: string)
    | IndexError
    | RuntimeError(message: string)

  /**
   * The unsupervised-model base class. It holds no state; each of its six
   * operations only announces that a concrete model has to provide it.
   */
  class Model {

    constructor ()
    {
    }

    method InitParamsRandom() returns (err: Error)
      ensures err == NotImplementedError("init_params_random method not implemented")
    {
      err := NotImplementedError("init_params_random method not implemented");
    }

    method Sample() returns (err: Error)
      ensures err == NotImplementedError("sample method not implemented")
    {
      err := NotImplementedError("sample method not implemented");
    }

    /** The message names `log_likelihood`, the operation's older name. */
    method LogProb<T>(X: T) returns (err: Error)
      ensures err == NotImplementedError("log_likelihood method not implemented")
    {
      err := NotImplementedError("log_likelihood method not implemented");
    }

    method Fit<T>(X: T) returns (err: Error)
      ensures err == NotImplementedError("fit method not implemented")
    {
      err := NotImplementedError("fit method not implemented");
    }

    method Parameters() returns (err: Error)
      ensures err == NotImplementedError("parameters method not implemented")
    {
      err := NotImplementedError("parameters method not implemented");
    }

    method SetParameters<T>(params: seq<T>) returns (err: Error)
      ensures err == NotImplementedError("set_parameters method not implemented")
    {
      err := NotImplementedError("set_parameters method not implemented");
    }
  }
}
