/** The exceptions `PyFBU.run` can raise before the model reaches the engine. */
module Errors {

  datatype Error =
    | ValidationError(message: string)  // AssertionError raised by `validateinput`
    | KeyError(key: string)             // a dictionary lookup of a missing key
    | NameError(variable: string)       // a variable read before it was ever assigned
    | StopIteration                     // `next(iter(d))` on an empty dict
    | GammaSizeError                    // the assertion on the length of `include_gammas`
    | ShapeError                        // arrays of inconsistent length reaching numpy/theano

  /** The message of the length checks in `validateinput`. */
  const InconsistentSize := "Input Validation Error: inconstistent size of input"

  /** The message of the gamma prerequisite check in `validateinput`. */
  const MissingErrors := "To include gammas, must provide background MC stat uncertainties"
}
