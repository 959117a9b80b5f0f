/**
 * Options and panics. A Rust panic (a failed `assert!`, `unwrap` on `None`,
 * `step_by(0)`, an out-of-range index) ends the computation; the model returns
 * `Abort` with the reason instead of excluding the input by a precondition.
 */
module Outcomes {

  datatype Option<T> = None | Some(value: T)

  datatype Panic =
    | NanLogRatio          // the NaN assert of the accept/reject primitive
    | ScaleNotPositive     // the `scale > 0` assert of the SRWM kernels
    | AdaptedScaleInvalid  // the positivity assert of the Robbins-Monro adaptor
    | UnwrapNone           // `Option::unwrap` on `None`
    | MagnitudeOutOfRange  // `from_usize(mag).unwrap()` for a magnitude the type cannot hold
    | IndexOutOfBounds     // indexing past the end of a vector
    | NoChains             // `chains(0)`
    | ZeroThinning         // `thinning(0)`
    | StepByZero           // `Iterator::step_by(0)`
    | InvalidCovariance    // `MvGaussian::new(..).expect(..)` on a covariance of the wrong shape
    | ZeroProposalScale    // `Geometric::new(..).unwrap()` on the NaN parameter a zero scale gives

  datatype Fallible<T> = Done(value: T) | Abort(cause: Panic)
}
