/** Options, results and the errors the source raises. */
module Prelude {

  datatype Option<+T> = None | Some(value: T)

  datatype Result<+T> = Success(value: T) | Failure(error: Error)

  /** The exceptions of the modelled modules, one constructor per cause. */
  datatype Error =
    | NonPositiveCash
    | EmptySeries
    | TargetsLengthMismatch
    | ReasonsLengthMismatch
    | SignalIndexMismatch
    | InsufficientData
    | InvalidParameters
    | PairDataMissing
    | InvalidRequest
    | UnknownSymbol
    | KeyMissing
    | DivisionByZero
}
