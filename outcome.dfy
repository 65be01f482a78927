/// Results and failures of the composition service.
///
/// The service signals two kinds of trouble: a rejected request (HTTP 400,
/// raised by the endpoint itself with a fixed detail text) and an exception
/// raised by the code or a library underneath, which the endpoint turns into
/// HTTP 500.
module Outcome {

  /// The exceptions the modelled code can raise.
  datatype Cause =
    | NoTracksToMix        // `ValueError("No tracks to mix")` in mix_tracks
    | EmptyReduction       // `.max()` of a zero-size numpy array
    | SeedOutOfRange       // `np.random.RandomState(seed)` with seed >= 2^32
    | NegativeDimensions   // `np.zeros(n)` with n < 0
    | DivisionByZero       // Python's ZeroDivisionError

  datatype Failure =
    | BadRequest(detail: string)   // `HTTPException(status_code=400, ...)`
    | Raised(cause: Cause)         // anything else, reported as HTTP 500

  datatype Result<T> = Ok(value: T) | Err(error: Failure)

  /// A dictionary entry that may be absent.
  datatype Option<T> = None | Some(value: T)

  /// The HTTP status an endpoint answers with for a failure.
  function Status(f: Failure): (code: int)
    ensures code == 400 <==> f.BadRequest?
    ensures code == 500 <==> f.Raised?
  {
    match f
    case BadRequest(_) => 400
    case Raised(_) => 500
  }
}
