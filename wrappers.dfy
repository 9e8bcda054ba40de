/** Option and Result, the failure-compatible types every mapper returns.
    A Java `null` becomes `None`; a thrown exception becomes `Failure`. */
module Wrappers {

  datatype Option<+T> = None | Some(value: T)

  /** The kinds of exception the mapping layer can end with. */
  datatype Error =
    | JsonError          // org.json JSONException: member missing or of the wrong kind
    | NumberFormat       // java.lang.NumberFormatException escaping a parse
    | IndexOutOfBounds   // StringIndexOutOfBounds / ArrayIndexOutOfBounds (geo coordinates)
    | MalformedResponse  // TwitterException "Twitter API returned malformed response"
    | BadDate            // a date string that the expected format does not accept

  datatype Result<+T> = Success(value: T) | Failure(error: Error) {
    predicate IsFailure() {
      Failure?
    }

    function PropagateFailure<U>(): Result<U>
      requires Failure?
    {
      Failure(error)
    }

    function Extract(): T
      requires Success?
    {
      value
    }
  }
}
