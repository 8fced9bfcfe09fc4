/**
 * What the upstream identity API hands back, and the status word stamped on
 * every entry built from one of its replies.
 */
module Upstream {
  import opened Wrappers

  /** One byte of a texture payload. */
  newtype byte = x: int | 0 <= x < 256

  /** Creation time of an entry, read from the process clock. */
  type Timestamp = int

  /** The ways a call to the upstream API, or reading its reply, can fail. */
  datatype ApiError =
    | Unavailable   // transport failure or an expired deadline
    | RateLimited
    | NotFound      // a well-formed call for a player that does not exist
    | Malformed     // the reply could not be decoded
    | ReadFailed    // the response body broke off while it was being read

  /** The status an entry carries: OK, or the failure that produced it. */
  datatype Status = StatusOk | StatusError(cause: ApiError)

  /** The status of an entry built from `reply`: OK exactly when the call succeeded. */
  function StatusOf<T>(reply: Result<T, ApiError>): (s: Status)
    ensures s == StatusOk <==> reply.Ok?
    ensures reply.Err? ==> s.cause == reply.error
  {
    match reply
    case Ok(_) => StatusOk
    case Err(e) => StatusError(e)
  }
}
