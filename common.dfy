/** Option and Result, and the ways one request for a tier's sponsors can fail. */
module Common {

  /** A value that may be absent, as an optional field of a fetched record. */
  datatype Option<+T> = None | Some(value: T) {
    /** The value, or `default` when there is none. */
    function GetOr(default: T): T {
      match this
      case Some(v) => v
      case None => default
    }
  }

  /** A value, or the error that was raised instead of producing it. */
  datatype Result<+T, +E> = Success(value: T) | Failure(error: E)

  /** The errors the caller's callback can receive. */
  datatype Error =
    | TransportFailure(reason: string)  // the GraphQL request was rejected or never answered
    | MissingViewer                     // the response data holds no `viewer` to read sponsorships from
    | UnknownTier(key: string)          // `tiers[key]` has no `isMatch` rule
    | InvalidAvatarUrl(url: string)     // the avatar URL could not be parsed

  /** `a` is `b` with some elements dropped and the rest kept in order. */
  predicate IsSubsequence<T(==)>(a: seq<T>, b: seq<T>)
    decreases |b|
  {
    if b == [] then a == []
    else (a != [] && a[0] == b[0] && IsSubsequence(a[1..], b[1..])) || IsSubsequence(a, b[1..])
  }
}
