/** Common/ConnectionError.swift and
    Presentation/Utlis/Extensions/DataTransferError+ConnectionError.swift:
    "is this error a lost internet connection?" */
module ConnectionErrors {
  import opened Wrappers
  import opened Errors

  /** `DataTransferError.isInternetConnectionError`: only
      `.networkError(NetworkError.notConnected)` qualifies. */
  predicate TransferIsInternetConnectionError(e: DataTransferError)
  {
    match e
    case NetworkErr(NetworkFailure(NotConnected)) => true
    case _ => false
  }

  /** `Error.isInternetConnectionError`, the default on every error: cast to
      `ConnectionError` and read its flag; an error that does not conform yields
      false. Among the enums of the core only `DataTransferError` conforms. */
  predicate IsInternetConnectionError(e: Error)
  {
    match e
    case TransferFailure(t) => TransferIsInternetConnectionError(t)
    case Foreign(_, Some(flag)) => flag
    case _ => false
  }

  /** The complete set of connection errors: exactly the wrapped `notConnected`
      transfer error and foreign conforming errors whose flag is set. */
  lemma ConnectionErrorCharacterized(e: Error)
    ensures IsInternetConnectionError(e) <==>
      e == TransferFailure(NetworkErr(NetworkFailure(NotConnected)))
      || (e.Foreign? && e.connection == Some(true))
  {
  }

  /** A type that does not conform to `ConnectionError` is never a connection
      error, whatever it wraps: the bare `NetworkError` enum (even `notConnected`),
      `RequestGenerationError` and a plain `NSError`. */
  lemma NonConformingNeverConnection(e: Error)
    requires e.NetworkFailure? || e.RequestGenerationFailure? || (e.Foreign? && e.connection.None?)
    ensures !IsInternetConnectionError(e)
  {
  }

  /** A conforming foreign error answers with its own flag. */
  lemma ConformingUsesOwnFlag(ns: NSError, flag: bool)
    ensures IsInternetConnectionError(Foreign(ns, Some(flag))) == flag
  {
  }

  /** The transfer cases other than `networkError(notConnected)` are not
      connection errors: `noResponse`, `parsing(_)`, and `networkError` around any
      other network case or around an error that is not a `NetworkError`. */
  lemma TransferNonConnectionCases(t: DataTransferError)
    requires t.NoResponse? || t.Parsing?
      || (t.NetworkErr? && (!t.cause.NetworkFailure? || !t.cause.network.NotConnected?))
    ensures !IsInternetConnectionError(TransferFailure(t))
  {
  }
}
