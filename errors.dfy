/** The error values that travel through the client. Swift's `Error` is an open
    existential; the closed sum below lists the kinds the core creates or
    inspects. `NetworkError.generic` and the `DataTransferError` cases carry an
    arbitrary `Error`, so the three types are mutually recursive and live together. */
module Errors {
  import opened Wrappers
  import opened Entities

  /** An `NSError` as the transport reports it: a domain and a numeric code. */
  datatype NSError = NSError(domain: string, code: int)

  /** `URLError.Code.notConnectedToInternet.rawValue`. */
  const NotConnectedToInternetCode: int := -1009

  /** `URLError.Code.cancelled.rawValue`. */
  const CancelledCode: int := -999

  /** NetworkService.swift: `NetworkError`. `Status` is the case spelled
      `error(statusCode:data:)` in Swift. */
  datatype NetworkError =
    | Status(statusCode: int, data: Option<Bytes>)
    | NotConnected
    | Cancelled
    | Generic(cause: Error)
    | UrlGeneration
    | Unknown

  /** DataTransferService.swift: `DataTransferError`. `NetworkErr` is the case
      spelled `networkError(Error)` in Swift. */
  datatype DataTransferError =
    | NoResponse
    | Parsing(cause: Error)
    | NetworkErr(cause: Error)

  /** Any `Error` value.
      - `NetworkFailure`, `TransferFailure`: the two enums above used as `Error`;
      - `RequestGenerationFailure`: Endpoint.swift's `RequestGenerationError.components`;
      - `Foreign`: every other error type (a plain `NSError`, a decoding error, ...).
        `connection` is `Some(flag)` when that type conforms to `ConnectionError`
        and reports `flag` as its own `isInternetConnectionError`, `None` otherwise. */
  datatype Error =
    | NetworkFailure(network: NetworkError)
    | TransferFailure(transfer: DataTransferError)
    | RequestGenerationFailure
    | Foreign(ns: NSError, connection: Option<bool>)
}
