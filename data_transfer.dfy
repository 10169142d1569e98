/** Infrastructure/Network/DataTransferService.swift: typed decoding on top of
    the network service. A `ResponseDecoder` is foreign (JSONDecoder); it enters
    as a function from bytes to a decoded value or the error it throws. */
module DataTransferService {
  import opened Wrappers
  import opened Entities
  import opened Errors
  import opened NetworkService

  /** What `request(with:completion:)` delivers and returns. */
  datatype TransferCall<T> = TransferCall(result: Result<T, DataTransferError>, handle: NetworkTask?)

  /** `decode(with:data:)`: no bytes is `noResponse`; bytes the decoder accepts
      give its value; bytes it rejects give `parsing` with its error. */
  function Decode<T>(decoder: Bytes -> Result<T, Error>, data: Option<Bytes>): (r: Result<T, DataTransferError>)
    ensures data.None? <==> r == Failure(NoResponse)
    ensures r.Success? <==> data.Some? && decoder(data.value).Success?
    ensures r.Success? ==> decoder(data.value) == Success(r.value)
    ensures data.Some? && r.Failure? ==> r.error == Parsing(decoder(data.value).error)
  {
    match data
    case None => Failure(NoResponse)
    case Some(bytes) =>
      match decoder(bytes)
      case Success(v) => Success(v)
      case Failure(e) => Failure(Parsing(e))
  }

  /** `request(with:completion:)`: one completion per network result, a
      transport failure wrapped as `networkError` without decoding, and the
      network service's handle returned unchanged. */
  function Request<T>(call: NetworkCall, decoder: Bytes -> Result<T, Error>): (r: TransferCall<T>)
    ensures r.handle == call.handle
    ensures call.result.Failure? ==> r.result == Failure(NetworkErr(NetworkFailure(call.result.error)))
    ensures call.result.Success? ==> r.result == Decode(decoder, call.result.value)
  {
    match call.result
    case Success(data) => TransferCall(Decode(decoder, data), call.handle)
    case Failure(e) => TransferCall(Failure(NetworkErr(NetworkFailure(e))), call.handle)
  }

  /** `RawDataResponseDecoder` for a `Data` response: the bytes themselves. */
  function RawDataDecode(data: Bytes): Result<Bytes, Error>
  {
    Success(data)
  }

  /** Raw bytes survive the transfer layer untouched; only a missing body fails. */
  lemma RawDataPassesThrough(data: Option<Bytes>)
    ensures Decode(RawDataDecode, data) == if data.Some? then Success(data.value) else Failure(NoResponse)
  {
  }
}
