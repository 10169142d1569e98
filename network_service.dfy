/** Infrastructure/Network/NetworkService.swift: how one `URLSession` data-task
    outcome becomes a `NetworkService.Result`. The session itself (creating and
    resuming the task) is I/O: its outcome and its task object are parameters. */
module NetworkService {
  import opened Wrappers
  import opened Entities
  import opened Errors
  import opened Endpoints

  /** A `NetworkCancellable` the session hands out (a `URLSessionDataTask`):
      all the core ever does with it is call `cancel()`, counted here. */
  class NetworkTask {
    var cancelCount: nat

    constructor ()
      ensures cancelCount == 0
    {
      cancelCount := 0;
    }

    method Cancel()
      modifies this
      ensures cancelCount == old(cancelCount) + 1
    {
      cancelCount := cancelCount + 1;
    }
  }

  /** The `URLResponse?` of a data task: an `HTTPURLResponse` with its status
      code, or some other kind of response. */
  datatype UrlResponse = HttpResponse(statusCode: int) | OtherResponse

  /** The `(data, response, error)` triple a data task completes with. */
  datatype SessionOutcome = SessionOutcome(data: Option<Bytes>, response: Option<UrlResponse>, error: Option<NSError>)

  /** What `request(endpoint:completion:)` delivers and returns: the single
      completion value and the cancellation handle (`nil` when no task was made). */
  datatype NetworkCall = NetworkCall(result: Result<Option<Bytes>, NetworkError>, handle: NetworkTask?)

  /** `resolve(error:)`: reads the error's code as a `URLError.Code`. */
  function Resolve(error: NSError): (r: NetworkError)
    ensures r == NotConnected <==> error.code == NotConnectedToInternetCode
    ensures r == Cancelled <==> error.code == CancelledCode
    ensures r.Generic? <==> error.code != NotConnectedToInternetCode && error.code != CancelledCode
    ensures r.Generic? ==> r.cause == Foreign(error, None)
  {
    if error.code == NotConnectedToInternetCode then NotConnected
    else if error.code == CancelledCode then Cancelled
    else Generic(Foreign(error, None))
  }

  /** `handle(error:with:data:)`: an HTTP response wins over the error code. */
  function Handle(error: NSError, response: Option<UrlResponse>, data: Option<Bytes>): (r: NetworkError)
    ensures r.Status? <==> response.Some? && response.value.HttpResponse?
    ensures r.Status? ==> r.statusCode == response.value.statusCode && r.data == data
    ensures !r.Status? ==> r == Resolve(error)
  {
    if response.Some? && response.value.HttpResponse? then Status(response.value.statusCode, data)
    else Resolve(error)
  }

  /** The completion handler of the data task (lines 50-59). */
  function Classify(o: SessionOutcome): (r: Result<Option<Bytes>, NetworkError>)
    ensures o.error.Some? ==> r == Failure(Handle(o.error.value, o.response, o.data))
    ensures r.Success? <==> o.error.None? && o.data.Some? && o.response.Some? && o.response.value.HttpResponse?
    ensures r.Success? ==> r.value == o.data && r.value.Some?
    ensures o.error.None? && r.Failure? ==> r.error == Unknown
    ensures r.Failure? ==> r.error != UrlGeneration
  {
    if o.error.Some? then Failure(Handle(o.error.value, o.response, o.data))
    else if o.data.Some? && o.response.Some? && o.response.value.HttpResponse? then Success(o.data)
    else Failure(Unknown)
  }

  /** `request(endpoint:completion:)`: build the request; if that throws,
      complete with `urlGeneration` and return no handle; otherwise the session
      runs it (`outcome`, `task`) and the outcome is classified. */
  function Request(config: NetworkConfig, e: Endpoint, parser: UrlParser, outcome: SessionOutcome, task: NetworkTask): (r: NetworkCall)
    ensures UrlRequestFor(config, e, parser).Failure? ==> r == NetworkCall(Failure(UrlGeneration), null)
    ensures UrlRequestFor(config, e, parser).Success? ==> r == NetworkCall(Classify(outcome), task)
  {
    match UrlRequestFor(config, e, parser)
    case Failure(_) => NetworkCall(Failure(UrlGeneration), null)
    case Success(_) => NetworkCall(Classify(outcome), task)
  }

  /** `urlGeneration` arises exactly when the request cannot be built, and then
      no handle is returned. */
  lemma UrlGenerationExactlyWhenBuildFails(config: NetworkConfig, e: Endpoint, parser: UrlParser, outcome: SessionOutcome, task: NetworkTask)
    ensures var r := Request(config, e, parser, outcome, task);
      (r.result == Failure(UrlGeneration) <==> UrlFor(config, e, parser).Failure?)
      && (r.handle == null <==> UrlFor(config, e, parser).Failure?)
  {
  }

  /** With an HTTP response, an error always yields the status-code case,
      whatever its code, even the "not connected" and "cancelled" codes. */
  lemma HttpResponseWinsOverErrorCode(error: NSError, statusCode: int, data: Option<Bytes>)
    ensures Classify(SessionOutcome(data, Some(HttpResponse(statusCode)), Some(error))) == Failure(Status(statusCode, data))
  {
  }
}
