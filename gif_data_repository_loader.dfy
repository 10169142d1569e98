/** Data/Repositories/GifDataRepositoryLoader.swift: fetch the raw bytes of one
    GIF from an already complete URL string. */
module GifDataRepositoryLoader {
  import opened Wrappers
  import opened Entities
  import opened Errors
  import opened Endpoints
  import opened NetworkService
  import opened RepositoryTasks

  /** The endpoint of `fetchGif(url:)`: the URL string as a full path, GET, raw bytes. */
  function GifEndpoint(url: string): (e: Endpoint)
    ensures e.path == url && e.isFullPath && e.httpMethod == Get
    ensures e.responseDecoder == RawDataDecoder && |e.queryParameters| == 0
  {
    Endpoint(url, Get, responseDecoder := RawDataDecoder, isFullPath := true)
  }

  /** The completion, `result.mapError { $0 as Error }`: bytes unchanged, the
      transfer error unchanged. It depends on the result alone, so a cancelled
      task still delivers whatever result arrives. */
  function Deliver(result: Result<Bytes, DataTransferError>): (r: Result<Bytes, Error>)
    ensures result.Success? <==> r.Success?
    ensures r.Success? ==> r.value == result.value
    ensures r.Failure? ==> r.error == TransferFailure(result.error)
  {
    match result
    case Success(data) => Success(data)
    case Failure(e) => Failure(TransferFailure(e))
  }

  /** `fetchGif(url:completion:)`. */
  method FetchGif(url: string, serviceHandle: NetworkTask?) returns (endpoint: Endpoint, task: RepositoryTask)
    ensures endpoint == GifEndpoint(url)
    ensures fresh(task) && task.networkTask == serviceHandle && !task.isCancelled
  {
    endpoint := GifEndpoint(url);
    task := new RepositoryTask();
    task.networkTask := serviceHandle;
  }

  /** The scenario of the repository's tests: fetch, cancel, then a result
      arrives. The service's handle is cancelled exactly once and the result is
      still delivered. */
  method CancelThenDeliver(url: string, serviceHandle: NetworkTask, late: Bytes) returns (delivered: Result<Bytes, Error>)
    modifies serviceHandle
    ensures serviceHandle.cancelCount == old(serviceHandle.cancelCount) + 1
    ensures delivered == Success(late)
  {
    var _, task := FetchGif(url, serviceHandle);
    task.Cancel();
    delivered := Deliver(Success(late));
  }
}
