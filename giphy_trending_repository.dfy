/** Data/Repositories/GiphyTrendingRepository.swift: the earlier trending
    repository, over `GiphyResponseDTO`. Its endpoint has no query parameters;
    the `limit` argument is unused. */
module GiphyTrendingRepository {
  import opened Wrappers
  import opened Entities
  import opened Errors
  import opened Endpoints
  import opened NetworkService
  import opened RepositoryTasks
  import opened GiphyResponseMapping

  /** The endpoint of `fetchTrendingGiphyList(limit:)`, whatever the limit. */
  function TrendingEndpoint(limit: int): (e: Endpoint)
    ensures e.path == "/v1/gifs/trending" && e.httpMethod == Get && e.responseDecoder == JsonDecoder
    ensures |e.queryParameters| == 0
  {
    Endpoint("/v1/gifs/trending", Get)
  }

  /** The completion: a decoded DTO is delivered as its domain page, a failure
      as the same transfer error. */
  function Deliver(result: Result<GiphyResponseDTO, DataTransferError>): (r: Result<GiphyPage, Error>)
    ensures result.Success? <==> r.Success?
    ensures r.Success? ==> r.value == ResponseToDomain(result.value)
    ensures r.Failure? ==> r.error == TransferFailure(result.error)
  {
    match result
    case Success(dto) => Success(ResponseToDomain(dto))
    case Failure(e) => Failure(TransferFailure(e))
  }

  /** `fetchTrendingGiphyList(limit:completion:)`. */
  method FetchTrendingGiphyList(limit: int, serviceHandle: NetworkTask?) returns (endpoint: Endpoint, task: RepositoryTask)
    ensures endpoint == TrendingEndpoint(limit)
    ensures fresh(task) && task.networkTask == serviceHandle && !task.isCancelled
  {
    endpoint := TrendingEndpoint(limit);
    task := new RepositoryTask();
    task.networkTask := serviceHandle;
  }
}
