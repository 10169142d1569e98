/** Data/Repositories/TrendingRepositoryLoader.swift: fetch one page of the
    trending feed. The data-transfer service is the collaborator: the handle it
    returns is a parameter, and the result it later delivers is the argument of
    `Deliver`. */
module TrendingRepositoryLoader {
  import opened Wrappers
  import opened Entities
  import opened Errors
  import opened Endpoints
  import opened NetworkService
  import opened RepositoryTasks
  import opened FeedResponseMapping

  const TrendingPath: string := "/v1/gifs/trending"

  /** The endpoint of `fetchTrendingGiphyList(limit:)`. */
  function TrendingEndpoint(limit: int): (e: Endpoint)
    ensures e.path == TrendingPath && e.httpMethod == Get && e.responseDecoder == JsonDecoder
    ensures e.queryParameters.Keys == {"limit", "rating"}
    ensures e.queryParameters["limit"] == IntValue(limit) && e.queryParameters["rating"] == StringValue("g")
  {
    Endpoint(TrendingPath, Get, map["limit" := IntValue(limit), "rating" := StringValue("g")])
  }

  /** The completion: a decoded DTO is delivered as its domain page, a failure
      as the same transfer error. */
  function Deliver(result: Result<FeedResponseDTO, DataTransferError>): (r: Result<FeedPage, Error>)
    ensures result.Success? <==> r.Success?
    ensures r.Success? ==> r.value == ResponseToDomain(result.value)
    ensures r.Failure? ==> r.error == TransferFailure(result.error)
  {
    match result
    case Success(dto) => Success(ResponseToDomain(dto))
    case Failure(e) => Failure(TransferFailure(e))
  }

  /** `fetchTrendingGiphyList(limit:completion:)`: builds the endpoint and
      returns a fresh task wrapping the service's handle. */
  method FetchTrendingGiphyList(limit: int, serviceHandle: NetworkTask?) returns (endpoint: Endpoint, task: RepositoryTask)
    ensures endpoint == TrendingEndpoint(limit)
    ensures fresh(task) && task.networkTask == serviceHandle && !task.isCancelled
  {
    endpoint := TrendingEndpoint(limit);
    task := new RepositoryTask();
    task.networkTask := serviceHandle;
  }

  /** The limit and rating never reach the wire: `url(with:)` reads only the
      configuration's query parameters, so the request is the same for every limit. */
  lemma LimitNeverSent(config: NetworkConfig, parser: UrlParser, a: int, b: int)
    ensures UrlRequestFor(config, TrendingEndpoint(a), parser) == UrlRequestFor(config, TrendingEndpoint(b), parser)
  {
  }
}
