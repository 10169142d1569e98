/** The layers composed: a trending page request travels through the network
    service, the data-transfer service and the loader, and the feed view model
    turns a failure into its message. */
module FeedPipeline {
  import opened Wrappers
  import opened Entities
  import opened Errors
  import opened Endpoints
  import NetworkService
  import DataTransferService
  import opened FeedResponseMapping
  import TrendingRepositoryLoader
  import opened FeedViewModels

  /** What the loader's completion receives for one session outcome. */
  function TrendingResult(config: NetworkConfig, parser: UrlParser, limit: int,
                          outcome: NetworkService.SessionOutcome, task: NetworkService.NetworkTask,
                          decoder: Bytes -> Result<FeedResponseDTO, Error>): Result<FeedPage, Error>
  {
    var call := NetworkService.Request(config, TrendingRepositoryLoader.TrendingEndpoint(limit), parser, outcome, task);
    TrendingRepositoryLoader.Deliver(DataTransferService.Request(call, decoder).result)
  }

  /** Once the request is built, the screen says "No internet connection"
      exactly when the session failed with the not-connected code and no HTTP
      response; every other failure says "Failed to load feed". */
  lemma NoInternetExactlyForNotConnectedCode(config: NetworkConfig, parser: UrlParser, limit: int,
                                             outcome: NetworkService.SessionOutcome, task: NetworkService.NetworkTask,
                                             decoder: Bytes -> Result<FeedResponseDTO, Error>)
    requires UrlRequestFor(config, TrendingRepositoryLoader.TrendingEndpoint(limit), parser).Success?
    ensures var r := TrendingResult(config, parser, limit, outcome, task, decoder);
      r.Failure? ==>
        (ErrorMessage(r.error) == NoInternetConnectionMessage <==>
          outcome.error.Some? && outcome.error.value.code == NotConnectedToInternetCode
          && !(outcome.response.Some? && outcome.response.value.HttpResponse?))
  {
  }

  /** A request that cannot be built never reads as a lost connection. */
  lemma UnbuildableRequestFailsToLoad(config: NetworkConfig, parser: UrlParser, limit: int,
                                      outcome: NetworkService.SessionOutcome, task: NetworkService.NetworkTask,
                                      decoder: Bytes -> Result<FeedResponseDTO, Error>)
    requires UrlRequestFor(config, TrendingRepositoryLoader.TrendingEndpoint(limit), parser).Failure?
    ensures TrendingResult(config, parser, limit, outcome, task, decoder)
      == Failure(TransferFailure(NetworkErr(NetworkFailure(UrlGeneration))))
    ensures ErrorMessage(TrendingResult(config, parser, limit, outcome, task, decoder).error) == FailedToLoadFeedMessage
  {
  }

  /** A successful session whose body decodes delivers the mapped page. */
  lemma DecodedBodyDelivered(config: NetworkConfig, parser: UrlParser, limit: int,
                             data: Bytes, statusCode: int, task: NetworkService.NetworkTask,
                             decoder: Bytes -> Result<FeedResponseDTO, Error>)
    requires UrlRequestFor(config, TrendingRepositoryLoader.TrendingEndpoint(limit), parser).Success?
    requires decoder(data).Success?
    ensures TrendingResult(config, parser, limit,
              NetworkService.SessionOutcome(Some(data), Some(NetworkService.HttpResponse(statusCode)), None), task, decoder)
      == Success(ResponseToDomain(decoder(data).value))
  {
  }
}
