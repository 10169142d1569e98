/** Domain/UseCase/TrendingUseCase.swift: the use case the feed view model
    calls. The repository is the collaborator: a function from the limit to what
    its fetch delivers and returns. */
module TrendingUseCase {
  import opened Wrappers
  import opened Entities
  import opened Errors
  import opened RepositoryTasks

  /** `TrendingGiphyUseCaseRequestValue`. */
  datatype RequestValue = RequestValue(limit: int)

  /** A repository fetch: its one completion value and its cancellation handle. */
  datatype Fetch<P> = Fetch(result: Result<P, Error>, handle: RepositoryTask?)

  /** The completion's switch: success and failure passed on as they came. */
  function Forward<P>(result: Result<P, Error>): (r: Result<P, Error>)
    ensures r == result
  {
    match result
    case Success(page) => Success(page)
    case Failure(e) => Failure(e)
  }

  /** `execute(requestValue:completion:)`: asks the repository for
      `requestValue.limit` and hands back its result and its handle unchanged. */
  function Execute(requestValue: RequestValue, repository: int -> Fetch<FeedPage>): (r: Fetch<FeedPage>)
    ensures r == repository(requestValue.limit)
  {
    var fetch := repository(requestValue.limit);
    Fetch(Forward(fetch.result), fetch.handle)
  }
}

/** Domain/UseCase/TrendingGiphyUseCase.swift: the same forwarding over the
    earlier `Giphy` pages. */
module TrendingGiphyUseCase {
  import opened Wrappers
  import opened Entities
  import opened Errors
  import opened RepositoryTasks
  import TrendingUseCase

  /** `TrendingGiphyUseCaseRequestValue`. */
  datatype RequestValue = RequestValue(limit: int)

  /** `execute(requestValue:completion:)`. */
  function Execute(requestValue: RequestValue, repository: int -> TrendingUseCase.Fetch<GiphyPage>): (r: TrendingUseCase.Fetch<GiphyPage>)
    ensures r == repository(requestValue.limit)
  {
    var fetch := repository(requestValue.limit);
    TrendingUseCase.Fetch(TrendingUseCase.Forward(fetch.result), fetch.handle)
  }
}
