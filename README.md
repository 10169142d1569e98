# Giphy client: data layer and paginated feed, modelled in Dafny

This project models the core of an iOS client for Giphy's trending feed:

- the network layer: turning an `Endpoint` into a `URLRequest`, classifying a data task's outcome into a `NetworkError`, and decoding it into a `DataTransferError` or a value;
- the "is this a lost connection?" predicate over errors;
- the DTO-to-domain mappers and their JSON coding keys;
- the three repositories, the cancel-forwarding `RepositoryTask`, and the two trending use cases;
- the presentation layer:
  - the single-listener `Observable`;
  - the row view model `FeedListItemViewModel`, with its author and date strings and its GIF fetch/cancel lifecycle;
  - the paginated `FeedViewModel`. It merges pages by offset, republishes every row, maps failures to two messages, and runs a loading / next-page / none state machine.

Pure code is modelled as functions and lemmas. Objects whose fields the source updates in place are classes:

- `Observable`, `FeedViewModel`, `FeedListItemViewModel`, `RepositoryTask`, and the network task handle;
- the loops of `url(with:)`, `urlRequest(with:)` and `.map(FeedListItemViewModel.init)` are methods with loop invariants.

Each method is proved against a specification function. The pure layers compose end to end in `FeedPipeline`.

Foreign code and I/O become parameters:

- Foundation URL parsing is the `UrlParser` predicates.
- The session's `(data, response, error)` triple and its task object are `SessionOutcome` and `NetworkTask`.
- JSON decoders are functions from bytes to a result.
- Date parsing and relative formatting are `DateEnvironment`.
- Callbacks and listeners are identities; the calls made to them are recorded in logs (`notifications`, `gifDeliveries`, `requests`).

Completions are modelled as return values or as the `Complete` / `GifRequestCompleted` methods. "Exactly one completion per outcome" therefore holds by construction.

Where the source files disagree with each other, the model follows the code as written:

- `Endpoint.swift`'s initializer has no `isFullPath`, yet `GifDataRepositoryLoader.swift:19` passes one. The model's `Endpoint` carries the flag, and `url(with:)` never reads it: the path is always appended to the base URL.
- The two trending repositories build endpoints without a `responseDecoder`. The model defaults it to the JSON decoder.
- `Feed.swift` declares `user` non-optional, while the mapper (`user?.toDomain()`) and the row view model treat it as optional. The model keeps it optional.
- `GiphyTrendingRepository` produces `GiphyPage`, while `TrendingGiphyUseCase`'s signature says `GiphyFeedPage`. The model forwards `GiphyPage`.
- `FeedViewModel` maps feeds with `FeedListItemViewModel.init` and no repository, while the row's initializer takes one. In the model the repository's returned handle is the argument of `DidRequestGif`.
- The query parameters of an endpoint (`limit`, `rating`) are never sent, because `url(with:)` reads only the configuration's. `urlRequest(with:)` never sets the HTTP method, so it stays "GET". `TrendingRepositoryLoader.LimitNeverSent` states that the trending request is the same whatever the limit; `Endpoints.UrlRequestFor` states that its method is "GET".
- `ObservableTests.swift` calls `observe`, but the class declares `subscribe`. The model follows `subscribe`.

## Model

| member | source | states |
|---|---|---|
| ConnectionErrors.ConnectionErrorCharacterized | Giphy/Giphy/Common/ConnectionError.swift:14-21 | an error is a connection error exactly when it is `networkError(notConnected)` as a transfer error, or a conforming foreign error whose flag is set |
| ConnectionErrors.NonConformingNeverConnection | Giphy/Giphy/Common/ConnectionError.swift:16-18 | a bare `NetworkError` (even `notConnected`), a request-generation error or a plain NSError is never a connection error |
| ConnectionErrors.ConformingUsesOwnFlag | Giphy/Giphy/Common/ConnectionError.swift:16-20 | a conforming error answers with its own flag, true or false |
| ConnectionErrors.TransferNonConnectionCases | Giphy/Giphy/Presentation/Utlis/Extensions/DataTransferError+ConnectionError.swift:12-15 | `noResponse`, `parsing`, and `networkError` around any other network case or a non-network error are not connection errors |
| DataTransferService.Decode | Giphy/Giphy/Infrastructure/Network/DataTransferService.swift:41-51 | no bytes gives `noResponse` exactly; success exactly when the decoder accepts the bytes, with its value; a rejection gives `parsing` with the decoder's error |
| DataTransferService.Request | Giphy/Giphy/Infrastructure/Network/DataTransferService.swift:28-39 | the transport handle is returned unchanged; a transport failure becomes `networkError` of it with no decoding; a success is decoded |
| DataTransferService.RawDataPassesThrough | Giphy/Giphy/Data/Repositories/GifDataRepositoryLoader.swift:19 | with the raw-data decoder, bytes come through unchanged and only a missing body fails |
| Endpoints.RawValueRoundTrip | Giphy/Giphy/Infrastructure/Network/Endpoint.swift:10-15 | the raw values are "GET", "POST", "PUT", "DELETE"; each decodes back to its case and nothing else decodes |
| Endpoints.EndpointInitDefaults | Giphy/Giphy/Infrastructure/Network/Endpoint.swift:76-81 | the endpoint keeps path, method, parameters and decoder as given; the parameters default to empty |
| Endpoints.AppendPath | Giphy/Giphy/Infrastructure/Network/Endpoint.swift:41 | the path joins the base URL with exactly one '/'; an empty path leaves the base unchanged |
| Endpoints.QueryItems | Giphy/Giphy/Infrastructure/Network/Endpoint.swift:46-50 | one item per configuration parameter: the names are distinct, their count is the map's size, and the items stand for exactly that map |
| Endpoints.ConfigQuery | Giphy/Giphy/Infrastructure/Network/Endpoint.swift:52 | no query at all exactly when the configuration has no parameters; otherwise exactly the configuration's parameters |
| Endpoints.UrlFor | Giphy/Giphy/Infrastructure/Network/Endpoint.swift:40-57 | success exactly when both URL-forming steps accept; the address is base plus path; the query comes from the configuration only; a failure is `RequestGenerationError.components` |
| Endpoints.Url | Giphy/Giphy/Infrastructure/Network/Endpoint.swift:40-57 | the item-by-item construction yields exactly `UrlFor` |
| Endpoints.UrlRequestFor | Giphy/Giphy/Infrastructure/Network/Endpoint.swift:58-65 | fails exactly when the URL fails; otherwise the request has that URL, exactly the configuration's headers, and the method "GET" |
| Endpoints.BuildUrlRequest | Giphy/Giphy/Infrastructure/Network/Endpoint.swift:58-65 | setting headers one at a time yields exactly `UrlRequestFor` |
| Endpoints.RequestDependsOnlyOnPath | Giphy/Giphy/Infrastructure/Network/Endpoint.swift:40-65 | two endpoints with the same path give the same request, whatever their parameters, method, decoder or full-path flag |
| NetworkService.NetworkTask.Cancel | Giphy/Giphy/Infrastructure/Network/NetworkService.swift:19-23 | each cancel is counted once |
| NetworkService.Resolve | Giphy/Giphy/Infrastructure/Network/NetworkService.swift:72-82 | code -1009 exactly gives `notConnected`, code -999 exactly gives `cancelled`, and every other code gives `generic` wrapping the error |
| NetworkService.Handle | Giphy/Giphy/Infrastructure/Network/NetworkService.swift:64-70 | the status-code case exactly when there is an HTTP response, carrying its status and the data; otherwise `Resolve` |
| NetworkService.Classify | Giphy/Giphy/Infrastructure/Network/NetworkService.swift:50-59 | an error goes through `Handle`; success exactly when there is no error, some data and an HTTP response; otherwise `unknown`; never `urlGeneration` |
| NetworkService.Request | Giphy/Giphy/Infrastructure/Network/NetworkService.swift:39-47 | an unbuildable request completes with `urlGeneration` and no handle; otherwise the outcome is classified and the task returned |
| NetworkService.UrlGenerationExactlyWhenBuildFails | Giphy/Giphy/Infrastructure/Network/NetworkService.swift:40-46 | `urlGeneration` arises, and the handle is nil, exactly when the URL cannot be formed |
| NetworkService.HttpResponseWinsOverErrorCode | Giphy/Giphy/Infrastructure/Network/NetworkService.swift:64-66 | with an HTTP response an error gives the status-code case whatever its code |
| FeedResponseMapping.CodingKeysRoundTrip | Giphy/Giphy/Data/DataMapping/FeedResponseDTO+Mapping.swift:38-104 | every field's wire name ("trending_datetime", "fixed_width_small", "display_name", "total_count", ...) decodes to that field and only to it |
| FeedResponseMapping.ImageMetadataToDomain | Giphy/Giphy/Data/DataMapping/FeedResponseDTO+Mapping.swift:127-131 | height, width and url are each copied into their namesake |
| FeedResponseMapping.ImagesToDomain | Giphy/Giphy/Data/DataMapping/FeedResponseDTO+Mapping.swift:121-125 | the original image maps to the original and the small to the small, field by field |
| FeedResponseMapping.UserToDomain | Giphy/Giphy/Data/DataMapping/FeedResponseDTO+Mapping.swift:133-137 | username and display name are each copied into their namesake |
| FeedResponseMapping.DataToDomain | Giphy/Giphy/Data/DataMapping/FeedResponseDTO+Mapping.swift:115-119 | id, title and datetime are copied; both images are copied field by field into their namesakes; the user is present exactly when the DTO has one, with its username and display name |
| FeedResponseMapping.DataListToDomain | Giphy/Giphy/Data/DataMapping/FeedResponseDTO+Mapping.swift:111 | the list keeps its length and order, element by element |
| FeedResponseMapping.ResponseToDomain | Giphy/Giphy/Data/DataMapping/FeedResponseDTO+Mapping.swift:109-113 | total count, count and offset come from the pagination; feed i is the mapping of data item i, for every item and no more |
| FeedResponseMapping.DataToDomainInjective | Giphy/Giphy/Data/DataMapping/FeedResponseDTO+Mapping.swift:115-137 | distinct DTOs map to distinct feeds |
| FeedResponseMapping.ResponseToDomainInjective | Giphy/Giphy/Data/DataMapping/FeedResponseDTO+Mapping.swift:109-137 | the page mapping loses nothing: equal pages come from equal responses |
| GiphyResponseMapping.CodingKeysRoundTrip | Giphy/Giphy/Data/DataMapping/GiphyResponseDTO+Mapping.swift:36-86 | wire names ("import_datetime", "fixed_width_small", "total_count", ...) decode to their fields only; there is no "user" key |
| GiphyResponseMapping.ImageMetadataToDomain | Giphy/Giphy/Data/DataMapping/GiphyResponseDTO+Mapping.swift:109-113 | height, width and url are each copied into their namesake |
| GiphyResponseMapping.ImagesToDomain | Giphy/Giphy/Data/DataMapping/GiphyResponseDTO+Mapping.swift:103-107 | the original image maps to the original and the small to the small, field by field |
| GiphyResponseMapping.DataToDomain | Giphy/Giphy/Data/DataMapping/GiphyResponseDTO+Mapping.swift:97-101 | id, title and datetime are copied, and both images are copied field by field into their namesakes |
| GiphyResponseMapping.DataListToDomain | Giphy/Giphy/Data/DataMapping/GiphyResponseDTO+Mapping.swift:93 | the list keeps its length and order, element by element |
| GiphyResponseMapping.ResponseToDomain | Giphy/Giphy/Data/DataMapping/GiphyResponseDTO+Mapping.swift:91-95 | total count, count and offset come from the pagination; item i is the mapping of data entry i, for every entry and no more |
| GiphyResponseMapping.ResponseToDomainInjective | Giphy/Giphy/Data/DataMapping/GiphyResponseDTO+Mapping.swift:91-113 | equal pages come from equal responses |
| RepositoryTasks.RepositoryTask.constructor | Giphy/Giphy/Data/Repositories/Utlis/RepositoryTask.swift:11-12 | a new task is not cancelled and wraps no network task |
| RepositoryTasks.RepositoryTask.Cancel | Giphy/Giphy/Data/Repositories/Utlis/RepositoryTask.swift:14-17 | the flag is set, and exactly one cancel reaches the wrapped network task when there is one |
| TrendingRepositoryLoader.TrendingEndpoint | Giphy/Giphy/Data/Repositories/TrendingRepositoryLoader.swift:22 | GET "/v1/gifs/trending" with exactly the parameters limit and rating "g" |
| TrendingRepositoryLoader.Deliver | Giphy/Giphy/Data/Repositories/TrendingRepositoryLoader.swift:23-30 | a DTO is delivered as its domain page and a failure as the same error |
| TrendingRepositoryLoader.FetchTrendingGiphyList | Giphy/Giphy/Data/Repositories/TrendingRepositoryLoader.swift:18-33 | returns a fresh, uncancelled task wrapping the service's handle, for that endpoint |
| TrendingRepositoryLoader.LimitNeverSent | Giphy/Giphy/Data/Repositories/TrendingRepositoryLoader.swift:22 | the built request is the same whatever the limit |
| GiphyTrendingRepository.TrendingEndpoint | Giphy/Giphy/Data/Repositories/GiphyTrendingRepository.swift:18-22 | GET "/v1/gifs/trending" with no parameters, whatever the limit |
| GiphyTrendingRepository.Deliver | Giphy/Giphy/Data/Repositories/GiphyTrendingRepository.swift:23-30 | a DTO is delivered as its domain page and a failure as the same error |
| GiphyTrendingRepository.FetchTrendingGiphyList | Giphy/Giphy/Data/Repositories/GiphyTrendingRepository.swift:18-33 | returns a fresh, uncancelled task wrapping the service's handle |
| GifDataRepositoryLoader.GifEndpoint | Giphy/Giphy/Data/Repositories/GifDataRepositoryLoader.swift:19 | the URL string unchanged as a full path, GET, the raw-data decoder, no parameters |
| GifDataRepositoryLoader.Deliver | Giphy/Giphy/Data/Repositories/GifDataRepositoryLoader.swift:22-25 | bytes and errors pass through unchanged |
| GifDataRepositoryLoader.FetchGif | Giphy/Giphy/Data/Repositories/GifDataRepositoryLoader.swift:18-27 | returns a fresh task wrapping the service's handle |
| GifDataRepositoryLoader.CancelThenDeliver | Giphy/GiphyTests/Data/GifDataRepositoryTests.swift:49-63 | cancelling the returned task cancels the service handle exactly once, and a later result is still delivered |
| TrendingUseCase.Forward | Giphy/Giphy/Domain/UseCase/TrendingUseCase.swift:24-29 | success and failure are passed on unchanged |
| TrendingUseCase.Execute | Giphy/Giphy/Domain/UseCase/TrendingUseCase.swift:22-31 | the repository is asked for the request's limit, and its result and handle are returned unchanged |
| TrendingGiphyUseCase.Execute | Giphy/Giphy/Domain/UseCase/TrendingGiphyUseCase.swift:22-31 | the repository is asked for the request's limit, and its result and handle are returned unchanged |
| Observables.Notify | Giphy/GiphyiOSApp/Presentation/Utlis/Observable.swift:17 | one delivery to the listener if there is one, none otherwise |
| Observables.Observable.constructor | Giphy/GiphyiOSApp/Presentation/Utlis/Observable.swift:21-23 | stores the value with no listener and delivers nothing |
| Observables.Observable.Set | Giphy/GiphyiOSApp/Presentation/Utlis/Observable.swift:15-19 | the new value is stored and delivered to the current listener only |
| Observables.Observable.Subscribe | Giphy/GiphyiOSApp/Presentation/Utlis/Observable.swift:25-28 | the listener replaces any previous one and hears the current value at once |
| Observables.Observable.Unsubscribe | Giphy/GiphyiOSApp/Presentation/Utlis/Observable.swift:30-32 | no listener afterwards; value and deliveries untouched |
| Observables.ObservableScenario | Giphy/GiphyiOSApp/Presentation/Utlis/Observable.swift:15-32 | a subscriber hears the current value and then each assignment; a second subscriber replaces the first; after unsubscribing nothing is heard |
| FeedListItemViewModels.AuthorName | Giphy/GiphyiOSApp/Presentation/Feed/ViewModel/FeedListItemViewModel.swift:44-50 | present exactly when there is a user: "Aurthor: " followed by exactly the display name |
| FeedListItemViewModels.TrendingDateTime | Giphy/GiphyiOSApp/Presentation/Feed/ViewModel/FeedListItemViewModel.swift:31-42 | absent exactly when the datetime does not parse; otherwise "Trending on: " followed by the relative phrase |
| FeedListItemViewModels.FeedListItemViewModel.constructor | Giphy/GiphyiOSApp/Presentation/Feed/ViewModel/FeedListItemViewModel.swift:20-27 | id, title and images copied, the two strings derived, no fetch and no callback |
| FeedListItemViewModels.FeedListItemViewModel.SetGifData | Giphy/GiphyiOSApp/Presentation/Feed/ViewModel/FeedListItemViewModel.swift:18 | the callback is set and nothing else changes |
| FeedListItemViewModels.FeedListItemViewModel.DidRequestGif | Giphy/GiphyiOSApp/Presentation/Feed/ViewModel/FeedListItemViewModel.swift:58-60 | the small image's URL is fetched and the returned handle stored |
| FeedListItemViewModels.FeedListItemViewModel.GifRequestCompleted | Giphy/GiphyiOSApp/Presentation/Feed/ViewModel/FeedListItemViewModel.swift:60-65 | bytes reach the callback exactly when the fetch succeeded and a callback is set |
| FeedListItemViewModels.FeedListItemViewModel.DidCancelGifRequest | Giphy/GiphyiOSApp/Presentation/Feed/ViewModel/FeedListItemViewModel.swift:68-72 | a stored handle is cancelled (one cancel reaches its network task), then handle and callback are cleared |
| FeedListItemViewModels.FeedListItemViewModel.Equals | Giphy/GiphyiOSApp/Presentation/Feed/ViewModel/FeedListItemViewModel.swift:75-79 | two rows are equal exactly when their ids are, whatever their other fields |
| FeedListItemViewModels.EqualsIsEquivalence | Giphy/GiphyiOSApp/Presentation/Feed/ViewModel/FeedListItemViewModel.swift:75-79 | row equality is reflexive, symmetric and transitive |
| FeedListItemViewModels.EqualsIffSameFeedId | Giphy/GiphyiOSApp/Presentation/Feed/ViewModel/FeedListItemViewModel.swift:75-79 | two rows are equal exactly when their feeds' ids are |
| FeedListItemViewModels.CancelBeforeLateResult | Giphy/GiphyiOSApp/Presentation/Feed/ViewModel/FeedListItemViewModel.swift:58-72 | request, cancel, then a late success: the task is cancelled once and the callback receives nothing |
| FeedListItemViewModels.MakeRows | Giphy/GiphyiOSApp/Presentation/Feed/ViewModel/FeedViewModel.swift:72 | one new row per feed, in order, each showing its feed, none fetching |
| FeedPages.WithoutOffset | Giphy/GiphyiOSApp/Presentation/Feed/ViewModel/FeedViewModel.swift:71 | keeps exactly the pages of other offsets, in their order, dropping as many as had that offset |
| FeedPages.Merge | Giphy/GiphyiOSApp/Presentation/Feed/ViewModel/FeedViewModel.swift:71 | the new page ends the list, and the list loses as many pages as had its offset |
| FeedPages.Flatten | Giphy/GiphyiOSApp/Presentation/Feed/ViewModel/FeedViewModel.swift:72 | no pages give no feeds; a single page gives exactly its feeds |
| FeedPages.FlattenContents | Giphy/GiphyiOSApp/Presentation/Feed/ViewModel/FeedViewModel.swift:72 | every feed of every page is in the flattened list, and every feed in it comes from some page |
| FeedPages.FlattenAppend | Giphy/GiphyiOSApp/Presentation/Feed/ViewModel/FeedViewModel.swift:72 | the feeds of two page lists joined are the two lists' feeds joined |
| FeedPages.WithoutOffsetKeepsUnique | Giphy/GiphyiOSApp/Presentation/Feed/ViewModel/FeedViewModel.swift:71 | filtering keeps offsets unique |
| FeedPages.MergeKeepsUnique | Giphy/GiphyiOSApp/Presentation/Feed/ViewModel/FeedViewModel.swift:71 | merging keeps one page per offset |
| FeedPages.MergeInvariant | Giphy/GiphyiOSApp/Presentation/Feed/ViewModel/FeedViewModel.swift:71 | merging keeps one page per offset, puts the new page last, removes exactly the pages of its offset and keeps the others in order |
| FeedPages.MergeCount | Giphy/GiphyiOSApp/Presentation/Feed/ViewModel/FeedViewModel.swift:71 | a page at a present offset replaces one page; at a new offset it is appended to the unchanged list |
| FeedPages.UniqueCountAtMostOne | Giphy/GiphyiOSApp/Presentation/Feed/ViewModel/FeedViewModel.swift:71 | with unique offsets at most one page has a given offset |
| FeedPages.WithoutAbsentOffset | Giphy/GiphyiOSApp/Presentation/Feed/ViewModel/FeedViewModel.swift:71 | filtering an absent offset changes nothing |
| FeedPages.MergeFlatten | Giphy/GiphyiOSApp/Presentation/Feed/ViewModel/FeedViewModel.swift:71-72 | after a merge the feeds are those of the other offsets' pages followed by the new page's |
| FeedPages.TwoPagesAccumulate | Giphy/GiphyiOSAppTests/Presentation/Feed/FeedViewModel/FeedViewModelTests.swift:59-82 | pages at two offsets give both pages, first then second, and their feeds in that order |
| FeedPages.SameOffsetReplaces | Giphy/GiphyiOSApp/Presentation/Feed/ViewModel/FeedViewModel.swift:71 | a second page at the same offset leaves only that page |
| FeedViewModels.ErrorMessage | Giphy/GiphyiOSApp/Presentation/Feed/ViewModel/FeedViewModel.swift:84-86 | "No internet connection" exactly for connection errors, "Failed to load feed" exactly for all others |
| FeedViewModels.FeedViewModel.HasMorePage | Giphy/GiphyiOSApp/Presentation/Feed/ViewModel/FeedViewModel.swift:46-48 | more items remain exactly when the last page's offset plus its count is below the total; `Complete` ties it to the page just received |
| FeedViewModels.FeedViewModel.constructor | Giphy/GiphyiOSApp/Presentation/Feed/ViewModel/FeedViewModel.swift:34-49 | no rows, error "", state none, counters 0, no pages, no request, no listeners |
| FeedViewModels.FeedViewModel.LoadFeed | Giphy/GiphyiOSApp/Presentation/Feed/ViewModel/FeedViewModel.swift:51-53 | the state is published, then exactly one request of limit 10 is made; pages and rows are untouched |
| FeedViewModels.FeedViewModel.ViewDidLoad | Giphy/GiphyiOSApp/Presentation/Feed/ViewModel/FeedViewModel.swift:90-92 | state loading, and one request of limit 10 |
| FeedViewModels.FeedViewModel.DidLoadNextPage | Giphy/GiphyiOSApp/Presentation/Feed/ViewModel/FeedViewModel.swift:94-96 | state nextPage, and one request of limit 10, whether or not more pages exist |
| FeedViewModels.FeedViewModel.DidRefreshFeed | Giphy/GiphyiOSApp/Presentation/Feed/ViewModel/FeedViewModel.swift:98-101 | counters zeroed, pages and rows emptied (empty list published), state loading, one request |
| FeedViewModels.FeedViewModel.ResetPages | Giphy/GiphyiOSApp/Presentation/Feed/ViewModel/FeedViewModel.swift:75-82 | counters zeroed, no pages, the empty row list published |
| FeedViewModels.FeedViewModel.AppendPage | Giphy/GiphyiOSApp/Presentation/Feed/ViewModel/FeedViewModel.swift:66-73 | counters from the page, the page merged in, fresh rows for the other offsets' feeds then the page's, published once; offsets stay unique |
| FeedViewModels.FeedViewModel.HandleError | Giphy/GiphyiOSApp/Presentation/Feed/ViewModel/FeedViewModel.swift:84-86 | publishes the message for the error |
| FeedViewModels.FeedViewModel.Complete | Giphy/GiphyiOSApp/Presentation/Feed/ViewModel/FeedViewModel.swift:53-63 | afterwards the state is none and no listener has changed; a page is merged with its counters taken, the new rows are published exactly once, and `hasMorePage` iff count + offset < total; a failure publishes its message and leaves pages, counters and rows unchanged |
| FeedViewModels.InitRequestsNothing | Giphy/GiphyiOSAppTests/Presentation/Feed/FeedViewModel/FeedViewModelTests.swift:14-23 | construction requests nothing, shows no row and has no state |
| FeedViewModels.FirstPageScenario | Giphy/GiphyiOSAppTests/Presentation/Feed/FeedViewModel/FeedViewModelTests.swift:20-35 | loading while waiting, then no state and the page's rows |
| FeedViewModels.FailureScenario | Giphy/GiphyiOSAppTests/Presentation/Feed/FeedViewModel/FeedViewModelTests.swift:37-57 | a failed first load publishes the error's message and no row |
| FeedViewModels.NextPageScenario | Giphy/GiphyiOSAppTests/Presentation/Feed/FeedViewModel/FeedViewModelTests.swift:59-82 | nextPage while waiting, then the first page's rows followed by the second's |
| FeedViewModels.RefreshScenario | Giphy/GiphyiOSAppTests/Presentation/Feed/FeedViewModel/FeedViewModelTests.swift:84-111 | after a refresh only the reloaded page's rows remain; three requests in all |
| FeedPipeline.NoInternetExactlyForNotConnectedCode | Giphy/Giphy/Infrastructure/Network/NetworkService.swift:50-82 | once the request is built, "No internet connection" is shown exactly for a session error with code -1009 and no HTTP response |
| FeedPipeline.UnbuildableRequestFailsToLoad | Giphy/Giphy/Infrastructure/Network/NetworkService.swift:40-46 | an unbuildable request reaches the screen as `networkError(urlGeneration)` and "Failed to load feed" |
| FeedPipeline.DecodedBodyDelivered | Giphy/Giphy/Data/Repositories/TrendingRepositoryLoader.swift:22-30 | a successful response whose body decodes delivers the mapped page |

## Left out

- URLSession execution (creating and resuming the data task) is I/O. Its outcome and task object are parameters.
- JSON decoding (`JSONDecoder`, `Decodable` synthesis) is foreign. Decoders are functions returning a value or an error, and the coding keys are lookup tables.
- `RawDataResponseDecoder` is not part of this model. It is taken to return the bytes unchanged.
- URL parsing and percent-encoding are foreign. They are the two `UrlParser` predicates. The query value's stringification `"\(value)"` is the configuration's string itself.
- `appending(path:)` is modelled as joining with one '/'. Foundation's full path normalisation (percent-encoding, a trailing directory slash) is not modelled.
- Swift dictionary iteration order is unspecified. Query items and headers are stated as maps.
- Endpoints.UrlRequestFor: header names are compared as exact strings. `URLRequest.setValue(_:forHTTPHeaderField:)` treats them case-insensitively, so configuration headers differing only in case ("Accept", "accept") become one header in the app but two in the model. Case folding is not modelled.
- Date parsing and relative formatting depend on locale and clock. They are the `DateEnvironment` parameter; only the nil-on-failure and "Trending on: " shape is modelled.
- UIKit views, the composer and the configuration loading are outside the core.
- `[weak self]` guards and thread hand-offs are not modelled. Every completion is a synchronous call on a live object.
- FeedListItemViewModels.FeedListItemViewModel.DidRequestGif: the fetch itself belongs to the repository. The handle it returns is the method's argument, and the later result is `GifRequestCompleted`'s.
- FeedViewModels.FeedViewModel.Complete: the use case's completion closures are indistinguishable, so completing "request i" of the spy is one `Complete` call (it requires that some request was made).
- FeedListItemViewModels.FeedListItemViewModel.Equals: Swift `==` on rows is the function `Equals`, not Dafny's reference equality on the class, so `==` between two row objects in the model still means identity.
- Integer widths: Swift `Int` is 64-bit. Counts and offsets are unbounded here, and nothing in the core does arithmetic that could overflow except `count + offSet` in `hasMorePage`, which is not modelled as wrapping.
- The superseded copies of classes inside test files, the placeholder loader files and the repository protocol files are not modelled.
