/** GiphyiOSApp/Presentation/Feed/ViewModel/FeedViewModel.swift: the paginated
    trending feed screen's state. Each load asks the use case for a page of 10;
    the completion merges the page into the page set and republishes every row,
    or publishes an error message, and clears the loading state.
    The use case is the collaborator: the requests it receives are logged in
    `requests`, and `Complete` is the completion closure run with a result. */
module FeedViewModels {
  import opened Wrappers
  import opened Entities
  import opened Errors
  import opened ConnectionErrors
  import opened Observables
  import opened TrendingUseCase
  import opened FeedPages
  import opened FeedListItemViewModels

  /** `FeedViewModelState`. */
  datatype FeedViewModelState = Loading | NextPage

  /** `parPageItem`: the limit of every request. */
  const PerPageItem: int := 10
  const NoInternetConnectionMessage: string := "No internet connection"
  const FailedToLoadFeedMessage: string := "Failed to load feed"

  /** `handleError(error:)`'s message: the connection message exactly for
      connection errors, the generic message exactly for all others. */
  function ErrorMessage(e: Error): (m: string)
    ensures m == NoInternetConnectionMessage <==> IsInternetConnectionError(e)
    ensures m == FailedToLoadFeedMessage <==> !IsInternetConnectionError(e)
  {
    if IsInternetConnectionError(e) then NoInternetConnectionMessage else FailedToLoadFeedMessage
  }

  class FeedViewModel {
    const items: Observable<seq<FeedListItemViewModel>>
    const error: Observable<string>
    const state: Observable<Option<FeedViewModelState>>
    const dates: DateEnvironment
    var totalCount: int
    var count: int
    var offSet: int
    var pages: seq<FeedPage>
    /** The request values passed to `useCase.execute`, in order. */
    var requests: seq<RequestValue>

    /** The page set has one page per offset and the published rows are the
        rows of its feeds, in page order. */
    ghost predicate Valid()
      reads this, items
    {
      UniqueOffsets(pages) && ViewsOf(items.value) == RowViewsOf(Flatten(pages), dates)
    }

    /** `hasMorePage`: items remain beyond the last page received. */
    function HasMorePage(): (more: bool)
      reads this
      ensures more <==> offSet + count < totalCount
    {
      count + offSet < totalCount
    }

    /** `init(useCase:)`: no rows, empty error, no state, nothing requested. */
    constructor (dates: DateEnvironment)
      ensures Valid()
      ensures fresh(items) && fresh(error) && fresh(state)
      ensures items.value == [] && error.value == "" && state.value == None
      ensures items.listener == None && error.listener == None && state.listener == None
      ensures items.notifications == [] && error.notifications == [] && state.notifications == []
      ensures totalCount == 0 && count == 0 && offSet == 0 && pages == [] && requests == []
      ensures this.dates == dates
    {
      this.dates := dates;
      items := new Observable([]);
      error := new Observable("");
      state := new Observable(None);
      totalCount := 0;
      count := 0;
      offSet := 0;
      pages := [];
      requests := [];
    }

    /** `loadFeed(state:)` up to the request: publish the state and ask the
        use case for `PerPageItem` items. */
    method LoadFeed(s: FeedViewModelState)
      requires Valid()
      modifies this, state
      ensures Valid()
      ensures state.value == Some(s) && state.listener == old(state.listener)
      ensures state.notifications == old(state.notifications) + Notify(state.listener, Some(s))
      ensures requests == old(requests) + [RequestValue(PerPageItem)]
      ensures pages == old(pages) && totalCount == old(totalCount) && count == old(count) && offSet == old(offSet)
    {
      state.Set(Some(s));
      requests := requests + [RequestValue(PerPageItem)];
    }

    /** `viewDidLoad()`. */
    method ViewDidLoad()
      requires Valid()
      modifies this, state
      ensures Valid()
      ensures state.value == Some(Loading) && state.listener == old(state.listener)
      ensures state.notifications == old(state.notifications) + Notify(state.listener, Some(Loading))
      ensures requests == old(requests) + [RequestValue(PerPageItem)]
      ensures pages == old(pages) && totalCount == old(totalCount) && count == old(count) && offSet == old(offSet)
    {
      LoadFeed(Loading);
    }

    /** `didLoadNextPage()`: requests again whether or not `hasMorePage`. */
    method DidLoadNextPage()
      requires Valid()
      modifies this, state
      ensures Valid()
      ensures state.value == Some(NextPage) && state.listener == old(state.listener)
      ensures state.notifications == old(state.notifications) + Notify(state.listener, Some(NextPage))
      ensures requests == old(requests) + [RequestValue(PerPageItem)]
      ensures pages == old(pages) && totalCount == old(totalCount) && count == old(count) && offSet == old(offSet)
    {
      LoadFeed(NextPage);
    }

    /** `didRefreshFeed()`: drop every page and row, then load as at first. */
    method DidRefreshFeed()
      requires Valid()
      modifies this, items, state
      ensures Valid()
      ensures pages == [] && items.value == [] && totalCount == 0 && count == 0 && offSet == 0
      ensures items.listener == old(items.listener)
      ensures items.notifications == old(items.notifications) + Notify(items.listener, [])
      ensures state.value == Some(Loading) && state.listener == old(state.listener)
      ensures state.notifications == old(state.notifications) + Notify(state.listener, Some(Loading))
      ensures requests == old(requests) + [RequestValue(PerPageItem)]
    {
      ResetPages();
      LoadFeed(Loading);
    }

    /** `resetPages()`: counters to zero, no pages, and the empty row list
        published. */
    method ResetPages()
      modifies this, items
      ensures Valid()
      ensures pages == [] && items.value == [] && totalCount == 0 && count == 0 && offSet == 0
      ensures items.listener == old(items.listener)
      ensures items.notifications == old(items.notifications) + Notify(items.listener, [])
      ensures requests == old(requests)
    {
      totalCount := 0;
      count := 0;
      offSet := 0;
      pages := [];
      items.Set([]);
    }

    /** `appendPage(feedPage:)`: take the page's counters, merge it into the
        page set, and publish fresh rows for all pages' feeds. */
    method AppendPage(page: FeedPage)
      requires Valid()
      modifies this, items
      ensures Valid()
      ensures pages == Merge(old(pages), page)
      ensures totalCount == page.totalCount && count == page.count && offSet == page.offset
      ensures ViewsOf(items.value) == RowViewsOf(Flatten(WithoutOffset(old(pages), page.offset)) + page.giphy, dates)
      ensures forall i :: 0 <= i < |items.value| ==> fresh(items.value[i])
      ensures items.listener == old(items.listener)
      ensures items.notifications == old(items.notifications) + Notify(items.listener, items.value)
      ensures requests == old(requests)
    {
      totalCount := page.totalCount;
      count := page.count;
      offSet := page.offset;
      var merged := Merge(pages, page);
      MergeKeepsUnique(pages, page);
      MergeFlatten(pages, page);
      var feeds := Flatten(merged);
      assert feeds == Flatten(WithoutOffset(pages, page.offset)) + page.giphy;
      var rows := MakeRows(feeds, dates);
      pages := merged;
      items.Set(rows);
      assert items.value == rows;
    }

    /** `handleError(error:)`. */
    method HandleError(e: Error)
      modifies error
      ensures error.value == ErrorMessage(e) && error.listener == old(error.listener)
      ensures error.notifications == old(error.notifications) + Notify(error.listener, ErrorMessage(e))
    {
      error.Set(ErrorMessage(e));
    }

    /** The completion passed to `useCase.execute`, run with the use case's
        result (the view model still alive): a page is appended, a failure
        becomes the error message, and the state returns to none. */
    method Complete(result: Result<FeedPage, Error>)
      requires Valid() && |requests| > 0
      modifies this, items, error, state
      ensures Valid()
      ensures state.value == None && state.listener == old(state.listener)
      ensures state.notifications == old(state.notifications) + Notify(state.listener, None)
      ensures requests == old(requests)
      ensures result.Success? ==> pages == Merge(old(pages), result.value)
      ensures result.Success? ==> totalCount == result.value.totalCount && count == result.value.count && offSet == result.value.offset
      ensures result.Success? ==> (HasMorePage() <==> result.value.count + result.value.offset < result.value.totalCount)
      ensures result.Success? ==> forall i :: 0 <= i < |items.value| ==> fresh(items.value[i])
      ensures result.Success? ==> error.value == old(error.value) && error.notifications == old(error.notifications)
      ensures result.Success? ==> items.notifications == old(items.notifications) + Notify(items.listener, items.value)
      ensures items.listener == old(items.listener) && error.listener == old(error.listener)
      ensures result.Failure? ==> pages == old(pages) && totalCount == old(totalCount) && count == old(count) && offSet == old(offSet)
      ensures result.Failure? ==> items.value == old(items.value) && items.notifications == old(items.notifications)
      ensures result.Failure? ==> error.value == ErrorMessage(result.error)
      ensures result.Failure? ==> error.notifications == old(error.notifications) + Notify(error.listener, ErrorMessage(result.error))
    {
      match result {
        case Success(page) => AppendPage(page);
        case Failure(e) => HandleError(e);
      }
      state.Set(None);
    }
  }

  /** A new view model has asked the use case for nothing. */
  method InitRequestsNothing(dates: DateEnvironment) returns (requested: seq<RequestValue>, shown: seq<RowView>, st: Option<FeedViewModelState>)
    ensures requested == [] && shown == [] && st == None
  {
    var vm := new FeedViewModel(dates);
    requested := vm.requests;
    shown := ViewsOf(vm.items.value);
    st := vm.state.value;
  }

  /** `viewDidLoad`, then the first page arrives: loading while waiting, then
      no state and one row per feed of the page. */
  method FirstPageScenario(dates: DateEnvironment, page: FeedPage)
    returns (waiting: Option<FeedViewModelState>, after: Option<FeedViewModelState>, shown: seq<RowView>)
    ensures waiting == Some(Loading) && after == None
    ensures shown == RowViewsOf(page.giphy, dates)
  {
    var vm := new FeedViewModel(dates);
    vm.ViewDidLoad();
    waiting := vm.state.value;
    vm.Complete(Success(page));
    after := vm.state.value;
    shown := ViewsOf(vm.items.value);
    assert Flatten(WithoutOffset([], page.offset)) + page.giphy == page.giphy;
  }

  /** `viewDidLoad`, then a failure: the message for that error is published
      and no row appears. */
  method FailureScenario(dates: DateEnvironment, e: Error)
    returns (message: string, shown: seq<RowView>, after: Option<FeedViewModelState>)
    ensures message == ErrorMessage(e) && shown == [] && after == None
  {
    var vm := new FeedViewModel(dates);
    vm.ViewDidLoad();
    vm.Complete(Failure(e));
    message := vm.error.value;
    shown := ViewsOf(vm.items.value);
    after := vm.state.value;
  }

  /** Two pages at different offsets: `nextPage` while the second is awaited,
      then the rows of both pages, the first page's first. */
  method NextPageScenario(dates: DateEnvironment, first: FeedPage, second: FeedPage)
    returns (waiting: Option<FeedViewModelState>, after: Option<FeedViewModelState>, shown: seq<RowView>)
    requires first.offset != second.offset
    ensures waiting == Some(NextPage) && after == None
    ensures shown == RowViewsOf(first.giphy + second.giphy, dates)
  {
    var vm := new FeedViewModel(dates);
    vm.ViewDidLoad();
    vm.Complete(Success(first));
    vm.DidLoadNextPage();
    waiting := vm.state.value;
    vm.Complete(Success(second));
    after := vm.state.value;
    shown := ViewsOf(vm.items.value);
    TwoPagesAccumulate(first, second);
  }

  /** Two pages, a refresh, then the first page again: loading after the
      refresh, and only the first page's rows at the end. */
  method RefreshScenario(dates: DateEnvironment, first: FeedPage, second: FeedPage)
    returns (waiting: Option<FeedViewModelState>, after: Option<FeedViewModelState>, shown: seq<RowView>, requested: nat)
    requires first.offset != second.offset
    ensures waiting == Some(Loading) && after == None
    ensures shown == RowViewsOf(first.giphy, dates)
    ensures requested == 3
  {
    var vm := new FeedViewModel(dates);
    vm.ViewDidLoad();
    vm.Complete(Success(first));
    vm.DidLoadNextPage();
    vm.Complete(Success(second));
    vm.DidRefreshFeed();
    waiting := vm.state.value;
    vm.Complete(Success(first));
    after := vm.state.value;
    shown := ViewsOf(vm.items.value);
    requested := |vm.requests|;
    assert Flatten(WithoutOffset([], first.offset)) + first.giphy == first.giphy;
  }
}
