/** GiphyiOSApp/Presentation/Feed/ViewModel/FeedListItemViewModel.swift: one row
    of the feed. Its displayed fields are fixed at construction; the GIF fetch
    around a stored cancellation handle and a stored callback is its only state.
    Date parsing (`DateFormatter`, format "YYYY-MM-dd HH:mm:ss") and relative
    formatting against the current date (`RelativeDateTimeFormatter`) are
    locale- and clock-dependent; they enter as a `DateEnvironment`. */
module FeedListItemViewModels {
  import opened Wrappers
  import opened Entities
  import opened Errors
  import opened NetworkService
  import opened RepositoryTasks

  /** `parse`: the date a datetime string denotes, if it parses; `relative`:
      the localized relative phrase for a date, as of now. */
  datatype DateEnvironment = DateEnvironment(parse: string -> Option<int>, relative: int -> string)

  const AuthorPrefix: string := "Aurthor: "
  const TrendingPrefix: string := "Trending on: "

  /** `setAurthorName(user:)`: the display name behind a fixed prefix, or nil
      without a user. The display name can be read back after the prefix. */
  function AuthorName(user: Option<FeedUser>): (r: Option<string>)
    ensures r.Some? <==> user.Some?
    ensures r.Some? ==> |r.value| == |AuthorPrefix| + |user.value.displayName|
    ensures r.Some? ==> r.value[..|AuthorPrefix|] == AuthorPrefix && r.value[|AuthorPrefix|..] == user.value.displayName
  {
    if user.Some? then Some(AuthorPrefix + user.value.displayName) else None
  }

  /** `formatTrendingDateTime(datetime:)`: nil when the datetime does not
      parse, otherwise a phrase beginning with "Trending on: ". */
  function TrendingDateTime(datetime: string, dates: DateEnvironment): (r: Option<string>)
    ensures r.None? <==> dates.parse(datetime).None?
    ensures r.Some? ==> |r.value| >= |TrendingPrefix| && r.value[..|TrendingPrefix|] == TrendingPrefix
    ensures r.Some? ==> r.value[|TrendingPrefix|..] == dates.relative(dates.parse(datetime).value)
  {
    match dates.parse(datetime)
    case None => None
    case Some(date) => Some(TrendingPrefix + dates.relative(date))
  }

  /** What a row displays. */
  datatype RowView = RowView(id: string, title: string, images: FeedImages, trendingDateTime: Option<string>, aurthorName: Option<string>)

  /** The row `init(feed:)` derives from a feed. */
  function RowViewOf(feed: Feed, dates: DateEnvironment): RowView
  {
    RowView(feed.id, feed.title, feed.images, TrendingDateTime(feed.datetime, dates), AuthorName(feed.user))
  }

  /** The rows `feeds.map(FeedListItemViewModel.init)` displays, one per feed, in order. */
  function RowViewsOf(feeds: seq<Feed>, dates: DateEnvironment): seq<RowView>
  {
    seq(|feeds|, i requires 0 <= i < |feeds| => RowViewOf(feeds[i], dates))
  }

  /** What a list of row objects displays. */
  function ViewsOf(rows: seq<FeedListItemViewModel>): seq<RowView>
  {
    seq(|rows|, i requires 0 <= i < |rows| => rows[i].View())
  }

  /** The identity of a `gifData` callback closure. */
  type CallbackId = nat

  /** One call `gifData(data)`. */
  datatype GifDelivery = GifDelivery(callback: CallbackId, data: Bytes)

  class FeedListItemViewModel {
    const id: string
    const title: string
    const images: FeedImages
    const trendingDateTime: Option<string>
    const aurthorName: Option<string>
    var gifData: Option<CallbackId>
    var gifDataRepositoryCancallable: RepositoryTask?
    /** The URL strings passed to `gifDataRepository.fetchGif`, in order. */
    var gifRequests: seq<string>
    /** The calls made to the `gifData` callback, in order. */
    var gifDeliveries: seq<GifDelivery>

    function View(): RowView
    {
      RowView(id, title, images, trendingDateTime, aurthorName)
    }

    /** `init(feed:)`: id, title and images copied, the two strings derived,
        no callback and no fetch yet. */
    constructor (feed: Feed, dates: DateEnvironment)
      ensures View() == RowViewOf(feed, dates)
      ensures id == feed.id && title == feed.title && images == feed.images
      ensures gifData == None && gifDataRepositoryCancallable == null
      ensures gifRequests == [] && gifDeliveries == []
    {
      id := feed.id;
      title := feed.title;
      images := feed.images;
      aurthorName := AuthorName(feed.user);
      trendingDateTime := TrendingDateTime(feed.datetime, dates);
      gifData := None;
      gifDataRepositoryCancallable := null;
      gifRequests := [];
      gifDeliveries := [];
    }

    /** The view assigns the public `gifData` callback. */
    method SetGifData(callback: Option<CallbackId>)
      modifies this
      ensures gifData == callback
      ensures gifDataRepositoryCancallable == old(gifDataRepositoryCancallable)
      ensures gifRequests == old(gifRequests) && gifDeliveries == old(gifDeliveries)
    {
      gifData := callback;
    }

    /** `didRequestGif()`: fetch the small image's URL and keep the handle the
        repository returns (`task`). */
    method DidRequestGif(task: RepositoryTask?)
      modifies this
      ensures gifRequests == old(gifRequests) + [images.small.url]
      ensures gifDataRepositoryCancallable == task
      ensures gifData == old(gifData) && gifDeliveries == old(gifDeliveries)
    {
      gifRequests := gifRequests + [images.small.url];
      gifDataRepositoryCancallable := task;
    }

    /** The fetch's completion: bytes go to the callback if one is set; a
        failure calls nothing. */
    method GifRequestCompleted(result: Result<Bytes, Error>)
      modifies this
      ensures gifDeliveries == old(gifDeliveries) +
        (if result.Success? && gifData.Some? then [GifDelivery(gifData.value, result.value)] else [])
      ensures gifData == old(gifData) && gifDataRepositoryCancallable == old(gifDataRepositoryCancallable)
      ensures gifRequests == old(gifRequests)
    {
      if result.Success? && gifData.Some? {
        gifDeliveries := gifDeliveries + [GifDelivery(gifData.value, result.value)];
      }
    }

    /** `didCancelGifRequest()`: cancel the stored handle if any (one cancel
        forwarded to its network task), then forget the handle and the callback. */
    method DidCancelGifRequest()
      modifies this, gifDataRepositoryCancallable
      modifies if gifDataRepositoryCancallable == null then {} else {gifDataRepositoryCancallable.networkTask}
      ensures gifDataRepositoryCancallable == null && gifData == None
      ensures old(gifDataRepositoryCancallable) != null ==> old(gifDataRepositoryCancallable).isCancelled
      ensures old(gifDataRepositoryCancallable) != null ==>
        old(gifDataRepositoryCancallable).networkTask == old(gifDataRepositoryCancallable.networkTask)
      ensures old(gifDataRepositoryCancallable) != null && old(gifDataRepositoryCancallable.networkTask) != null ==>
        old(gifDataRepositoryCancallable.networkTask).cancelCount == old(gifDataRepositoryCancallable.networkTask.cancelCount) + 1
      ensures gifRequests == old(gifRequests) && gifDeliveries == old(gifDeliveries)
    {
      if gifDataRepositoryCancallable != null {
        gifDataRepositoryCancallable.Cancel();
      }
      gifDataRepositoryCancallable := null;
      gifData := None;
    }

    /** `==`: rows are the same row when their ids are. */
    function Equals(other: FeedListItemViewModel): (same: bool)
      ensures same <==> id == other.id
    {
      id == other.id
    }
  }

  /** Row equality looks at the id only: rows of two feeds are equal exactly
      when the feeds share an id, whatever their other fields. */
  lemma EqualsIffSameFeedId(a: FeedListItemViewModel, b: FeedListItemViewModel, fa: Feed, fb: Feed, dates: DateEnvironment)
    requires a.View() == RowViewOf(fa, dates) && b.View() == RowViewOf(fb, dates)
    ensures a.Equals(b) <==> fa.id == fb.id
  {
  }

  /** Row equality is an equivalence: reflexive, symmetric and transitive. */
  lemma EqualsIsEquivalence(a: FeedListItemViewModel, b: FeedListItemViewModel, c: FeedListItemViewModel)
    ensures a.Equals(a)
    ensures a.Equals(b) <==> b.Equals(a)
    ensures a.Equals(b) && b.Equals(c) ==> a.Equals(c)
  {
  }

  /** A request, then a cancel, then the late successful result: the network
      task is cancelled once and the old callback receives nothing. */
  method CancelBeforeLateResult(row: FeedListItemViewModel, task: RepositoryTask, late: Bytes)
    requires task.networkTask != null
    modifies row, task, task.networkTask
    ensures row.gifDeliveries == old(row.gifDeliveries)
    ensures row.gifRequests == old(row.gifRequests) + [row.images.small.url]
    ensures task.isCancelled && task.networkTask == old(task.networkTask)
    ensures task.networkTask != null && task.networkTask.cancelCount == old(task.networkTask.cancelCount) + 1
  {
    row.DidRequestGif(task);
    row.DidCancelGifRequest();
    row.GifRequestCompleted(Success(late));
  }

  /** `feeds.map(FeedListItemViewModel.init)`: one new row per feed, in order,
      none of them fetching. */
  method MakeRows(feeds: seq<Feed>, dates: DateEnvironment) returns (rows: seq<FeedListItemViewModel>)
    ensures ViewsOf(rows) == RowViewsOf(feeds, dates)
    ensures forall i :: 0 <= i < |rows| ==> fresh(rows[i]) && rows[i].gifData == None && rows[i].gifDataRepositoryCancallable == null
  {
    rows := [];
    var i := 0;
    while i < |feeds|
      invariant 0 <= i <= |feeds|
      invariant |rows| == i
      invariant forall j :: 0 <= j < i ==> rows[j].View() == RowViewOf(feeds[j], dates)
      invariant forall j :: 0 <= j < i ==> fresh(rows[j]) && rows[j].gifData == None && rows[j].gifDataRepositoryCancallable == null
    {
      var row := new FeedListItemViewModel(feeds[i], dates);
      rows := rows + [row];
      i := i + 1;
    }
  }
}
