/** Domain entities of the Giphy client (Domain/Entities/Feed.swift, Giphy.swift,
    GiphyFeed.swift). Every Swift struct is Equatable by structure, which is what
    Dafny's datatype equality gives. A `URL` is kept as its absolute string. */
module Entities {
  import opened Wrappers

  /** One byte of a `Data` value. */
  newtype Byte = x: int | 0 <= x < 256

  /** Foundation `Data`. */
  type Bytes = seq<Byte>

  // Feed.swift

  datatype FeedImageMetadata = FeedImageMetadata(height: string, width: string, url: string)

  datatype FeedImages = FeedImages(original: FeedImageMetadata, small: FeedImageMetadata)

  datatype FeedUser = FeedUser(username: string, displayName: string)

  /** `user` is optional: the DTO mapper builds it with `user?.toDomain()` and the
      row view model reads it as `FeedUser?`. */
  datatype Feed = Feed(id: string, title: string, datetime: string, images: FeedImages, user: Option<FeedUser>)

  datatype FeedPage = FeedPage(totalCount: int, count: int, offset: int, giphy: seq<Feed>)

  // Giphy.swift

  datatype GiphyImageMetadata = GiphyImageMetadata(height: string, width: string, url: string)

  datatype GiphyImages = GiphyImages(original: GiphyImageMetadata, small: GiphyImageMetadata)

  datatype Giphy = Giphy(id: string, title: string, datetime: string, images: GiphyImages)

  datatype GiphyPage = GiphyPage(totalCount: int, count: int, offset: int, giphy: seq<Giphy>)

  // GiphyFeed.swift

  datatype GiphyFeedImageMetadata = GiphyFeedImageMetadata(height: string, width: string, url: string)

  datatype GiphyFeedImages = GiphyFeedImages(original: GiphyFeedImageMetadata, small: GiphyFeedImageMetadata)

  datatype GiphyFeedUser = GiphyFeedUser(username: string, displayName: string)

  datatype GiphyFeed = GiphyFeed(id: string, title: string, datetime: string, images: GiphyFeedImages, user: GiphyFeedUser)

  datatype GiphyFeedPage = GiphyFeedPage(totalCount: int, count: int, offset: int, giphy: seq<GiphyFeed>)
}
