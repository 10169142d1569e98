/** Data/DataMapping/FeedResponseDTO+Mapping.swift: the wire shape of a trending
    page (with the optional user) and its field-for-field mapping to the domain.
    JSON decoding is foreign; the `CodingKeys` enums are kept as lookup tables
    in both directions (`stringValue` and `init(stringValue:)`). */
module FeedResponseMapping {
  import opened Wrappers
  import opened Entities

  datatype FeedImageMetadataDTO = FeedImageMetadataDTO(height: string, width: string, url: string)

  datatype FeedImagesDTO = FeedImagesDTO(original: FeedImageMetadataDTO, small: FeedImageMetadataDTO)

  datatype FeedUserDTO = FeedUserDTO(username: string, displayName: string)

  datatype FeedDataDTO = FeedDataDTO(id: string, title: string, datetime: string, images: FeedImagesDTO, user: Option<FeedUserDTO>)

  datatype FeedPaginationDTO = FeedPaginationDTO(totalCount: int, count: int, offset: int)

  datatype FeedResponseDTO = FeedResponseDTO(data: seq<FeedDataDTO>, pagination: FeedPaginationDTO)

  // Coding keys

  /** `FeedDataDTO.CodingKeys`. */
  datatype DataKey = IdKey | TitleKey | DatetimeKey | ImagesKey | UserKey
  {
    function StringValue(): string
    {
      match this
      case IdKey => "id"
      case TitleKey => "title"
      case DatetimeKey => "trending_datetime"
      case ImagesKey => "images"
      case UserKey => "user"
    }
  }

  function DataKeyFor(s: string): Option<DataKey>
  {
    if s == "id" then Some(IdKey)
    else if s == "title" then Some(TitleKey)
    else if s == "trending_datetime" then Some(DatetimeKey)
    else if s == "images" then Some(ImagesKey)
    else if s == "user" then Some(UserKey)
    else None
  }

  /** `FeedImagesDTO.CodingKeys`. */
  datatype ImagesKey = OriginalKey | SmallKey
  {
    function StringValue(): string
    {
      match this
      case OriginalKey => "original"
      case SmallKey => "fixed_width_small"
    }
  }

  function ImagesKeyFor(s: string): Option<ImagesKey>
  {
    if s == "original" then Some(OriginalKey)
    else if s == "fixed_width_small" then Some(SmallKey)
    else None
  }

  /** `FeedUserDTO.CodingKeys`. */
  datatype UserKey = UsernameKey | DisplayNameKey
  {
    function StringValue(): string
    {
      match this
      case UsernameKey => "username"
      case DisplayNameKey => "display_name"
    }
  }

  function UserKeyFor(s: string): Option<UserKey>
  {
    if s == "username" then Some(UsernameKey)
    else if s == "display_name" then Some(DisplayNameKey)
    else None
  }

  /** `FeedPaginationDTO.CodingKeys`. */
  datatype PaginationKey = TotalCountKey | CountKey | OffsetKey
  {
    function StringValue(): string
    {
      match this
      case TotalCountKey => "total_count"
      case CountKey => "count"
      case OffsetKey => "offset"
    }
  }

  function PaginationKeyFor(s: string): Option<PaginationKey>
  {
    if s == "total_count" then Some(TotalCountKey)
    else if s == "count" then Some(CountKey)
    else if s == "offset" then Some(OffsetKey)
    else None
  }

  /** Each key table reads back: a field's wire name decodes to that field, and
      a wire name decodes to a field only if it is that field's name. So no two
      fields share a wire name. */
  lemma CodingKeysRoundTrip(d: DataKey, i: ImagesKey, u: UserKey, p: PaginationKey, s: string)
    ensures DataKeyFor(d.StringValue()) == Some(d) && (DataKeyFor(s) == Some(d) ==> d.StringValue() == s)
    ensures ImagesKeyFor(i.StringValue()) == Some(i) && (ImagesKeyFor(s) == Some(i) ==> i.StringValue() == s)
    ensures UserKeyFor(u.StringValue()) == Some(u) && (UserKeyFor(s) == Some(u) ==> u.StringValue() == s)
    ensures PaginationKeyFor(p.StringValue()) == Some(p) && (PaginationKeyFor(s) == Some(p) ==> p.StringValue() == s)
  {
  }

  // Mappings to the domain

  /** `FeedImageMetadataDTO.toDomain()`: each field into its namesake. */
  function ImageMetadataToDomain(d: FeedImageMetadataDTO): (r: FeedImageMetadata)
    ensures r.height == d.height && r.width == d.width && r.url == d.url
  {
    FeedImageMetadata(d.height, d.width, d.url)
  }

  /** `FeedImagesDTO.toDomain()`: original to original, small to small. */
  function ImagesToDomain(d: FeedImagesDTO): (r: FeedImages)
    ensures r.original == ImageMetadataToDomain(d.original) && r.small == ImageMetadataToDomain(d.small)
    ensures r.original.height == d.original.height && r.original.width == d.original.width && r.original.url == d.original.url
    ensures r.small.height == d.small.height && r.small.width == d.small.width && r.small.url == d.small.url
  {
    FeedImages(ImageMetadataToDomain(d.original), ImageMetadataToDomain(d.small))
  }

  /** `FeedUserDTO.toDomain()`: username and display name into their namesakes. */
  function UserToDomain(d: FeedUserDTO): (r: FeedUser)
    ensures r.username == d.username && r.displayName == d.displayName
  {
    FeedUser(d.username, d.displayName)
  }

  /** `FeedDataDTO.toDomain()`: the user is mapped when present. */
  function DataToDomain(d: FeedDataDTO): (r: Feed)
    ensures r.id == d.id && r.title == d.title && r.datetime == d.datetime
    ensures r.images == ImagesToDomain(d.images)
    ensures r.images == FeedImages(FeedImageMetadata(d.images.original.height, d.images.original.width, d.images.original.url),
                                   FeedImageMetadata(d.images.small.height, d.images.small.width, d.images.small.url))
    ensures r.user.Some? <==> d.user.Some?
    ensures d.user.Some? ==> r.user == Some(FeedUser(d.user.value.username, d.user.value.displayName))
  {
    Feed(d.id, d.title, d.datetime, ImagesToDomain(d.images), if d.user.Some? then Some(UserToDomain(d.user.value)) else None)
  }

  /** `data.map { $0.toDomain() }`. */
  function DataListToDomain(ds: seq<FeedDataDTO>): (r: seq<Feed>)
    ensures |r| == |ds|
    ensures forall i :: 0 <= i < |ds| ==> r[i] == DataToDomain(ds[i])
  {
    if ds == [] then [] else [DataToDomain(ds[0])] + DataListToDomain(ds[1..])
  }

  /** `FeedResponseDTO.toDomain()`. */
  function ResponseToDomain(dto: FeedResponseDTO): (r: FeedPage)
    ensures r.totalCount == dto.pagination.totalCount
    ensures r.count == dto.pagination.count
    ensures r.offset == dto.pagination.offset
    ensures |r.giphy| == |dto.data|
    ensures forall i :: 0 <= i < |dto.data| ==> r.giphy[i] == DataToDomain(dto.data[i])
  {
    FeedPage(dto.pagination.totalCount, dto.pagination.count, dto.pagination.offset, DataListToDomain(dto.data))
  }

  /** Distinct DTOs map to distinct feeds. */
  lemma DataToDomainInjective(a: FeedDataDTO, b: FeedDataDTO)
    requires DataToDomain(a) == DataToDomain(b)
    ensures a == b
  {
  }

  /** The page mapping loses nothing either: equal pages come from equal
      responses, item by item and in order. */
  lemma ResponseToDomainInjective(a: FeedResponseDTO, b: FeedResponseDTO)
    requires ResponseToDomain(a) == ResponseToDomain(b)
    ensures a == b
  {
  }
}
