/** Data/DataMapping/GiphyResponseDTO+Mapping.swift: the earlier wire shape of a
    trending page (no user; the date comes from "import_datetime") and its
    mapping to the `Giphy` domain values. */
module GiphyResponseMapping {
  import opened Wrappers
  import opened Entities

  datatype GiphyImageMetadataDTO = GiphyImageMetadataDTO(height: string, width: string, url: string)

  datatype GiphyImagesDTO = GiphyImagesDTO(original: GiphyImageMetadataDTO, small: GiphyImageMetadataDTO)

  datatype GiphyDataDTO = GiphyDataDTO(id: string, title: string, datetime: string, images: GiphyImagesDTO)

  datatype PaginationDTO = PaginationDTO(totalCount: int, count: int, offset: int)

  datatype GiphyResponseDTO = GiphyResponseDTO(data: seq<GiphyDataDTO>, pagination: PaginationDTO)

  // Coding keys

  /** `GiphyDataDTO.CodingKeys`: there is no user key. */
  datatype DataKey = IdKey | TitleKey | DatetimeKey | ImagesKey
  {
    function StringValue(): string
    {
      match this
      case IdKey => "id"
      case TitleKey => "title"
      case DatetimeKey => "import_datetime"
      case ImagesKey => "images"
    }
  }

  function DataKeyFor(s: string): Option<DataKey>
  {
    if s == "id" then Some(IdKey)
    else if s == "title" then Some(TitleKey)
    else if s == "import_datetime" then Some(DatetimeKey)
    else if s == "images" then Some(ImagesKey)
    else None
  }

  /** `GiphyImagesDTO.CodingKeys`. */
  datatype ImagesKey = OriginalKey | SmallKey
  {
    function StringValue(): string
    {
      match this
      case OriginalKey => "original"
      case SmallKey => "fixed_width_small"
    }
  }

  function ImagesKeyFor(s: string): Option<ImagesKey>
  {
    if s == "original" then Some(OriginalKey)
    else if s == "fixed_width_small" then Some(SmallKey)
    else None
  }

  /** `PaginationDTO.CodingKeys`. */
  datatype PaginationKey = TotalCountKey | CountKey | OffsetKey
  {
    function StringValue(): string
    {
      match this
      case TotalCountKey => "total_count"
      case CountKey => "count"
      case OffsetKey => "offset"
    }
  }

  function PaginationKeyFor(s: string): Option<PaginationKey>
  {
    if s == "total_count" then Some(TotalCountKey)
    else if s == "count" then Some(CountKey)
    else if s == "offset" then Some(OffsetKey)
    else None
  }

  /** Each key table reads back in both directions; "user" is not a key of an item. */
  lemma CodingKeysRoundTrip(d: DataKey, i: ImagesKey, p: PaginationKey, s: string)
    ensures DataKeyFor(d.StringValue()) == Some(d) && (DataKeyFor(s) == Some(d) ==> d.StringValue() == s)
    ensures ImagesKeyFor(i.StringValue()) == Some(i) && (ImagesKeyFor(s) == Some(i) ==> i.StringValue() == s)
    ensures PaginationKeyFor(p.StringValue()) == Some(p) && (PaginationKeyFor(s) == Some(p) ==> p.StringValue() == s)
    ensures DataKeyFor("user") == None
  {
  }

  // Mappings to the domain

  /** `GiphyImageMetadataDTO.toDomain()`: each field into its namesake. */
  function ImageMetadataToDomain(d: GiphyImageMetadataDTO): (r: GiphyImageMetadata)
    ensures r.height == d.height && r.width == d.width && r.url == d.url
  {
    GiphyImageMetadata(d.height, d.width, d.url)
  }

  /** `GiphyImagesDTO.toDomain()`: original to original, small to small. */
  function ImagesToDomain(d: GiphyImagesDTO): (r: GiphyImages)
    ensures r.original == ImageMetadataToDomain(d.original) && r.small == ImageMetadataToDomain(d.small)
    ensures r.original.height == d.original.height && r.original.width == d.original.width && r.original.url == d.original.url
    ensures r.small.height == d.small.height && r.small.width == d.small.width && r.small.url == d.small.url
  {
    GiphyImages(ImageMetadataToDomain(d.original), ImageMetadataToDomain(d.small))
  }

  /** `GiphyDataDTO.toDomain()`. */
  function DataToDomain(d: GiphyDataDTO): (r: Giphy)
    ensures r.id == d.id && r.title == d.title && r.datetime == d.datetime
    ensures r.images == ImagesToDomain(d.images)
    ensures r.images == GiphyImages(GiphyImageMetadata(d.images.original.height, d.images.original.width, d.images.original.url),
                                    GiphyImageMetadata(d.images.small.height, d.images.small.width, d.images.small.url))
  {
    Giphy(d.id, d.title, d.datetime, ImagesToDomain(d.images))
  }

  /** `data.map { $0.toDomain() }`. */
  function DataListToDomain(ds: seq<GiphyDataDTO>): (r: seq<Giphy>)
    ensures |r| == |ds|
    ensures forall i :: 0 <= i < |ds| ==> r[i] == DataToDomain(ds[i])
  {
    if ds == [] then [] else [DataToDomain(ds[0])] + DataListToDomain(ds[1..])
  }

  /** `GiphyResponseDTO.toDomain()`. */
  function ResponseToDomain(dto: GiphyResponseDTO): (r: GiphyPage)
    ensures r.totalCount == dto.pagination.totalCount
    ensures r.count == dto.pagination.count
    ensures r.offset == dto.pagination.offset
    ensures |r.giphy| == |dto.data|
    ensures forall i :: 0 <= i < |dto.data| ==> r.giphy[i] == DataToDomain(dto.data[i])
  {
    GiphyPage(dto.pagination.totalCount, dto.pagination.count, dto.pagination.offset, DataListToDomain(dto.data))
  }

  /** Nothing is lost by the page mapping: equal pages come from equal responses. */
  lemma ResponseToDomainInjective(a: GiphyResponseDTO, b: GiphyResponseDTO)
    requires ResponseToDomain(a) == ResponseToDomain(b)
    ensures a == b
  {
  }
}
