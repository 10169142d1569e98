/** Infrastructure/Network/Endpoint.swift and NetworkConfigurable.swift: the
    description of one HTTP request and how it becomes a `URLRequest`.
    Foundation's URL parsing (`URLComponents(string:)` and `components.url`) is
    foreign code; it enters as the `UrlParser` parameter. */
module Endpoints {
  import opened Wrappers
  import opened Errors

  /** `HTTPMethodType`, a String-backed enum. */
  datatype HTTPMethodType = Get | Post | Put | Delete
  {
    /** The enum's raw value. */
    function RawValue(): string
    {
      match this
      case Get => "GET"
      case Post => "POST"
      case Put => "PUT"
      case Delete => "DELETE"
    }
  }

  /** `HTTPMethodType(rawValue:)`, the failable initialiser Swift derives. */
  function MethodForRawValue(s: string): (r: Option<HTTPMethodType>)
  {
    if s == "GET" then Some(Get)
    else if s == "POST" then Some(Post)
    else if s == "PUT" then Some(Put)
    else if s == "DELETE" then Some(Delete)
    else None
  }

  /** The raw values are the four method names and name the four methods one to one. */
  lemma {:induction false} RawValueRoundTrip(m: HTTPMethodType, s: string)
    ensures MethodForRawValue(m.RawValue()) == Some(m)
    ensures MethodForRawValue(s) == Some(m) ==> m.RawValue() == s
    ensures MethodForRawValue(s).Some? <==> s in {"GET", "POST", "PUT", "DELETE"}
  {
  }

  /** A value of the `[String: Any]` parameter map: the repositories store an
      `Int` (the limit) and a `String` (the rating). */
  datatype ParamValue = IntValue(i: int) | StringValue(s: string)

  /** Which `ResponseDecoder` an endpoint carries. `RawDataDecoder` is
      `RawDataResponseDecoder`; `JsonDecoder` is the JSON decoder used when the
      caller names none. */
  datatype DecoderKind = JsonDecoder | RawDataDecoder

  /** `Endpoint<R>`: immutable once built; the query parameters default to the
      empty map. `isFullPath` is the flag GifDataRepositoryLoader passes; nothing
      in `url(with:)` reads it. */
  datatype Endpoint = Endpoint(
    path: string,
    httpMethod: HTTPMethodType,
    queryParameters: map<string, ParamValue> := map[],
    responseDecoder: DecoderKind := JsonDecoder,
    isFullPath: bool := false)

  /** `Endpoint.init` stores what it is given; without parameters the map is empty. */
  lemma EndpointInitDefaults(path: string, m: HTTPMethodType, params: map<string, ParamValue>, decoder: DecoderKind)
    ensures Endpoint(path, m).queryParameters == map[]
    ensures var e := Endpoint(path, m, params, decoder);
      e.path == path && e.httpMethod == m && e.queryParameters == params && e.responseDecoder == decoder
  {
  }

  /** `NetworkConfigurable`: a base URL (its absolute string), default headers
      and default query parameters. */
  datatype NetworkConfig = NetworkConfig(baseURL: string, headers: map<string, string>, queryParameters: map<string, string>)

  /** Foundation's two URL-forming steps: does `URLComponents(string:)` accept
      this string, and does `components.url` form a URL once the query items
      (`nil` when there are none) are set. */
  datatype UrlParser = UrlParser(componentsAccept: string -> bool, urlForms: (string, Option<map<string, string>>) -> bool)

  /** A `URLQueryItem`. */
  datatype QueryItem = QueryItem(name: string, value: string)

  /** A formed URL: the address and its query items (as a map: Swift's dictionary
      order, and so the items' order, is unspecified). */
  datatype RequestUrl = RequestUrl(address: string, query: Option<map<string, string>>)

  /** A `URLRequest` as far as the core sets it up. */
  datatype UrlRequest = UrlRequest(url: RequestUrl, httpMethod: string, headers: map<string, string>)

  /** `URLRequest(url:)` starts with this method, and `urlRequest(with:)` never changes it. */
  const DefaultHttpMethod: string := "GET"

  /** Drops one leading '/'. */
  function DropLeadingSlash(path: string): (r: string)
    ensures |r| <= |path|
  {
    if |path| > 0 && path[0] == '/' then path[1..] else path
  }

  /** `baseURL.appending(path:)`: joins base and path with exactly one '/'. */
  function AppendPath(base: string, path: string): (r: string)
    ensures path == [] ==> r == base
    ensures path != [] && |base| > 0 && base[|base| - 1] == '/' ==> r == base + DropLeadingSlash(path)
    ensures path != [] && !(|base| > 0 && base[|base| - 1] == '/') ==> r == base + "/" + DropLeadingSlash(path)
  {
    if path == [] then base
    else if |base| > 0 && base[|base| - 1] == '/' then base + DropLeadingSlash(path)
    else if path[0] == '/' then base + path
    else base + "/" + path
  }

  /** The map the query items stand for. */
  function ItemsMap(items: seq<QueryItem>): map<string, string>
  {
    if items == [] then map[]
    else ItemsMap(items[..|items| - 1])[items[|items| - 1].name := items[|items| - 1].value]
  }

  /** No two query items share a name. */
  predicate DistinctNames(items: seq<QueryItem>)
  {
    forall i, j :: 0 <= i < j < |items| ==> items[i].name != items[j].name
  }

  /** Appending an item adds (or overrides) its name in the map. */
  lemma ItemsMapSnoc(items: seq<QueryItem>, q: QueryItem)
    ensures ItemsMap(items + [q]) == ItemsMap(items)[q.name := q.value]
  {
    assert (items + [q])[..|items + [q]| - 1] == items;
  }

  /** The query items of `url(with:)` (lines 46-50): one `URLQueryItem` per
      configuration parameter, appended while iterating the dictionary. */
  method QueryItems(params: map<string, string>) returns (items: seq<QueryItem>)
    ensures DistinctNames(items)
    ensures ItemsMap(items) == params
    ensures |items| == |params|
  {
    items := [];
    var remaining := params.Keys;
    while remaining != {}
      invariant remaining <= params.Keys
      invariant DistinctNames(items)
      invariant forall i :: 0 <= i < |items| ==> items[i].name !in remaining
      invariant ItemsMap(items) == params - remaining
      invariant |items| + |remaining| == |params.Keys|
      decreases |remaining|
    {
      var k :| k in remaining;
      ItemsMapSnoc(items, QueryItem(k, params[k]));
      assert params - (remaining - {k}) == (params - remaining)[k := params[k]];
      items := items + [QueryItem(k, params[k])];
      remaining := remaining - {k};
    }
    assert params - remaining == params;
  }

  /** The query that `url(with:)` attaches: exactly the configuration's
      parameters, or none at all when there are none. The endpoint's own
      `queryParameters` are not read. */
  function ConfigQuery(config: NetworkConfig): (q: Option<map<string, string>>)
    ensures q.None? <==> |config.queryParameters| == 0
    ensures q.Some? ==> q.value == config.queryParameters
  {
    if |config.queryParameters| == 0 then None else Some(config.queryParameters)
  }

  /** `url(with:)` as a value: base URL with the path appended, the configuration's
      query items, and `RequestGenerationError.components` when Foundation cannot
      form the components or the final URL. */
  function UrlFor(config: NetworkConfig, e: Endpoint, parser: UrlParser): (r: Result<RequestUrl, Error>)
    ensures r.Failure? ==> r.error == RequestGenerationFailure
    ensures r.Success? <==>
      parser.componentsAccept(AppendPath(config.baseURL, e.path))
      && parser.urlForms(AppendPath(config.baseURL, e.path), ConfigQuery(config))
    ensures r.Success? ==> r.value.address == AppendPath(config.baseURL, e.path)
    ensures r.Success? ==> (r.value.query.None? <==> |config.queryParameters| == 0)
    ensures r.Success? && r.value.query.Some? ==> r.value.query.value == config.queryParameters
  {
    var address := AppendPath(config.baseURL, e.path);
    if !parser.componentsAccept(address) then Failure(RequestGenerationFailure)
    else if !parser.urlForms(address, ConfigQuery(config)) then Failure(RequestGenerationFailure)
    else Success(RequestUrl(address, ConfigQuery(config)))
  }

  /** `url(with:)`, building the query items one by one. */
  method Url(config: NetworkConfig, e: Endpoint, parser: UrlParser) returns (r: Result<RequestUrl, Error>)
    ensures r == UrlFor(config, e, parser)
  {
    var address := AppendPath(config.baseURL, e.path);
    if !parser.componentsAccept(address) {
      return Failure(RequestGenerationFailure);
    }
    var items := QueryItems(config.queryParameters);
    var query := if items == [] then None else Some(ItemsMap(items));
    if !parser.urlForms(address, query) {
      return Failure(RequestGenerationFailure);
    }
    r := Success(RequestUrl(address, query));
  }

  /** `urlRequest(with:)` as a value: the URL, the configuration's headers, and
      the method `URLRequest` starts with. */
  function UrlRequestFor(config: NetworkConfig, e: Endpoint, parser: UrlParser): (r: Result<UrlRequest, Error>)
    ensures r.Failure? <==> UrlFor(config, e, parser).Failure?
    ensures r.Failure? ==> r.error == RequestGenerationFailure
    ensures r.Success? ==> r.value.url == UrlFor(config, e, parser).value
    ensures r.Success? ==> r.value.headers == config.headers
    ensures r.Success? ==> r.value.httpMethod == "GET"
  {
    match UrlFor(config, e, parser)
    case Failure(err) => Failure(err)
    case Success(url) => Success(UrlRequest(url, DefaultHttpMethod, config.headers))
  }

  /** `urlRequest(with:)`: sets the configuration's headers one at a time. */
  method BuildUrlRequest(config: NetworkConfig, e: Endpoint, parser: UrlParser) returns (r: Result<UrlRequest, Error>)
    ensures r == UrlRequestFor(config, e, parser)
  {
    var url := Url(config, e, parser);
    if url.Failure? {
      return Failure(url.error);
    }
    var headers: map<string, string> := map[];
    var remaining := config.headers.Keys;
    while remaining != {}
      invariant remaining <= config.headers.Keys
      invariant headers == map k | k in config.headers.Keys - remaining :: config.headers[k]
      decreases |remaining|
    {
      var field :| field in remaining;
      headers := headers[field := config.headers[field]];
      remaining := remaining - {field};
    }
    assert config.headers.Keys - remaining == config.headers.Keys;
    assert headers == config.headers;
    r := Success(UrlRequest(url.value, DefaultHttpMethod, headers));
  }

  /** Neither the endpoint's `queryParameters`, nor its HTTP method, nor its decoder,
      nor `isFullPath` changes the request: only the path and the configuration do. */
  lemma RequestDependsOnlyOnPath(config: NetworkConfig, e1: Endpoint, e2: Endpoint, parser: UrlParser)
    requires e1.path == e2.path
    ensures UrlRequestFor(config, e1, parser) == UrlRequestFor(config, e2, parser)
  {
  }
}
