/**
 * nakari/search/providers.py: the Serper provider. HTTP is an oracle
 * (`Transport`) from the request to its outcome; everything around it is
 * modelled: endpoint, payload, URL, status and exception classification,
 * and the conversion of the response body.
 */
module SearchProviders {
  import opened Wrappers
  import opened PyValue
  import opened SearchTypes
  import opened SearchErrors

  const DEFAULT_BASE_URL: string := "https://google.serper.dev"
  const DEFAULT_TIMEOUT: int := 20
  const PROVIDER_NAME: string := "serper"

  datatype SerperProvider = SerperProvider(apiKey: string, baseUrl: string, timeout: int)

  /** `SerperProvider(api_key, base_url=None, timeout=20)`: an empty or
      missing base URL falls back to the default. */
  function NewSerperProvider(apiKey: string, baseUrl: Option<string> := None,
                             timeout: int := DEFAULT_TIMEOUT): (p: SerperProvider)
    ensures p.apiKey == apiKey && p.timeout == timeout
    ensures baseUrl.Some? && baseUrl.value != "" ==> p.baseUrl == baseUrl.value
    ensures (baseUrl.None? || baseUrl.value == "") ==> p.baseUrl == DEFAULT_BASE_URL
  {
    SerperProvider(apiKey, if baseUrl.Some? && baseUrl.value != "" then baseUrl.value else DEFAULT_BASE_URL, timeout)
  }

  const ENDPOINTS: map<string, string> :=
    map["search" := "/search", "news" := "/news", "images" := "/images", "videos" := "/videos"]
  const RESULT_KEYS: map<string, string> :=
    map["search" := "organic", "news" := "news", "images" := "images", "videos" := "videos"]

  /** `table.get(t, default)`; an unhashable `t` raises TypeError. */
  function TableGet(table: map<string, string>, t: Json, default: string): (r: Result<string, string>)
    ensures !Hashable(t) <==> r.Err?
    ensures r.Err? ==> r.error == Unhashable(t)
    ensures r.Ok? ==> r.value == (if t.Str? && t.s in table then table[t.s] else default)
  {
    if !Hashable(t) then Err(Unhashable(t))
    else if t.Str? && t.s in table then Ok(table[t.s])
    else Ok(default)
  }

  function Endpoint(t: Json): Result<string, string>
  {
    TableGet(ENDPOINTS, t, "/search")
  }

  function ResultKey(t: Json): Result<string, string>
  {
    TableGet(RESULT_KEYS, t, "organic")
  }

  /** Each search type has its own endpoint, `"/" + type`; every other
      hashable value falls back to `/search`. The result key is the type
      name, except `organic` for plain search and for the fallback. */
  lemma EndpointTable(t: Json)
    requires Hashable(t)
    ensures t.Str? && t.s in SEARCH_TYPES ==> Endpoint(t) == Ok("/" + t.s)
    ensures !(t.Str? && t.s in SEARCH_TYPES) ==> Endpoint(t) == Ok("/search") && ResultKey(t) == Ok("organic")
    ensures t.Str? && t.s in SEARCH_TYPES ==>
              ResultKey(t) == Ok(if t.s == "search" then "organic" else t.s)
  {
    if t == Str("search") {
      assert "/" + t.s == "/search";
    } else if t == Str("news") {
      assert "/" + t.s == "/news";
    } else if t == Str("images") {
      assert "/" + t.s == "/images";
    } else if t == Str("videos") {
      assert "/" + t.s == "/videos";
    } else {
      assert !(t.Str? && t.s in SEARCH_TYPES);
      assert !(t.Str? && t.s in ENDPOINTS) && !(t.Str? && t.s in RESULT_KEYS);
    }
  }

  /** `if opts.language:` on an optional string. */
  predicate Present(o: Option<string>)
  {
    o.Some? && o.value != ""
  }

  /** The request body: always the query, and each optional field only
      when it is truthy. */
  function Payload(query: Value, opts: SearchOptions): (r: map<string, Value>)
    ensures "q" in r && r["q"] == query
    ensures ("num" in r <==> Truthy(opts.numResults)) && ("num" in r ==> r["num"] == opts.numResults)
    ensures ("hl" in r <==> Present(opts.language)) && ("hl" in r ==> r["hl"] == Str(opts.language.value))
    ensures ("gl" in r <==> Present(opts.region)) && ("gl" in r ==> r["gl"] == Str(opts.region.value))
    ensures r.Keys <= {"q", "num", "hl", "gl"}
  {
    var withQuery := map["q" := query];
    var withNum := if Truthy(opts.numResults) then withQuery["num" := opts.numResults] else withQuery;
    var withLanguage := if Present(opts.language) then withNum["hl" := Str(opts.language.value)] else withNum;
    if Present(opts.region) then withLanguage["gl" := Str(opts.region.value)] else withLanguage
  }

  function Headers(p: SerperProvider): map<string, string>
  {
    map["X-API-KEY" := p.apiKey, "Content-Type" := "application/json"]
  }

  datatype HttpRequest = HttpRequest(url: string, payload: map<string, Value>, headers: map<string, string>)

  /** `response.json()`: the decoded body, or the decoder's error text. */
  datatype JsonBody = Decoded(value: Json) | Undecodable(message: string)

  /** What `client.post(...)` does: answer, time out (`httpx.TimeoutException`),
      fail in transport (`httpx.RequestError`), or raise something else. */
  datatype HttpOutcome =
    | Response(status: int, text: string, body: JsonBody)
    | TimedOut
    | RequestFailed(message: string)
    | PostFailed(message: string)

  type Transport = HttpRequest -> HttpOutcome

  /** How `search` ends when it does not return: a `SearchError`, or an
      exception raised before the `try` (an unhashable search type), which
      leaves it untouched. */
  datatype SearchFailure = Raised(error: ErrorValue) | Escaped(message: string)
  {
    /** `str(e)`. */
    function Text(): string
    {
      match this
      case Raised(e) => e.message
      case Escaped(m) => m
    }
  }

  /** The request `search` posts, or the TypeError that stops it first. */
  function RequestOf(p: SerperProvider, query: Value, options: Option<SearchOptions>): (r: Result<HttpRequest, string>)
    ensures var opts := options.GetOr(DefaultOptions());
      && (r.Ok? <==> Hashable(opts.searchType))
      && (r.Ok? ==> r.value == HttpRequest(p.baseUrl + Endpoint(opts.searchType).value, Payload(query, opts), Headers(p)))
  {
    var opts := options.GetOr(DefaultOptions());
    match Endpoint(opts.searchType)
    case Err(e) => Err(e)
    case Ok(endpoint) => Ok(HttpRequest(p.baseUrl + endpoint, Payload(query, opts), Headers(p)))
  }

  function StatusContext(status: int): map<string, Value>
  {
    map["status_code" := Int(status)]
  }

  /** The error an HTTP status raises, if any: 401 and 403 first, then 429,
      then every other status of 400 or more. */
  function StatusError(status: int, text: string): (r: Option<ErrorValue>)
    ensures r.None? <==> status < 400
    ensures status == 401 || status == 403 ==>
              r == Some(ErrorValue(Auth, "Authentication failed: " + text, AUTH_ERROR, Some(StatusContext(status))))
    ensures status == 429 ==>
              r == Some(ErrorValue(RateLimit, "Rate limit exceeded: " + text, RATE_LIMIT_ERROR, Some(StatusContext(status))))
    ensures status >= 400 && status != 401 && status != 403 && status != 429 ==>
              r == Some(ErrorValue(Base, "Search failed: " + text, HTTP_ERROR, Some(StatusContext(status))))
  {
    if status == 401 || status == 403 then
      Some(ErrorValue(Auth, "Authentication failed: " + text, AUTH_ERROR, Some(StatusContext(status))))
    else if status == 429 then
      Some(ErrorValue(RateLimit, "Rate limit exceeded: " + text, RATE_LIMIT_ERROR, Some(StatusContext(status))))
    else if status >= 400 then
      Some(ErrorValue(Base, "Search failed: " + text, HTTP_ERROR, Some(StatusContext(status))))
    else None
  }

  function TimeoutError(p: SerperProvider): ErrorValue
  {
    ErrorValue(Base, "Request timed out", TIMEOUT_ERROR, Some(map["timeout" := Int(p.timeout)]))
  }

  function TransportError(message: string): ErrorValue
  {
    ErrorValue(Base, "Request failed: " + message, REQUEST_ERROR, Some(map["error" := Str(message)]))
  }

  function UnexpectedError(message: string): ErrorValue
  {
    ErrorValue(Base, "Unexpected error: " + message, UNKNOWN_ERROR, Some(map["error" := Str(message)]))
  }

  /** The fields of one converted hit: title, link and snippet always, and
      the ones its search type adds. */
  function ExtraKeys(t: Json): set<string>
  {
    if t == Str("news") then {"date", "siteName"}
    else if t == Str("images") || t == Str("videos") then {"thumbnailUrl"}
    else {}
  }

  /** One raw hit as `_convert_response` rewrites it. */
  function ConvertItem(item: map<string, Value>, t: Json): map<string, Value>
  {
    var base := map["title" := Get(item, "title", Str("")), "link" := Get(item, "link", Str("")),
                    "snippet" := Get(item, "snippet", Str(""))];
    if t == Str("news") then base["date" := Get(item, "date", Null)]["siteName" := Get(item, "source", Null)]
    else if t == Str("images") then base["thumbnailUrl" := Get(item, "imageUrl", Null)]
    else if t == Str("videos") then base["thumbnailUrl" := Get(item, "thumbnail", Null)]
    else base
  }

  /** A converted hit has title, link and snippet (empty string when
      missing) and the fields of its search type (`None` when missing),
      `siteName` read from `source` and `thumbnailUrl` from `imageUrl` or
      `thumbnail`; nothing else. */
  lemma ConvertItemFields(item: map<string, Value>, t: Json)
    ensures var r := ConvertItem(item, t);
      && r.Keys == {"title", "link", "snippet"} + ExtraKeys(t)
      && r["title"] == Get(item, "title", Str("")) && r["link"] == Get(item, "link", Str(""))
      && r["snippet"] == Get(item, "snippet", Str(""))
      && (t == Str("news") ==> r["date"] == Get(item, "date", Null) && r["siteName"] == Get(item, "source", Null))
      && (t == Str("images") ==> r["thumbnailUrl"] == Get(item, "imageUrl", Null))
      && (t == Str("videos") ==> r["thumbnailUrl"] == Get(item, "thumbnail", Null))
  {
  }

  /** The raw hits `_convert_response` reads: `data.get(key, [])`. */
  function RawHits(data: map<string, Json>, key: string): Json
  {
    if key in data then data[key] else List([])
  }

  /** `_convert_response` as a value: one converted hit per raw hit, in
      order, or what the first failing step raises. */
  function ConvertedResults(data: Json, t: Json): (r: Result<seq<map<string, Value>>, string>)
    ensures r.Ok? ==> Hashable(t) && data.Dict?
    ensures r.Ok? ==> forall i :: 0 <= i < |r.value| ==> r.value[i].Keys == {"title", "link", "snippet"} + ExtraKeys(t)
  {
    match ResultKey(t)
    case Err(e) => Err(e)
    case Ok(key) =>
      if !data.Dict? then Err(NoAttribute(TypeName(data), "get"))
      else ConvertAll(DictItems(RawHits(data.entries, key)), t)
  }

  /** The list comprehension over the raw hits, once they are known to be
      dicts (or the error of the first that is not). */
  function ConvertAll(items: Result<seq<map<string, Json>>, string>, t: Json): Result<seq<map<string, Value>>, string>
  {
    match items
    case Err(e) => Err(e)
    case Ok(hits) => Ok(seq(|hits|, i requires 0 <= i < |hits| => ConvertItem(hits[i], t)))
  }

  /** The checks `_convert_response` makes, in order: a hashable type, a
      dict body, then every raw hit a dict; on success one converted hit per
      raw hit, in order. */
  lemma ConvertedResultsShape(data: Json, t: Json)
    ensures var r := ConvertedResults(data, t);
      && (!Hashable(t) ==> r == Err(Unhashable(t)))
      && (Hashable(t) && !data.Dict? ==> r == Err(NoAttribute(TypeName(data), "get")))
      && (Hashable(t) && data.Dict? ==>
            var items := DictItems(RawHits(data.entries, ResultKey(t).value));
            && (r.Ok? <==> items.Ok?)
            && (r.Err? ==> r.error == items.error)
            && (r.Ok? ==> |r.value| == |items.value| &&
                          forall i :: 0 <= i < |items.value| ==> r.value[i] == ConvertItem(items.value[i], t)))
  {
  }

  /** `data.get("searchInformation", {}).get("totalResults")`. */
  function TotalResults(data: map<string, Json>): (r: Result<Value, string>)
    ensures r.Ok? <==> "searchInformation" !in data || data["searchInformation"].Dict?
    ensures r.Ok? && "searchInformation" !in data ==> r.value == Null
    ensures r.Ok? && "searchInformation" in data ==> r.value == Get(data["searchInformation"].entries, "totalResults", Null)
  {
    var info: Json := if "searchInformation" in data then data["searchInformation"] else Dict(map[]);
    if info.Dict? then Ok(Get(info.entries, "totalResults", Null))
    else Err(NoAttribute(TypeName(info), "get"))
  }

  /** What `search` makes of the transport's outcome: the error each
      failure raises, and on success one raw dict per converted hit. */
  function Outcome(p: SerperProvider, query: Value, t: Json, response: HttpOutcome)
    : (r: Result<SearchResponse, SearchFailure>)
    ensures r.Err? ==> r.error.Raised?
    ensures r.Ok? ==> response.Response? && response.status < 400 && response.body.Decoded? && r.value.query == query
  {
    match response
    case TimedOut => Err(Raised(TimeoutError(p)))
    case RequestFailed(m) => Err(Raised(TransportError(m)))
    case PostFailed(m) => Err(Raised(UnexpectedError(m)))
    case Response(status, text, body) =>
      match StatusError(status, text)
      case Some(e) => Err(Raised(e))
      case None => BodyOutcome(query, t, body)
  }

  /** A status below 400: decode the body and convert it. */
  function BodyOutcome(query: Value, t: Json, body: JsonBody): Result<SearchResponse, SearchFailure>
  {
    match body
    case Undecodable(m) => Err(Raised(UnexpectedError(m)))
    case Decoded(data) =>
      match ConvertedResults(data, t)
      case Err(m) => Err(Raised(UnexpectedError(m)))
      case Ok(results) =>
        assert data.Dict?;
        match TotalResults(data.entries)
        case Err(m) => Err(Raised(UnexpectedError(m)))
        case Ok(total) =>
          Ok(SearchResponse(
            results := seq(|results|, i requires 0 <= i < |results| => RawDict(results[i])),
            totalResults := total,
            query := query))
  }

  /** The error each failure raises, and the shape of a success. */
  lemma OutcomeClassification(p: SerperProvider, query: Value, t: Json, response: HttpOutcome)
    ensures var r := Outcome(p, query, t, response);
      && (response.TimedOut? ==> r == Err(Raised(TimeoutError(p))))
      && (response.RequestFailed? ==> r == Err(Raised(TransportError(response.message))))
      && (response.PostFailed? ==> r == Err(Raised(UnexpectedError(response.message))))
      && (response.Response? && StatusError(response.status, response.text).Some? ==>
            r == Err(Raised(StatusError(response.status, response.text).value)))
      && (response.Response? && response.status < 400 && response.body.Undecodable? ==>
            r == Err(Raised(UnexpectedError(response.body.message))))
      && (r.Ok? ==> response.Response? && response.status < 400 && response.body.Decoded? &&
                    r.value.query == query && r.value.metadata == Null &&
                    forall i :: 0 <= i < |r.value.results| ==> r.value.results[i].RawDict?)
      && (r.Err? ==> (r.error.Raised? && r.error.error.code in
            {AUTH_ERROR, RATE_LIMIT_ERROR, HTTP_ERROR, TIMEOUT_ERROR, REQUEST_ERROR, UNKNOWN_ERROR}))
  {
  }

  /** `SerperProvider.search` as a value: only an unhashable search type
      escapes as something other than a `SearchError`, and then nothing is
      posted. */
  function SearchSpec(p: SerperProvider, query: Value, options: Option<SearchOptions>, http: Transport)
    : (r: Result<SearchResponse, SearchFailure>)
    ensures var t := options.GetOr(DefaultOptions()).searchType;
      && (r.Err? && r.error.Escaped? <==> !Hashable(t))
      && (!Hashable(t) ==> r.error.message == Unhashable(t))
  {
    match RequestOf(p, query, options)
    case Err(e) => Err(Escaped(e))
    case Ok(request) => Outcome(p, query, options.GetOr(DefaultOptions()).searchType, http(request))
  }

  /** On a well-formed answer, one raw dict per hit, in order, and the total
      from `searchInformation` (or `None`). */
  lemma SearchSuccess(p: SerperProvider, query: Value, t: Json, status: int, text: string,
                      hits: seq<map<string, Json>>, data: map<string, Json>)
    requires Hashable(t) && status < 400
    requires RawHits(data, ResultKey(t).value) == List(seq(|hits|, i requires 0 <= i < |hits| => Dict(hits[i])))
    requires "searchInformation" !in data || data["searchInformation"].Dict?
    ensures var r := Outcome(p, query, t, Response(status, text, Decoded(Dict(data))));
            && r.Ok? && r.value.query == query && |r.value.results| == |hits|
            && (forall i :: 0 <= i < |hits| ==> r.value.results[i] == RawDict(ConvertItem(hits[i], t)))
            && ("searchInformation" !in data ==> r.value.totalResults == Null)
            && ("searchInformation" in data ==>
                  r.value.totalResults == Get(data["searchInformation"].entries, "totalResults", Null))
  {
    var xs := seq(|hits|, i requires 0 <= i < |hits| => Dict(hits[i]));
    assert forall i :: 0 <= i < |xs| ==> xs[i].Dict? && xs[i].entries == hits[i];
    assert DictItems(List(xs)).value == hits;
  }

  /** Reading a converted hit back with `SearchResult.from_dict` recovers
      every field `_convert_response` wrote: both sides use the same
      camelCase keys. */
  lemma ConvertedHitReadsBack(item: map<string, Value>, t: Json)
    ensures var r := SearchResultFromDict(ConvertItem(item, t));
      && r.title == Get(item, "title", Str("")) && r.link == Get(item, "link", Str(""))
      && r.snippet == Get(item, "snippet", Str(""))
      && r.date == (if t == Str("news") then Get(item, "date", Null) else Null)
      && r.siteName == (if t == Str("news") then Get(item, "source", Null) else Null)
      && r.thumbnailUrl == (if t == Str("images") then Get(item, "imageUrl", Null)
                            else if t == Str("videos") then Get(item, "thumbnail", Null) else Null)
  {
  }

  /** One entry read back as a `SearchResult`: a raw dict through
      `from_dict`, an object as it is. */
  function ReadBack(e: ResultEntry): SearchResult
  {
    match e
    case RawDict(d) => SearchResultFromDict(d)
    case Object(o) => o
  }

  /** The conversion `search` evidently meant: each raw dict read back as a
      `SearchResult`, as `SearchResponse`'s declared field type says. */
  function AsSearchResults(resp: SearchResponse): (r: SearchResponse)
    ensures |r.results| == |resp.results| && r.query == resp.query && r.totalResults == resp.totalResults
    ensures forall i :: 0 <= i < |resp.results| ==> r.results[i] == Object(ReadBack(resp.results[i]))
  {
    resp.(results := seq(|resp.results|, i requires 0 <= i < |resp.results| => Object(ReadBack(resp.results[i]))))
  }

  /** `search` with the results converted to `SearchResult`s. */
  function SearchSpecCorrected(p: SerperProvider, query: Value, options: Option<SearchOptions>, http: Transport)
    : (r: Result<SearchResponse, SearchFailure>)
    ensures SearchSpec(p, query, options, http).Err? ==> r == SearchSpec(p, query, options, http)
    ensures r.Ok? <==> SearchSpec(p, query, options, http).Ok?
    ensures r.Ok? ==> r.value == AsSearchResults(SearchSpec(p, query, options, http).value)
    ensures r.Ok? ==> forall i :: 0 <= i < |r.value.results| ==> r.value.results[i].Object?
  {
    match SearchSpec(p, query, options, http)
    case Err(e) => Err(e)
    case Ok(resp) => Ok(AsSearchResults(resp))
  }

  /** The first non-dict in a list is the one `item.get` fails on. */
  lemma {:induction false} ListDictsFirstFailure(xs: seq<Json>, i: nat)
    requires i < |xs| && !xs[i].Dict?
    requires forall j :: 0 <= j < i ==> xs[j].Dict?
    ensures ListDicts(xs) == Err(NoAttribute(TypeName(xs[i]), "get"))
    decreases i
  {
    if i > 0 {
      ListDictsFirstFailure(xs[1..], i - 1);
    }
  }

  /** `_convert_response`: finds the raw hits, then converts them. */
  method ConvertResponse(data: Json, searchType: Json) returns (r: Result<seq<map<string, Value>>, string>)
    ensures r == ConvertedResults(data, searchType)
  {
    var key := ResultKey(searchType);
    if key.Err? {
      return Err(key.error);
    }
    if !data.Dict? {
      return Err(NoAttribute(TypeName(data), "get"));
    }
    var raw := RawHits(data.entries, key.value);
    if raw.List? {
      r := ConvertHits(raw.items, searchType);
    } else {
      // iterating a dict or a string yields strings; anything else is not iterable
      r := ConvertAll(DictItems(raw), searchType);
    }
  }

  /** The loop of `_convert_response`: appends one converted hit per raw
      hit, stopping at the first that is not a dict. */
  method ConvertHits(xs: seq<Json>, t: Json) returns (r: Result<seq<map<string, Value>>, string>)
    ensures r == ConvertAll(ListDicts(xs), t)
  {
    var results: seq<map<string, Value>> := [];
    var i := 0;
    while i < |xs|
      invariant 0 <= i <= |xs|
      invariant forall j :: 0 <= j < i ==> xs[j].Dict?
      invariant |results| == i
      invariant forall j :: 0 <= j < i ==> results[j] == ConvertItem(xs[j].entries, t)
    {
      if !xs[i].Dict? {
        ListDictsFirstFailure(xs, i);
        return Err(NoAttribute(TypeName(xs[i]), "get"));
      }
      results := results + [ConvertItem(xs[i].entries, t)];
      i := i + 1;
    }
    ConvertAllDicts(xs, t, results);
    r := Ok(results);
  }

  /** When every raw hit is a dict, the comprehension yields one converted
      hit per raw hit, in order. */
  lemma ConvertAllDicts(xs: seq<Json>, t: Json, results: seq<map<string, Value>>)
    requires forall j :: 0 <= j < |xs| ==> xs[j].Dict?
    requires |results| == |xs| && forall j :: 0 <= j < |xs| ==> results[j] == ConvertItem(xs[j].entries, t)
    ensures ConvertAll(ListDicts(xs), t) == Ok(results)
  {
    var hits := ListDicts(xs).value;
    var expected := seq(|hits|, j requires 0 <= j < |hits| => ConvertItem(hits[j], t));
    assert ConvertAll(ListDicts(xs), t) == Ok(expected);
    assert forall j :: 0 <= j < |xs| ==> expected[j] == ConvertItem(xs[j].entries, t);
    assert expected == results;
  }

  /** A raised exception: a `SearchError` object, or another exception. */
  datatype Thrown = ThrownError(error: SearchError) | ThrownOther(message: string)

  /** The value a thrown object stands for. */
  function Observe(r: Result<SearchResponse, Thrown>): Result<SearchResponse, SearchFailure>
    reads if r.Err? && r.error.ThrownError? then {r.error.error} else {}
  {
    match r
    case Ok(resp) => Ok(resp)
    case Err(ThrownError(e)) => Err(Raised(e.View()))
    case Err(ThrownOther(m)) => Err(Escaped(m))
  }

  /** `SerperProvider.search`: builds the payload field by field and posts
      it. */
  method Search(p: SerperProvider, query: Value, options: Option<SearchOptions>, http: Transport)
    returns (r: Result<SearchResponse, Thrown>)
    ensures r.Err? && r.error.ThrownError? ==> fresh(r.error.error)
    ensures Observe(r) == SearchSpec(p, query, options, http)
  {
    var opts := if options.Some? then options.value else SearchOptions();
    var endpoint := Endpoint(opts.searchType);
    if endpoint.Err? {
      return Err(ThrownOther(endpoint.error));
    }
    var payload := BuildPayload(query, opts);
    var request := HttpRequest(p.baseUrl + endpoint.value, payload, Headers(p));
    assert request == RequestOf(p, query, options).value;
    r := HandleOutcome(p, query, opts.searchType, http(request));
  }

  /** The payload, one optional field after another. */
  method BuildPayload(query: Value, opts: SearchOptions) returns (payload: map<string, Value>)
    ensures payload == Payload(query, opts)
  {
    payload := map["q" := query];
    if Truthy(opts.numResults) {
      payload := payload["num" := opts.numResults];
    }
    if Present(opts.language) {
      payload := payload["hl" := Str(opts.language.value)];
    }
    if Present(opts.region) {
      payload := payload["gl" := Str(opts.region.value)];
    }
  }

  /** The `try` body after the post, and its `except` clauses. */
  method HandleOutcome(p: SerperProvider, query: Value, t: Json, response: HttpOutcome)
    returns (r: Result<SearchResponse, Thrown>)
    ensures r.Err? ==> r.error.ThrownError? && fresh(r.error.error)
    ensures Observe(r) == Outcome(p, query, t, response)
  {
    if response.Response? {
      r := HandleResponse(query, t, response.status, response.text, response.body);
    } else {
      var e := TransportFailure(p, response);
      r := Err(ThrownError(e));
    }
  }

  /** The three `except` clauses around the post. */
  method TransportFailure(p: SerperProvider, response: HttpOutcome) returns (e: SearchError)
    requires !response.Response?
    ensures fresh(e) && Err(Raised(e.View())) == Outcome(p, Null, Null, response)
  {
    if response.TimedOut? {
      e := NewTimeout(p);
    } else if response.RequestFailed? {
      e := NewTransportError(response.message);
    } else {
      e := NewUnexpected(response.message);
    }
  }

  /** An answer: raise by status, otherwise decode and convert the body. */
  method HandleResponse(query: Value, t: Json, status: int, text: string, body: JsonBody)
    returns (r: Result<SearchResponse, Thrown>)
    ensures r.Err? ==> r.error.ThrownError? && fresh(r.error.error)
    ensures forall p :: Observe(r) == Outcome(p, query, t, Response(status, text, body))
  {
    var raised := RaiseForStatus(status, text);
    if raised.Some? {
      r := Err(ThrownError(raised.value));
    } else {
      r := HandleBody(query, t, body);
    }
  }

  /** Decoding the body of a successful answer. */
  method HandleBody(query: Value, t: Json, body: JsonBody) returns (r: Result<SearchResponse, Thrown>)
    ensures r.Err? ==> r.error.ThrownError? && fresh(r.error.error)
    ensures Observe(r) == BodyOutcome(query, t, body)
  {
    if body.Undecodable? {
      var e := NewUnexpected(body.message);
      r := Err(ThrownError(e));
    } else {
      r := HandleData(query, t, body.value);
    }
  }

  /** Converting the decoded body. */
  method HandleData(query: Value, t: Json, data: Json) returns (r: Result<SearchResponse, Thrown>)
    ensures r.Err? ==> r.error.ThrownError? && fresh(r.error.error)
    ensures Observe(r) == BodyOutcome(query, t, Decoded(data))
  {
    var results := ConvertResponse(data, t);
    if results.Err? {
      var e := NewUnexpected(results.error);
      return Err(ThrownError(e));
    }
    var total := TotalResults(data.entries);
    if total.Err? {
      var e := NewUnexpected(total.error);
      return Err(ThrownError(e));
    }
    var hits := results.value;
    r := Ok(SearchResponse(
      results := seq(|hits|, i requires 0 <= i < |hits| => RawDict(hits[i])),
      totalResults := total.value,
      query := query));
  }

  /** The status checks of `search`, raising the matching error class. */
  method RaiseForStatus(status: int, text: string) returns (raised: Option<SearchError>)
    ensures raised.None? <==> StatusError(status, text).None?
    ensures raised.Some? ==> fresh(raised.value) && raised.value.View() == StatusError(status, text).value
  {
    if status == 401 || status == 403 {
      var e := new SearchError.AuthError("Authentication failed: " + text);
      e := e.WithContext(StatusContext(status));
      return Some(e);
    } else if status == 429 {
      var e := new SearchError.RateLimitError("Rate limit exceeded: " + text);
      e := e.WithContext(StatusContext(status));
      return Some(e);
    } else if status >= 400 {
      var e := new SearchError("Search failed: " + text, HTTP_ERROR);
      e := e.WithContext(StatusContext(status));
      return Some(e);
    }
    return None;
  }

  /** `SearchError("Request timed out", code="TIMEOUT_ERROR").with_context(timeout=...)`. */
  method NewTimeout(p: SerperProvider) returns (e: SearchError)
    ensures fresh(e) && e.View() == TimeoutError(p)
  {
    e := new SearchError("Request timed out", TIMEOUT_ERROR);
    e := e.WithContext(map["timeout" := Int(p.timeout)]);
  }

  /** `SearchError(f"Request failed: {e!s}", code="REQUEST_ERROR").with_context(error=str(e))`. */
  method NewTransportError(message: string) returns (e: SearchError)
    ensures fresh(e) && e.View() == TransportError(message)
  {
    e := new SearchError("Request failed: " + message, REQUEST_ERROR);
    e := e.WithContext(map["error" := Str(message)]);
  }

  /** `SearchError(f"Unexpected error: {e!s}", code="UNKNOWN_ERROR").with_context(error=str(e))`. */
  method NewUnexpected(message: string) returns (e: SearchError)
    ensures fresh(e) && e.View() == UnexpectedError(message)
  {
    e := new SearchError("Unexpected error: " + message, UNKNOWN_ERROR);
    e := e.WithContext(map["error" := Str(message)]);
  }
}
