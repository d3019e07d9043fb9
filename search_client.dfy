/**
 * nakari/search/client.py: a thin client over one provider. Each method is
 * described by the provider call it makes; running that call is the
 * provider's `SearchSpec`.
 */
module SearchClient {
  import opened Wrappers
  import opened PyValue
  import opened SearchTypes
  import opened SearchProviders

  datatype Client = Client(provider: SerperProvider)

  /** One `self._provider.search(query, options)` call. */
  datatype ProviderCall = ProviderCall(query: Value, options: Option<SearchOptions>)

  /** What the provider does with a call. */
  function Perform(c: Client, call: ProviderCall, http: Transport): Result<SearchResponse, SearchFailure>
  {
    SearchSpec(c.provider, call.query, call.options, http)
  }

  /** `SearchClient.search`: the query and the options go through untouched. */
  function SearchCall(query: Value, options: Option<SearchOptions>): (call: ProviderCall)
    ensures call.query == query && call.options == options
  {
    ProviderCall(query, options)
  }

  /** The options `search_news` builds: type `"news"`, and the four other
      fields copied from the caller's options, or all unset without them. */
  function NewsOptions(options: Option<SearchOptions>): (o: SearchOptions)
    ensures o.searchType == Str("news")
    ensures options.Some? ==>
              o.numResults == options.value.numResults && o.language == options.value.language &&
              o.region == options.value.region && o.timeout == options.value.timeout
    ensures options.None? ==> o.numResults == Null && o.language.None? && o.region.None? && o.timeout.None?
  {
    match options
    case None => SearchOptions(searchType := Str("news"))
    case Some(given) =>
      SearchOptions(numResults := given.numResults, searchType := Str("news"), language := given.language,
                    region := given.region, timeout := given.timeout)
  }

  function NewsCall(query: Value, options: Option<SearchOptions>): (call: ProviderCall)
    ensures call.query == query && call.options == Some(NewsOptions(options))
  {
    ProviderCall(query, Some(NewsOptions(options)))
  }

  /** `verify_connectivity`: one search for `"test"` with default options. */
  function ConnectivityCall(): (call: ProviderCall)
    ensures call.query == Str("test") && call.options.None?
  {
    ProviderCall(Str("test"), None)
  }

  /** `create_serper_client`. */
  function CreateSerperClient(apiKey: string, baseUrl: Option<string> := None, timeout: int := DEFAULT_TIMEOUT)
    : (c: Client)
    ensures c.provider == NewSerperProvider(apiKey, baseUrl, timeout)
    ensures c.provider.apiKey == apiKey && c.provider.timeout == timeout
  {
    Client(NewSerperProvider(apiKey, baseUrl, timeout))
  }

  /** A news search never escapes with a TypeError: it posts to the news
      endpoint, with the query and the copied fields, and reads the `news`
      key of the answer. */
  lemma NewsSearchPostsToNews(c: Client, query: Value, options: Option<SearchOptions>)
    ensures var call := NewsCall(query, options);
      var request := RequestOf(c.provider, call.query, call.options);
      && request.Ok?
      && request.value.url == c.provider.baseUrl + "/news"
      && request.value.payload["q"] == query
      && request.value.headers["X-API-KEY"] == c.provider.apiKey
      && ResultKey(Str("news")) == Ok("news")
  {
    EndpointTable(Str("news"));
  }

  /** The connectivity probe posts exactly `{"q": "test"}` to `/search`. */
  lemma ConnectivityPostsPlainSearch(c: Client)
    ensures var call := ConnectivityCall();
      var request := RequestOf(c.provider, call.query, call.options);
      && request.Ok?
      && request.value.url == c.provider.baseUrl + "/search"
      && request.value.payload == map["q" := Str("test")]
  {
    EndpointTable(Str("search"));
    var payload := Payload(Str("test"), DefaultOptions());
    assert payload.Keys == {"q"};
  }

  /** A client built by `create_serper_client` posts under the given base
      URL, or under the default one when none (or an empty one) is given. */
  lemma CreatedClientBaseUrl(apiKey: string, baseUrl: Option<string>, query: Value)
    requires baseUrl.None? || baseUrl.value == ""
    ensures var c := CreateSerperClient(apiKey, baseUrl);
      && c.provider.timeout == 20
      && RequestOf(c.provider, query, None).value.url == DEFAULT_BASE_URL + "/search"
  {
    EndpointTable(Str("search"));
  }
}
