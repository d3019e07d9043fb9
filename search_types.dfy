/** nakari/search/types.py: the frozen records of the search module. */
module SearchTypes {
  import opened Wrappers
  import opened PyValue

  /** The four literals of `SearchType`. */
  const SEARCH_TYPES: seq<string> := ["search", "news", "images", "videos"]

  /** One hit. Fields hold whatever the source dict held; the declared
      types (`str`, `str | None`) are not enforced by Python. */
  datatype SearchResult = SearchResult(
    title: Value, link: Value, snippet: Value,
    date: Value := Null, thumbnailUrl: Value := Null, siteName: Value := Null)

  /** An element of `SearchResponse.results`: a `SearchResult` object, or a
      plain dict put there by a producer that skipped the conversion. */
  datatype ResultEntry = RawDict(fields: map<string, Value>) | Object(result: SearchResult)

  datatype SearchResponse = SearchResponse(
    results: seq<ResultEntry>, totalResults: Value := Null, query: Value := Str(""), metadata: Value := Null)

  /** `SearchOptions`. `numResults` and `searchType` can arrive straight
      from the model's JSON arguments, so they are any JSON value. */
  datatype SearchOptions = SearchOptions(
    numResults: Json := Null, searchType: Json := Str("search"),
    language: Option<string> := None, region: Option<string> := None, timeout: Option<int> := None)

  /** `SearchOptions()`. */
  function DefaultOptions(): (o: SearchOptions)
    ensures o.searchType == Str("search")
    ensures o.numResults == Null && o.language == None && o.region == None && o.timeout == None
  {
    SearchOptions()
  }

  /** `SearchResult.from_dict`: camelCase keys, `""` or `None` when absent. */
  function SearchResultFromDict(d: map<string, Value>): (r: SearchResult)
    ensures ("title" in d ==> r.title == d["title"]) && ("title" !in d ==> r.title == Str(""))
    ensures ("link" in d ==> r.link == d["link"]) && ("link" !in d ==> r.link == Str(""))
    ensures ("snippet" in d ==> r.snippet == d["snippet"]) && ("snippet" !in d ==> r.snippet == Str(""))
    ensures ("date" in d ==> r.date == d["date"]) && ("date" !in d ==> r.date == Null)
    ensures ("thumbnailUrl" in d ==> r.thumbnailUrl == d["thumbnailUrl"]) && ("thumbnailUrl" !in d ==> r.thumbnailUrl == Null)
    ensures ("siteName" in d ==> r.siteName == d["siteName"]) && ("siteName" !in d ==> r.siteName == Null)
  {
    SearchResult(
      title := Get(d, "title", Str("")),
      link := Get(d, "link", Str("")),
      snippet := Get(d, "snippet", Str("")),
      date := Get(d, "date", Null),
      thumbnailUrl := Get(d, "thumbnailUrl", Null),
      siteName := Get(d, "siteName", Null))
  }

  /** `SearchResponse.from_dict`: every entry of "results" becomes a
      `SearchResult`, in order; an entry that is not a dict, or a "results"
      that cannot be iterated, raises. */
  function SearchResponseFromDict(data: map<string, Json>): (r: Result<SearchResponse, string>)
    ensures "results" !in data ==> r.Ok? && r.value.results == []
    ensures r.Ok? ==> r.value.query == Get(data, "query", Str("")) &&
                      r.value.totalResults == Get(data, "totalResults", Null) &&
                      r.value.metadata == Get(data, "metadata", Null)
    ensures "results" in data && data["results"].List? &&
            (forall i :: 0 <= i < |data["results"].items| ==> data["results"].items[i].Dict?) ==>
              && r.Ok? && |r.value.results| == |data["results"].items|
              && forall i :: 0 <= i < |r.value.results| ==>
                   r.value.results[i] == Object(SearchResultFromDict(data["results"].items[i].entries))
  {
    var raw: Json := if "results" in data then data["results"] else List([]);
    match DictItems(raw)
    case Err(e) => Err(e)
    case Ok(items) =>
      Ok(SearchResponse(
        results := seq(|items|, i requires 0 <= i < |items| => Object(SearchResultFromDict(items[i]))),
        totalResults := Get(data, "totalResults", Null),
        query := Get(data, "query", Str("")),
        metadata := Get(data, "metadata", Null)))
  }
}
