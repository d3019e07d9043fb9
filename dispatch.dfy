/**
 * `_execute_tool`, `_generate_embedding` and `_web_search` of
 * nakari/agent/loop.py: closed routing over the five catalog names, with
 * every exception turned into an `{"error": ...}` dict.
 */
module Dispatch {
  import opened Wrappers
  import opened PyValue
  import opened Memory
  import opened SearchTypes
  import opened SearchProviders
  import opened SearchClient
  import Tools

  /** The match arms of `_execute_tool`. */
  datatype ToolRoute = MemoryQuery | MemoryWrite | MemorySchema | Embedding | WebSearch | UnknownTool

  function Route(name: string): ToolRoute
  {
    match name
    case "memory_query" => MemoryQuery
    case "memory_write" => MemoryWrite
    case "memory_schema" => MemorySchema
    case "embedding" => Embedding
    case "web_search" => WebSearch
    case _ => UnknownTool
  }

  /** Only the five tool names have an arm of their own. */
  lemma RouteArms(name: string)
    ensures Route(name) == UnknownTool <==>
              name !in {"memory_query", "memory_write", "memory_schema", "embedding", "web_search"}
  {
  }

  /** The names the catalog offers are exactly the names the dispatcher
      handles. */
  lemma CatalogMatchesRoutes(name: string)
    ensures Tools.InCatalog(name) <==> Route(name) != UnknownTool
  {
    Tools.CatalogMembership(name);
  }

  /** `options.search.search` as seen from the dispatcher: always called with
      explicit options. */
  type SearchService = (Value, SearchOptions) -> Result<SearchResponse, SearchFailure>

  /** An embeddings endpoint: model name and input to a vector. */
  type Embedder = (string, Value) -> Result<seq<Float64>, string>

  /** What the tools can reach: the graph store, the embeddings endpoint and
      its model setting, and the search client if one is configured. */
  datatype Env = Env(store: Store, embed: Embedder, embeddingModel: Option<string>, search: Option<SearchService>)

  const DEFAULT_EMBEDDING_MODEL: string := "text-embedding-3-small"
  const SEARCH_NOT_CONFIGURED: string := "Search client not configured"

  /** The key `_web_search` reads that a raw dict lacks first. */
  const NO_TITLE: string := "'dict' object has no attribute 'title'"

  /** `{"error": message}`. */
  function ErrorDict(message: string): Value
  {
    Dict(map["error" := Str(message)])
  }

  /** `arguments.get(key, default)` on whatever `json.loads` produced. */
  function Arg(args: Json, key: string, default: Value): (r: Result<Value, string>)
    ensures args.Dict? ==> r == Ok(Get(args.entries, key, default))
    ensures !args.Dict? ==> r == Err(NoAttribute(TypeName(args), "get"))
  {
    if args.Dict? then Ok(Get(args.entries, key, default)) else Err(NoAttribute(TypeName(args), "get"))
  }

  /** `options.embedding_model or "text-embedding-3-small"`. */
  function EmbeddingModel(env: Env): (model: string)
    ensures Present(env.embeddingModel) ==> model == env.embeddingModel.value
    ensures !Present(env.embeddingModel) ==> model == DEFAULT_EMBEDDING_MODEL
  {
    if Present(env.embeddingModel) then env.embeddingModel.value else DEFAULT_EMBEDDING_MODEL
  }

  function FloatList(xs: seq<Float64>): (r: Value)
    ensures r.List? && |r.items| == |xs| && forall i :: 0 <= i < |xs| ==> r.items[i] == Float(xs[i])
  {
    List(seq(|xs|, i requires 0 <= i < |xs| => Float(xs[i])))
  }

  /** `_generate_embedding`: the endpoint is asked once, with the chosen
      model; its vector comes back as the one key `vector`, a JSON list of
      the same floats in the same order, and its failure as its message. */
  function GenerateEmbedding(text: Value, env: Env): (r: Result<Value, string>)
    ensures var reply := env.embed(EmbeddingModel(env), text);
      && (r.Ok? <==> reply.Ok?)
      && (r.Err? ==> r.error == reply.error)
      && (r.Ok? ==>
            && r.value.Dict? && r.value.entries.Keys == {"vector"} && IsJson(r.value)
            && var vector := r.value.entries["vector"];
               vector.List? && |vector.items| == |reply.value| &&
               forall i :: 0 <= i < |reply.value| ==> vector.items[i] == Float(reply.value[i]))
  {
    match env.embed(EmbeddingModel(env), text)
    case Err(e) => Err(e)
    case Ok(vector) => Ok(Dict(map["vector" := FloatList(vector)]))
  }

  /** The six attributes `_web_search` reads from one result. */
  function ResultDict(r: SearchResult): (d: Value)
    ensures d.Dict? && d.entries.Keys == {"title", "link", "snippet", "date", "thumbnailUrl", "siteName"}
    ensures d.entries["title"] == r.title && d.entries["link"] == r.link && d.entries["snippet"] == r.snippet
    ensures d.entries["date"] == r.date && d.entries["thumbnailUrl"] == r.thumbnailUrl &&
            d.entries["siteName"] == r.siteName
  {
    Dict(map["title" := r.title, "link" := r.link, "snippet" := r.snippet, "date" := r.date,
             "thumbnailUrl" := r.thumbnailUrl, "siteName" := r.siteName])
  }

  /** The list comprehension over `response.results`: attribute access on a
      plain dict raises on `title`, the first attribute read. */
  function ResultDicts(entries: seq<ResultEntry>): (r: Result<seq<Value>, string>)
    ensures r.Ok? <==> forall i :: 0 <= i < |entries| ==> entries[i].Object?
    ensures r.Ok? ==> |r.value| == |entries| &&
                      forall i :: 0 <= i < |entries| ==> r.value[i] == ResultDict(entries[i].result)
    ensures r.Err? ==> r.error == NO_TITLE
  {
    if entries == [] then Ok([])
    else if entries[0].RawDict? then Err(NO_TITLE)
    else
      match ResultDicts(entries[1..])
      case Err(e) => Err(e)
      case Ok(rest) => Ok([ResultDict(entries[0].result)] + rest)
  }

  /** `_web_search`: without a client, the configuration error and no
      search. Otherwise the search's own error; or the `r.title` error when
      any result is a plain dict; or the envelope holding the response's
      query and total and, per result in order, its six fields. */
  function WebSearchTool(query: Value, numResults: Json, searchType: Json, search: Option<SearchService>)
    : (r: Result<Value, string>)
    ensures search.None? ==> r == Ok(ErrorDict(SEARCH_NOT_CONFIGURED))
    ensures search.Some? ==>
      var out := search.value(query, SearchOptions(numResults := numResults, searchType := searchType));
      && (out.Err? ==> r == Err(out.error.Text()))
      && (out.Ok? ==>
            && (r.Ok? <==> forall i :: 0 <= i < |out.value.results| ==> out.value.results[i].Object?)
            && (r.Err? ==> r.error == NO_TITLE)
            && (r.Ok? ==>
                  r.value == Dict(map["query" := out.value.query, "totalResults" := out.value.totalResults,
                                      "results" := List(seq(|out.value.results|, i requires 0 <= i < |out.value.results| =>
                                                              ResultDict(out.value.results[i].result)))])))
  {
    match search
    case None => Ok(ErrorDict(SEARCH_NOT_CONFIGURED))
    case Some(service) =>
      match service(query, SearchOptions(numResults := numResults, searchType := searchType))
      case Err(f) => Err(f.Text())
      case Ok(resp) =>
        match ResultDicts(resp.results)
        case Err(e) => Err(e)
        case Ok(items) =>
          assert items == seq(|resp.results|, i requires 0 <= i < |resp.results| => ResultDict(resp.results[i].result));
          Ok(Dict(map["query" := resp.query, "totalResults" := resp.totalResults, "results" := List(items)]))
  }

  /** The `memory_query` and `memory_write` arms: the statement they run. */
  function CypherStatement(args: Json): (r: Result<Statement, string>)
    ensures args.Dict? ==> r == Ok(Statement(Get(args.entries, "cypher", Str("")), Get(args.entries, "params", Dict(map[]))))
    ensures !args.Dict? ==> r == Err(NoAttribute(TypeName(args), "get"))
  {
    match Arg(args, "cypher", Str(""))
    case Err(e) => Err(e)
    case Ok(cypher) =>
      match Arg(args, "params", Dict(map[]))
      case Err(e) => Err(e)
      case Ok(params) => Ok(Statement(cypher, params))
  }

  function QueryTool(args: Json, env: Env): Result<Value, string>
  {
    match CypherStatement(args)
    case Err(e) => Err(e)
    case Ok(statement) => QueryEnvelope(env.store.rows(statement))
  }

  function WriteTool(args: Json, env: Env): Result<Value, string>
  {
    match CypherStatement(args)
    case Err(e) => Err(e)
    case Ok(statement) => WriteEnvelope(env.store.summary(statement))
  }

  function EmbeddingTool(args: Json, env: Env): Result<Value, string>
  {
    match Arg(args, "text", Str(""))
    case Err(e) => Err(e)
    case Ok(text) => GenerateEmbedding(text, env)
  }

  /** The options `_web_search` builds from the arguments. */
  function SearchArgs(m: map<string, Json>): (r: (Value, SearchOptions))
    ensures r.0 == Get(m, "query", Str(""))
    ensures r.1.numResults == (if "num_results" in m then m["num_results"] else Null)
    ensures r.1.searchType == (if "type" in m then m["type"] else Str("search"))
    ensures r.1.language.None? && r.1.region.None? && r.1.timeout.None?
  {
    (Get(m, "query", Str("")),
     SearchOptions(numResults := if "num_results" in m then m["num_results"] else Null,
                   searchType := if "type" in m then m["type"] else Str("search")))
  }

  function SearchTool(args: Json, env: Env): Result<Value, string>
  {
    if !args.Dict? then Err(NoAttribute(TypeName(args), "get"))
    else
      var (query, options) := SearchArgs(args.entries);
      WebSearchTool(query, options.numResults, options.searchType, env.search)
  }

  /** The `try` body of `_execute_tool`. */
  function Dispatch(name: string, args: Json, env: Env): (r: Result<Value, string>)
    ensures Route(name) == UnknownTool ==> r == Ok(ErrorDict("Unknown tool: " + name))
    ensures !args.Dict? && Route(name) !in {MemorySchema, UnknownTool} ==> r == Err(NoAttribute(TypeName(args), "get"))
    ensures Route(name) == MemorySchema ==> r == SchemaEnvelope(env.store)
  {
    match Route(name)
    case MemoryQuery => QueryTool(args, env)
    case MemoryWrite => WriteTool(args, env)
    case MemorySchema => SchemaEnvelope(env.store)
    case Embedding => EmbeddingTool(args, env)
    case WebSearch => SearchTool(args, env)
    case UnknownTool => Ok(ErrorDict("Unknown tool: " + name))
  }

  /** `_execute_tool`: never raises; what would have been raised comes back
      as an error dict, and every answer is a dict. */
  function ExecuteTool(name: string, args: Json, env: Env): (r: Value)
    ensures r.Dict?
    ensures Route(name) == UnknownTool ==> r == ErrorDict("Unknown tool: " + name)
    ensures Dispatch(name, args, env).Err? ==> r == ErrorDict(Dispatch(name, args, env).error)
    ensures Dispatch(name, args, env).Ok? ==> r == Dispatch(name, args, env).value
  {
    match Dispatch(name, args, env)
    case Err(e) => ErrorDict(e)
    case Ok(v) =>
      assert v.Dict? by { DispatchAnswersDict(name, args, env); }
      v
  }

  /** Every envelope a tool returns is a dict. */
  lemma DispatchAnswersDict(name: string, args: Json, env: Env)
    ensures Dispatch(name, args, env).Ok? ==> Dispatch(name, args, env).value.Dict?
  {
    match Route(name)
    case WebSearch =>
      if args.Dict? {
        var (query, options) := SearchArgs(args.entries);
        assert SearchTool(args, env) == WebSearchTool(query, options.numResults, options.searchType, env.search);
      }
    case _ =>
  }

  /** Missing arguments take their defaults: `""` for cypher, text and
      query, `{}` for params, `None` for num_results, `"search"` for type. */
  lemma ArgumentDefaults(m: map<string, Json>, env: Env)
    requires "cypher" !in m && "params" !in m && "text" !in m && "query" !in m && "num_results" !in m && "type" !in m
    ensures Dispatch("memory_query", Dict(m), env) == QueryEnvelope(env.store.rows(Statement(Str(""), Dict(map[]))))
    ensures Dispatch("memory_write", Dict(m), env) == WriteEnvelope(env.store.summary(Statement(Str(""), Dict(map[]))))
    ensures Dispatch("embedding", Dict(m), env) == GenerateEmbedding(Str(""), env)
    ensures Dispatch("web_search", Dict(m), env) == WebSearchTool(Str(""), Null, Str("search"), env.search)
  {
    assert Route("memory_query") == MemoryQuery && Route("memory_write") == MemoryWrite;
    assert Route("embedding") == Embedding && Route("web_search") == WebSearch;
  }

  /** Non-dict arguments fail on the first `.get`, except for the schema
      tool, which reads none. */
  lemma NonDictArguments(name: string, args: Json, env: Env)
    requires !args.Dict?
    ensures Route(name) == MemorySchema ==> ExecuteTool(name, args, env) == ExecuteTool(name, Dict(map[]), env)
    ensures Route(name) in {MemoryQuery, MemoryWrite, Embedding, WebSearch} ==>
              ExecuteTool(name, args, env) == ErrorDict(NoAttribute(TypeName(args), "get"))
  {
  }

  /** The `embedding` arm asks the endpoint for the `text` argument (`""`
      when missing) with the configured model: the tool answers the
      endpoint's floats in order under `vector`, or its message as the
      error. */
  lemma EmbeddingAnswer(m: map<string, Json>, env: Env)
    ensures var reply := env.embed(EmbeddingModel(env), Get(m, "text", Str("")));
      var r := ExecuteTool("embedding", Dict(m), env);
      && (reply.Err? ==> r == ErrorDict(reply.error))
      && (reply.Ok? ==> r.entries.Keys == {"vector"} && r.entries["vector"] == FloatList(reply.value))
  {
    assert Route("embedding") == Embedding;
  }

  /** The `web_search` arm of `_execute_tool` on dict arguments: `_web_search`
      with the query, result count and type read from them, its failure
      reported as the error dict. */
  lemma WebSearchRoute(m: map<string, Json>, env: Env)
    ensures var r := WebSearchTool(SearchArgs(m).0, SearchArgs(m).1.numResults, SearchArgs(m).1.searchType, env.search);
      ExecuteTool("web_search", Dict(m), env) == if r.Ok? then r.value else ErrorDict(r.error)
  {
    assert Route("web_search") == WebSearch;
  }

  /** Without a search client, `web_search` answers the configuration error
      whatever dict arguments it gets, and makes no search call. */
  lemma WebSearchUnconfigured(m: map<string, Json>, env: Env)
    requires env.search.None?
    ensures ExecuteTool("web_search", Dict(m), env) == ErrorDict(SEARCH_NOT_CONFIGURED)
  {
    assert Route("web_search") == WebSearch;
  }

  /** A failing search reports the error's message. */
  lemma WebSearchFailure(m: map<string, Json>, env: Env)
    requires env.search.Some?
    requires env.search.value(SearchArgs(m).0, SearchArgs(m).1).Err?
    ensures ExecuteTool("web_search", Dict(m), env) ==
            ErrorDict(env.search.value(SearchArgs(m).0, SearchArgs(m).1).error.Text())
  {
    assert Route("web_search") == WebSearch;
  }

  /** A search that answers at least one plain dict fails on `r.title`. */
  lemma RawResultsFail(m: map<string, Json>, env: Env)
    requires env.search.Some?
    requires var out := env.search.value(SearchArgs(m).0, SearchArgs(m).1);
             out.Ok? && |out.value.results| > 0 && out.value.results[0].RawDict?
    ensures ExecuteTool("web_search", Dict(m), env) == ErrorDict(NO_TITLE)
  {
    assert Route("web_search") == WebSearch;
  }

  /** A search whose results are all `SearchResult`s answers the envelope. */
  lemma ObjectResultsEnvelope(m: map<string, Json>, env: Env)
    requires env.search.Some?
    requires var out := env.search.value(SearchArgs(m).0, SearchArgs(m).1);
             out.Ok? && forall i :: 0 <= i < |out.value.results| ==> out.value.results[i].Object?
    ensures var resp := env.search.value(SearchArgs(m).0, SearchArgs(m).1).value;
      ExecuteTool("web_search", Dict(m), env) ==
        Dict(map["query" := resp.query, "totalResults" := resp.totalResults,
                 "results" := List(seq(|resp.results|, i requires 0 <= i < |resp.results| =>
                                         ResultDict(resp.results[i].result)))])
  {
    assert Route("web_search") == WebSearch;
    var resp := env.search.value(SearchArgs(m).0, SearchArgs(m).1).value;
    var items := ResultDicts(resp.results).value;
    assert items == seq(|resp.results|, i requires 0 <= i < |resp.results| => ResultDict(resp.results[i].result));
  }

  // ----- the search client `run_react_loop` is given in practice -----

  /** `SearchClient.search` over the Serper provider as written: the
      provider returns plain dicts. */
  function SerperService(c: Client, http: Transport): SearchService
  {
    (query: Value, options: SearchOptions) => Perform(c, SearchCall(query, Some(options)), http)
  }

  /** The same client with the results converted to `SearchResult`s. */
  function CorrectedSerperService(c: Client, http: Transport): SearchService
  {
    (query: Value, options: SearchOptions) => SearchSpecCorrected(c.provider, query, Some(options), http)
  }

  /** A successful Serper search yields only raw dicts, and echoes its
      query. */
  lemma SerperSuccessIsRaw(c: Client, query: Value, options: SearchOptions, http: Transport)
    ensures var out := SerperService(c, http)(query, options);
      out.Ok? ==> out.value.query == query &&
                  forall i :: 0 <= i < |out.value.results| ==> out.value.results[i].RawDict?
  {
    var request := RequestOf(c.provider, query, Some(options));
    if request.Ok? {
      OutcomeClassification(c.provider, query, options.searchType, http(request.value));
    }
  }

  /** As written, every search with at least one hit ends in the attribute
      error: `_web_search` reads `r.title` from a dict. */
  lemma WebSearchAsWrittenFails(c: Client, http: Transport, m: map<string, Json>, env: Env)
    requires env.search == Some(SerperService(c, http))
    requires var out := SerperService(c, http)(SearchArgs(m).0, SearchArgs(m).1);
             out.Ok? && |out.value.results| > 0
    ensures ExecuteTool("web_search", Dict(m), env) == ErrorDict(NO_TITLE)
  {
    SerperSuccessIsRaw(c, SearchArgs(m).0, SearchArgs(m).1, http);
    RawResultsFail(m, env);
  }

  /** A Serper answer with one organic hit, titled "Dafny". */
  function OneHitBody(): map<string, Json>
  {
    map["organic" := List([Dict(map["title" := Str("Dafny")])])]
  }

  function OneHitTransport(): Transport
  {
    (request: HttpRequest) => Response(200, "", Decoded(Dict(OneHitBody())))
  }

  /** The provider turns the one-hit answer into one result. */
  lemma OneHitOutcome(p: SerperProvider, query: Value)
    ensures var r := Outcome(p, query, Str("search"), Response(200, "", Decoded(Dict(OneHitBody()))));
      r.Ok? && |r.value.results| == 1
  {
    var hit: map<string, Json> := map["title" := Str("Dafny")];
    EndpointTable(Str("search"));
    assert RawHits(OneHitBody(), "organic") == List(seq(1, i requires 0 <= i < 1 => Dict([hit][i])));
    SearchSuccess(p, query, Str("search"), 200, "", [hit], OneHitBody());
  }

  /** The one-hit answer to a plain search converts to one result. */
  lemma OneHitAnswer(c: Client, query: Value, options: SearchOptions)
    requires options.searchType == Str("search")
    ensures var out := SerperService(c, OneHitTransport())(query, options);
      out.Ok? && |out.value.results| == 1
  {
    EndpointTable(Str("search"));
    var request := RequestOf(c.provider, query, Some(options));
    assert request.Ok?;
    assert OneHitTransport()(request.value) == Response(200, "", Decoded(Dict(OneHitBody())));
    OneHitOutcome(c.provider, query);
    assert SerperService(c, OneHitTransport())(query, options) ==
           Outcome(c.provider, query, Str("search"), Response(200, "", Decoded(Dict(OneHitBody()))));
  }

  /** The concrete run: the service answers one hit for
      `{"query": "dafny"}`, and the tool reports the attribute error
      instead of the hit. */
  lemma WebSearchAsWrittenExample(c: Client, env: Env)
    requires env.search == Some(SerperService(c, OneHitTransport()))
    ensures ExecuteTool("web_search", Dict(map["query" := Str("dafny")]), env) == ErrorDict(NO_TITLE)
  {
    var m: map<string, Json> := map["query" := Str("dafny")];
    assert SearchArgs(m).1.searchType == Str("search");
    OneHitAnswer(c, SearchArgs(m).0, SearchArgs(m).1);
    WebSearchAsWrittenFails(c, OneHitTransport(), m, env);
  }

  /** `_web_search` over the corrected service: the envelope of the hits
      Serper found, each read back through `SearchResult.from_dict`. */
  lemma CorrectedSearchEnvelope(c: Client, http: Transport, m: map<string, Json>)
    requires SerperService(c, http)(SearchArgs(m).0, SearchArgs(m).1).Ok?
    ensures var raw := SerperService(c, http)(SearchArgs(m).0, SearchArgs(m).1).value;
      WebSearchTool(SearchArgs(m).0, SearchArgs(m).1.numResults, SearchArgs(m).1.searchType,
                    Some(CorrectedSerperService(c, http))) ==
        Ok(Dict(map["query" := SearchArgs(m).0, "totalResults" := raw.totalResults,
                    "results" := List(seq(|raw.results|, i requires 0 <= i < |raw.results| =>
                                            ResultDict(ReadBack(raw.results[i]))))]))
  {
    var (query, options) := SearchArgs(m);
    SerperSuccessIsRaw(c, query, options, http);
    var raw := SerperService(c, http)(query, options).value;
    var fixed := AsSearchResults(raw);
    assert CorrectedSerperService(c, http)(query, options) == Ok(fixed);
    assert options == SearchOptions(numResults := options.numResults, searchType := options.searchType);
    WebSearchAnswer(query, options.numResults, options.searchType, CorrectedSerperService(c, http), fixed);
    ReadBackDicts(raw);
  }

  /** `_web_search` over a search that succeeds with `SearchResult`s only:
      the envelope of the response, one dict per result, in order. */
  lemma WebSearchAnswer(query: Value, numResults: Json, searchType: Json, service: SearchService, resp: SearchResponse)
    requires service(query, SearchOptions(numResults := numResults, searchType := searchType)) == Ok(resp)
    requires forall i :: 0 <= i < |resp.results| ==> resp.results[i].Object?
    ensures WebSearchTool(query, numResults, searchType, Some(service)) ==
      Ok(Dict(map["query" := resp.query, "totalResults" := resp.totalResults,
                  "results" := List(seq(|resp.results|, i requires 0 <= i < |resp.results| =>
                                          ResultDict(resp.results[i].result)))]))
  {
  }

  /** The hits of the corrected response, as dicts, are the raw hits read
      back one by one. */
  lemma ReadBackDicts(raw: SearchResponse)
    ensures var fixed := AsSearchResults(raw);
      seq(|fixed.results|, i requires 0 <= i < |fixed.results| => ResultDict(fixed.results[i].result))
        == seq(|raw.results|, i requires 0 <= i < |raw.results| => ResultDict(ReadBack(raw.results[i])))
  {
  }


  /** With the corrected client, a search answers the envelope: the query,
      the total, and per hit the six fields read back from the converted
      dict, in order. */
  lemma WebSearchCorrected(c: Client, http: Transport, m: map<string, Json>, env: Env)
    requires env.search == Some(CorrectedSerperService(c, http))
    requires SerperService(c, http)(SearchArgs(m).0, SearchArgs(m).1).Ok?
    ensures var raw := SerperService(c, http)(SearchArgs(m).0, SearchArgs(m).1).value;
      ExecuteTool("web_search", Dict(m), env) ==
        Dict(map["query" := SearchArgs(m).0, "totalResults" := raw.totalResults,
                 "results" := List(seq(|raw.results|, i requires 0 <= i < |raw.results| =>
                                         ResultDict(ReadBack(raw.results[i]))))])
  {
    CorrectedSearchEnvelope(c, http, m);
    WebSearchRoute(m, env);
  }

}
