# nakari agent core, modelled in Dafny

This project models the core of nakari, a single-threaded ReAct agent (nakari/agent/loop.py). The agent:
- answers a user message by calling a chat model;
- offers the model five tools: graph-memory query, graph-memory write, schema inspection, text embedding and web search;
- feeds every tool result back as a `tool` message;
- stops on the first reply without tool calls, or after one forced final call without tools once `MAX_ITERATIONS` (10) tool-enabled calls have been made.

The modules follow the repository's files:

| module | file | what it holds |
|---|---|---|
| `Wrappers`, `PyValue` | — | `Option`/`Result`, and one datatype of Python values. It covers JSON values, graph-driver rows, nodes and relationships, temporal values and other objects. It also holds `dict.get`, iteration over a value, and the text of the `AttributeError`/`TypeError` a bad access raises. |
| `Serialize` | nakari/agent/loop.py | `_json_serializable`, as a structural recursion. |
| `ReactLoop` | nakari/agent/loop.py | `run_react_loop` and its inner loop over tool calls as imperative methods. They are specified by `Iterate`/`Leave` (the iterations that go on, and how the loop ends) and by `ToolTurns` (one round of tool calls). It also holds `LoopStep`, `_emit_step` and the argument parsing. |
| `Dispatch` | nakari/agent/loop.py | `_execute_tool`, `_generate_embedding` and `_web_search` as total functions: every exception becomes an `{"error": ...}` dict. |
| `Memory` | nakari/memory/__init__.py | `_convert_value`, `_convert_record` (a loop), and the `query`/`write`/`schema` envelopes. The `MemoryClient` class logs the statements it issues to the graph store. |
| `SearchTypes`, `SearchErrors`, `SearchProviders`, `SearchClient` | nakari/search/*.py | `from_dict` defaults; the `SearchError` class hierarchy with `with_context`; `SerperProvider.search` (endpoint, payload, status and exception classification, `_convert_response`), imperative and specified by `SearchSpec`; the client's delegations. |
| `Tools` | nakari/agent/tools.py | the `get_memory_tools()` catalog constant. |

Oracles stand for the outside world:
- `LoopOptions.chat` maps a request to a completion, or to the text of what the call raised.
- `LoopOptions.world` gives the services (graph store, embeddings endpoint, search client) as they stand before each tool call. It is a function of the whole message buffer so far, so a tool may observe everything that happened before it.
- `Memory.Store` answers a Cypher statement with rows, counters or a single record.
- `SearchProviders.Transport` answers an HTTP request with a status, a text and a decoded body, or with a timeout or a request failure.

Integers are unbounded, as in Python. Floats are kept opaque as their 64-bit pattern.

The loop's shape lemmas (`IterateCount` … `RunOutcome`) hold for every round of tool calls. The lemmas about tool messages and steps hold for every round that keeps the inner loop's promises (`AnswersEveryCall`, `QuietRound`). `ToolRoundAnswers` and `ToolRoundQuiet` prove that the program's own round keeps them. `RunReactLoop` is the run whose round dispatches through `_execute_tool`.

Three facts about the code that a reader of its comments might not expect:
- The `LoopStep` docstring (nakari/agent/loop.py:84) lists `thought` and `error` among the step types. The loop never emits either, and neither does the model.
- The assistant message is appended with its `content` only, without its `tool_calls` (nakari/agent/loop.py:143-146). `AssistantMsg` does the same.
- Search results carry their address under `link` (nakari/search/types.py:10-31, nakari/search/providers.py:181-194).

## Model

| member | source | states |
|---|---|---|
| ReactLoop.ParseArguments | nakari/agent/loop.py:158-162 | Decoded JSON arguments are kept as they are; empty, missing or undecodable arguments become `{}`. |
| ReactLoop.LoopStep.ToDict | nakari/agent/loop.py:96-104 | `to_dict` has exactly the five keys `type`, `content`, `name`, `arguments`, `result`, each holding the step's field (`None` for absent arguments). |
| ReactLoop.EmitSeen | nakari/agent/loop.py:319-327 | `_emit_step` (`Emit`): the callback gets exactly this one step exactly when it is set. The steps it has seen only grow. Its uses are stated by `ToolTurnsSteps`, `ToolTurnsQuiet` and `ResponseStepOnce`. |
| ReactLoop.RunReactLoop | nakari/agent/loop.py:107-202 | The imperative loop (buffer grown by appends, early returns, nested loop over tool calls) computes the outcome, every request and every emitted step of `Leave(Iterate(...))` from the initial buffer at iteration 0, dispatching through `_execute_tool`. |
| ReactLoop.FinalCall | nakari/agent/loop.py:186-202 | After the last iteration: the notice is appended, one call is made without tools, and its text or `""` is returned with a `response` step, or what it raised is returned; the same as `Leave` at iteration `MAX_ITERATIONS`. |
| ReactLoop.RunToolCalls | nakari/agent/loop.py:156-184 | The inner `for tool_call` loop leaves exactly the buffer and steps of the round `ToolRound(opts, ToolDispatch(opts))` over the reply's calls. |
| ReactLoop.ToolTurnsLength | nakari/agent/loop.py:156-184 | A round adds one message per call, and two steps per call when a callback is set, none when it is not. |
| ReactLoop.ToolTurnsMessagesPrefix | nakari/agent/loop.py:180-184 | The messages after the first `k` calls are a prefix of the messages after all of them: the buffer only grows by appends. |
| ReactLoop.ToolTurnsStepsPrefix | nakari/agent/loop.py:164-177 | The steps emitted for the first `k` calls are a prefix of those emitted for all of them. |
| ReactLoop.ToolTurnAt | nakari/agent/loop.py:164-184 | Call `k` is answered by new message `k`, carrying its id and the serialised result of dispatching it against the buffer the earlier calls left. With a callback, it is reported by new steps `2k` (`tool_call`, with the parsed arguments) and `2k+1` (`tool_result`, with the raw result). |
| ReactLoop.ToolTurnsMessages | nakari/agent/loop.py:170-184 | A round keeps the old buffer. It then has one tool message per call, in call order, the k-th carrying call k's id and the serialised result of dispatching it after the calls before it. |
| ReactLoop.ToolTurnsAnswers | nakari/agent/loop.py:179-184 | The messages a round appends answer the calls one to one, in order, by `tool_call_id`, each with a JSON value, so `json.dumps` cannot fail. |
| ReactLoop.ToolTurnsSteps | nakari/agent/loop.py:164-177 | With a callback set, a round emits `tool_call` then `tool_result` for each call in order: the call step before the dispatch, the result step after it with the value the tool message serialises. |
| ReactLoop.ToolTurnsQuiet | nakari/agent/loop.py:164-177 | A round only appends steps, none of them a `response` step, and emits nothing without a callback. |
| ReactLoop.ToolRoundAnswers | nakari/agent/loop.py:156-184 | The program's round keeps the message promise (`AnswersEveryCall`) for every reply and every buffer. |
| ReactLoop.ToolRoundQuiet | nakari/agent/loop.py:156-184 | The program's round keeps the step promise (`QuietRound`) for every reply and every buffer. |
| ReactLoop.RoundContinues | nakari/agent/loop.py:143-193 | A reply with tool calls is continued by a next request whose buffer is the old one, then the assistant message, then the answering tool messages, then (for the final call) the notice. |
| ReactLoop.IterateCount | nakari/agent/loop.py:131-153 | From an iteration at most `MAX_ITERATIONS`, the loop reaches a state it stops at, within the remaining iterations, having made exactly one request per iteration that went on. |
| ReactLoop.IterateFirst | nakari/agent/loop.py:131-138 | The requests of a run extend the earlier ones, and the first new one is the request of the state it starts from. |
| ReactLoop.IterateContinues | nakari/agent/loop.py:131-193 | Every request of a run but the last offered the tools, got tool calls back, and is continued by the next (`Continues`), whatever the round, as long as it keeps the message promise. |
| ReactLoop.IterateSteps | nakari/agent/loop.py:149-184 | The iterations that go on only append steps, none of them a `response` step, and none without a callback. |
| ReactLoop.RunRequests | nakari/agent/loop.py:123-138 | A whole run makes between 1 and `MAX_ITERATIONS + 1` requests. The first offers the tools, one call per turn, on the system prompt, then the history in order, then the user message. |
| ReactLoop.RunForcedFinal | nakari/agent/loop.py:131-198 | The last request is a call without tools exactly when the run made `MAX_ITERATIONS + 1` requests, that is, when all 10 tool-enabled replies asked for tools. That call's buffer ends with the max-iterations notice. |
| ReactLoop.RunStopsEarly | nakari/agent/loop.py:148-153 | A run that ends on a tool-enabled request ends there because that call raised or its reply had no tool calls. |
| ReactLoop.RunOutcome | nakari/agent/loop.py:149-202 | The outcome is what the last call raised, or its reply's `content or ""`. |
| ReactLoop.RunContinues | nakari/agent/loop.py:140-198 | In a whole run with the program's round, every request but the last offered the tools, got tool calls back, and each next request continues its buffer with the answering tool messages in call order. |
| ReactLoop.ResponseStepOnce | nakari/agent/loop.py:149-201 | A whole run emits exactly one `response` step when it returns with a callback set, as its last step with the returned text, and none otherwise. |
| ReactLoop.PlainReplyStops | nakari/agent/loop.py:149-153 | A first reply without tool calls ends the run after one request, returning `content or ""`, with a single `response` step when a callback is set. |
| Serialize.JsonSerializable | nakari/agent/loop.py:24-55 | The conversion always yields a value `json.dumps` can render. |
| Serialize.JsonIsFixedPoint | nakari/agent/loop.py:27-52 | JSON values (None, bools, ints, floats, strings, lists and dicts of them) are returned unchanged. |
| Serialize.SerializableIdempotent | nakari/agent/loop.py:24-55 | Converting twice is converting once. |
| Serialize.SerializableShape | nakari/agent/loop.py:27-52 | Scalars are unchanged; lists and tuples map element-wise with length and order kept; dicts keep their keys with converted values; a driver `Record` becomes a dict over its keys. |
| PyValue.Get | nakari/agent/loop.py:223-242 | `d.get(key, default)`: the stored value when the key is present, else the default. |
| PyValue.DictItems | nakari/search/providers.py:178-182 | Iterating a value for dict items: a list of dicts yields their maps in order; a non-iterable raises the `TypeError`; only a list, an empty dict or an empty string iterate without error. |
| PyValue.ListDicts | nakari/search/providers.py:180-182 | `item.get` over a list succeeds exactly when every element is a dict; otherwise it fails with the `AttributeError` of an element that is not. |
| Dispatch.CatalogMatchesRoutes | nakari/agent/loop.py:221-246 | A name is in the tool catalog exactly when `_execute_tool` has a match arm for it. |
| Dispatch.RouteArms | nakari/agent/loop.py:221-246 | `Route`, the `match name` of `_execute_tool`: Only the five tool names have a match arm; every other name falls through to the unknown-tool case. |
| Dispatch.Dispatch | nakari/agent/loop.py:220-246 | The `try` body of `_execute_tool`. An unknown name answers `{"error": "Unknown tool: <name>"}` without raising. Non-dict arguments raise the `.get` `AttributeError` in every arm that reads them. The schema arm is `schema()` and ignores them. Its other promises are stated by `ExecuteTool`, `DispatchAnswersDict` and `ArgumentDefaults`. |
| Dispatch.Arg | nakari/agent/loop.py:223-242 | `arguments.get(key, default)` on decoded arguments, or the `AttributeError` when they are not a dict. |
| Dispatch.EmbeddingModel | nakari/agent/loop.py:265 | The configured embedding model when it is set and non-empty, else `text-embedding-3-small`. |
| Dispatch.FloatList | nakari/agent/loop.py:272 | The vector becomes a list of the same floats, in order. |
| Dispatch.GenerateEmbedding | nakari/agent/loop.py:252-272 | The endpoint is asked once, with the chosen model. The answer succeeds exactly when the endpoint does. It then has the one key `vector`, a JSON list of the endpoint's floats in order; otherwise it is the endpoint's message. |
| Dispatch.ResultDict | nakari/agent/loop.py:306-313 | One result becomes a dict with exactly the six keys `title`, `link`, `snippet`, `date`, `thumbnailUrl`, `siteName`, each read from the result. |
| Dispatch.ResultDicts | nakari/agent/loop.py:305-315 | The comprehension succeeds exactly when every result is a `SearchResult` object, mapping them in order. On a plain dict it fails with `'dict' object has no attribute 'title'`. |
| Dispatch.WebSearchTool | nakari/agent/loop.py:275-316 | Without a client: the configuration error, and no search. With one: the search's own error text. Otherwise it succeeds exactly when every result is a `SearchResult` object, and fails with the `r.title` attribute error otherwise. On success it is `{"query", "totalResults", "results"}` from the response, with six fields per result, in order. |
| Dispatch.CypherStatement | nakari/agent/loop.py:222-230 | The statement the memory arms run: `cypher` defaulting to `""` and `params` to `{}`, or the `AttributeError` for non-dict arguments. |
| Dispatch.SearchArgs | nakari/agent/loop.py:239-242 | `query` defaults to `""`, `num_results` to `None` and `type` to `"search"`; the options carry nothing else. |
| Dispatch.ExecuteTool | nakari/agent/loop.py:205-249 | `_execute_tool` always answers a dict. An unknown name gives `{"error": "Unknown tool: <name>"}`, any failure `{"error": str(e)}`, and otherwise the arm's value. |
| Dispatch.DispatchAnswersDict | nakari/agent/loop.py:220-246 | Every arm that returns, returns a dict. |
| Dispatch.ArgumentDefaults | nakari/agent/loop.py:223-242 | With every argument missing, the arms run with `""`, `{}`, `""`, and `"search"` with no result count. |
| Dispatch.EmbeddingAnswer | nakari/agent/loop.py:235-237 | The `embedding` arm asks the endpoint for the `text` argument (`""` when missing) with the configured model. It answers the floats in order under the one key `vector`, or `{"error": message}`. |
| Dispatch.NonDictArguments | nakari/agent/loop.py:220-249 | Non-dict arguments make every arm that reads them fail with the `.get` `AttributeError`; the schema arm ignores them. |
| Dispatch.WebSearchUnconfigured | nakari/agent/loop.py:292-293 | Without a search client, `web_search` answers `{"error": "Search client not configured"}` whatever dict arguments it gets. Non-dict arguments fail first on `.get` (`NonDictArguments`). |
| Dispatch.WebSearchFailure | nakari/agent/loop.py:248-249 | A failing search is reported as `{"error": str(e)}` of the raised error. |
| Dispatch.RawResultsFail | nakari/agent/loop.py:302-316 | A search answering a plain dict first is reported as the `r.title` attribute error. |
| Dispatch.ObjectResultsEnvelope | nakari/agent/loop.py:302-316 | A search answering only `SearchResult`s yields the envelope with each result's six fields, in order. |
| Dispatch.SerperSuccessIsRaw | nakari/search/providers.py:129-139 | A successful Serper search echoes its query and holds only plain dicts. |
| Dispatch.WebSearchAsWrittenFails | nakari/agent/loop.py:302-316 | As written, every successful Serper search with at least one hit ends in `{"error": "'dict' object has no attribute 'title'"}`. |
| Dispatch.OneHitOutcome | nakari/search/providers.py:129-139 | The concrete Serper answer with one organic hit converts to exactly one result. |
| Dispatch.OneHitAnswer | nakari/search/providers.py:84-139 | A plain search over the one-hit transport succeeds with one result. |
| Dispatch.WebSearchAsWrittenExample | nakari/agent/loop.py:302-316 | Concretely: `web_search` for `"dafny"` over a Serper client that finds one hit answers the attribute error, not the hit. |
| Dispatch.WebSearchRoute | nakari/agent/loop.py:239-249 | The `web_search` arm hands the query, `num_results` and `type` of its arguments to `_web_search`, and answers its envelope or `{"error": …}` of its failure. |
| Dispatch.WebSearchAnswer | nakari/agent/loop.py:302-316 | When the search answers only `SearchResult`s, `_web_search` answers the response's query and total and one dict per result, in order. |
| Dispatch.CorrectedSearchEnvelope | nakari/agent/loop.py:295-316 | With results read back through `SearchResult.from_dict`, `_web_search` answers the query, the total and one dict per raw hit, in hit order. |
| Dispatch.WebSearchCorrected | nakari/agent/loop.py:302-316 | With results read back through `SearchResult.from_dict`, the tool answers the query, the total and per hit its six fields, in hit order. |
| Memory.LabelList | nakari/memory/__init__.py:147 | `list(value._labels)`: one string per label, in order. |
| Memory.ConvertValue | nakari/memory/__init__.py:132-165 | `_convert_value`. JSON data comes back unchanged. A node becomes a dict with `_type`, `_labels` and its property keys; a relationship, one with `_type`, `_relationshipType` and its property keys. Lists keep their length and dicts their keys. The per-branch values are stated by `ConvertNode`, `ConvertRelationship` and `ConvertOthers`. |
| Memory.RecordDictSnoc | nakari/memory/__init__.py:128-129 | One more field of the row is one more assignment `result[key] = _convert_value(value)`. |
| Memory.ConvertRecord | nakari/memory/__init__.py:118-130 | The loop builds exactly `RecordDict` of the row. |
| Memory.RecordDictFaithful | nakari/memory/__init__.py:127-130 | The converted row has exactly the row's keys, and a key that occurs once maps to its converted value. |
| Memory.ConvertNode | nakari/memory/__init__.py:145-149 | A value with `_labels` is a node even when it also has `_type`: the `_type`/`_labels` tags merged with the properties, copied verbatim, which override the tags. |
| Memory.ConvertRelationship | nakari/memory/__init__.py:150-157 | A value with `_type` and no `_labels` becomes the `relationship` tags merged with its verbatim properties. |
| Memory.ConvertOthers | nakari/memory/__init__.py:158-165 | Lists convert element-wise in order, dicts keep their keys with converted values, temporal values become their text, and anything else is returned unchanged. |
| Memory.QueryEnvelope | nakari/memory/__init__.py:39-42 | `{"records": rs}`, with one converted dict per row, in row order, or the store's error. |
| Memory.WriteEnvelope | nakari/memory/__init__.py:56-67 | `{"stats": ...}` built from the summary counters, or the store's error. |
| Memory.StatsFaithful | nakari/memory/__init__.py:59-66 | The stats have exactly the six counter keys, each copied from the summary. |
| Memory.Lookup | nakari/memory/__init__.py:81-97 | `record[key]` succeeds exactly when the row has the key, returning the first field with it; otherwise `KeyError` with the quoted key. |
| Memory.SchemaEnvelope | nakari/memory/__init__.py:69-103 | `{"labels", "relationshipTypes", "propertyKeys"}` when all three steps succeed; otherwise the first failing step's error. |
| Memory.SchemaIssued | nakari/memory/__init__.py:77-97 | The schema steps issue the labels, relationship-types and property-keys statements in that order, stopping after the first failure; all three when the schema succeeds. |
| Memory.SchemaFallback | nakari/memory/__init__.py:80-97 | A statement that returns no record, or an empty (falsy) one, yields `[]` for its field. |
| Memory.SchemaMissingColumn | nakari/memory/__init__.py:80-81 | A non-empty labels record without a `labels` column ends `schema` with the `KeyError` `'labels'`. |
| Memory.MemoryClient.constructor | nakari/memory/__init__.py:13-25 | A client over the given store has issued nothing yet. |
| Memory.MemoryClient.Query | nakari/memory/__init__.py:27-42 | `query` issues exactly its statement and answers the query envelope of its rows. |
| Memory.MemoryClient.Write | nakari/memory/__init__.py:44-67 | `write` issues exactly its statement, with no read/write mode distinction, and answers the stats envelope. |
| Memory.MemoryClient.Schema | nakari/memory/__init__.py:69-103 | `schema` issues the introspection statements in order and answers the schema envelope. |
| SearchTypes.DefaultOptions | nakari/search/types.py:55-63 | `SearchOptions()` has type `"search"` and every other field `None`. |
| SearchTypes.SearchResultFromDict | nakari/search/types.py:21-31 | Title, link and snippet default to `""`; date, thumbnail URL and site name to `None`; all read from the camelCase keys. |
| SearchTypes.SearchResponseFromDict | nakari/search/types.py:43-52 | No `results` gives an empty list. A list of dicts maps one to one, in order, through `SearchResult.from_dict`. `query` defaults to `""`, and `totalResults` and `metadata` to `None`. |
| SearchErrors.SearchError.constructor | nakari/search/errors.py:7-16 | A new error has the message, the code (default `SEARCH_ERROR`) and no context. |
| SearchErrors.SearchError.AuthError | nakari/search/errors.py:24-28 | A `SearchAuthError` is a `SearchError` with code `AUTH_ERROR` and default message `Authentication failed`. |
| SearchErrors.SearchError.RateLimitError | nakari/search/errors.py:31-35 | A `SearchRateLimitError` is a `SearchError` with code `RATE_LIMIT_ERROR` and default message `Rate limit exceeded`. |
| SearchErrors.SearchError.WithContext | nakari/search/errors.py:18-21 | `with_context` replaces the context by the keyword map, changes nothing else, and returns the same object. |
| SearchProviders.NewSerperProvider | nakari/search/providers.py:44-60 | The key and timeout are kept. An empty or absent base URL falls back to `https://google.serper.dev`. |
| SearchProviders.TableGet | nakari/search/providers.py:93 | `table.get(t, default)`: the entry or the default, and a `TypeError` exactly for an unhashable `t`. |
| SearchProviders.EndpointTable | nakari/search/providers.py:87-93 | Each search type has its own endpoint, `"/" + type`, and its own result key (`organic` for `search`); any other hashable type falls back to `/search` and `organic`. |
| SearchProviders.Payload | nakari/search/providers.py:96-102 | The payload always holds `"q": query`, and holds `num`, `hl` and `gl` exactly when the options' result count, language and region are truthy; nothing else. |
| SearchProviders.RequestOf | nakari/search/providers.py:84-112 | The posted request goes to base URL plus endpoint, with the payload and the API-key and JSON headers, or fails with the lookup's `TypeError` first. |
| SearchProviders.StatusError | nakari/search/providers.py:115-127 | No error below 400. Otherwise, in order: 401/403 is `SearchAuthError`, 429 is `SearchRateLimitError`, anything else `SEARCH_ERROR` with code `HTTP_ERROR`. Each has the status code in its context. |
| SearchProviders.ConvertItemFields | nakari/search/providers.py:181-194 | A converted hit has title, link and snippet (default `""`) plus the type's own fields (news: date and `siteName` from `source`; images: `thumbnailUrl` from `imageUrl`; videos: from `thumbnail`), and nothing else. |
| SearchProviders.ConvertedResults | nakari/search/providers.py:156-198 | `_convert_response` succeeds only for a hashable type and a dict body. Every converted hit then has exactly the base keys plus the type's own. Its failure cases are stated by `ConvertedResultsShape`. |
| SearchProviders.TotalResults | nakari/search/providers.py:135-137 | `data.get("searchInformation", {}).get("totalResults")` succeeds exactly when the section is absent or a dict. It gives `None` when the section is absent, and the section's `totalResults` (default `None`) otherwise. |
| SearchProviders.Outcome | nakari/search/providers.py:111-154 | Everything `search` raises after posting is a `SearchError`. A success needs a decoded body with a status below 400, and echoes the query. The per-case errors are stated by `OutcomeClassification`. |
| SearchProviders.ConvertedResultsShape | nakari/search/providers.py:168-198 | `_convert_response` fails with the `TypeError` for an unhashable type, with the `AttributeError` for a non-dict body, or with the error of iterating the raw hits as dicts. Otherwise it yields one converted hit per raw hit, in order. |
| SearchProviders.OutcomeClassification | nakari/search/providers.py:111-154 | Timeout gives `TIMEOUT_ERROR`, a request error `REQUEST_ERROR`, other failures and an undecodable body `UNKNOWN_ERROR`, and status errors pass through unchanged. A success echoes the query and holds plain dicts. Every error is one of the six codes. |
| SearchProviders.SearchSpec | nakari/search/providers.py:67-154 | Only an unhashable search type escapes as something other than a `SearchError`, with the `TypeError` text. |
| SearchProviders.SearchSuccess | nakari/search/providers.py:129-139 | On a well-formed answer: one converted hit per raw hit, in order, the input query, and `totalResults` from `searchInformation`, or `None` without it. |
| SearchProviders.ConvertedHitReadsBack | nakari/search/providers.py:181-194 | `SearchResult.from_dict` of a converted hit recovers every field the conversion wrote: both sides use the same camelCase keys. |
| SearchProviders.AsSearchResults | nakari/search/types.py:34-41 | The intended conversion: each plain dict is read back as a `SearchResult`, one to one, in order, with query and total kept. |
| SearchProviders.SearchSpecCorrected | nakari/search/providers.py:132-139 | The corrected search fails exactly when the original does, with the same failure. On success it holds the original response with each result read back as a `SearchResult`, one to one, in order. |
| SearchProviders.ListDictsFirstFailure | nakari/search/providers.py:180-182 | The error is that of the first raw hit that is not a dict. |
| SearchProviders.ConvertAllDicts | nakari/search/providers.py:180-198 | When every raw hit is a dict, the comprehension yields the converted hits one per raw hit, in order. |
| SearchProviders.ConvertResponse | nakari/search/providers.py:156-198 | The method computes `ConvertedResults`. |
| SearchProviders.ConvertHits | nakari/search/providers.py:180-198 | The append loop yields one converted hit per raw hit, in order, or the first non-dict's error. |
| SearchProviders.Search | nakari/search/providers.py:67-154 | The imperative `search` (payload built field by field, status checks, `except` clauses) raises or returns exactly what `SearchSpec` says, and every raised error object is new. |
| SearchProviders.BuildPayload | nakari/search/providers.py:96-102 | The conditional inserts build exactly `Payload`. |
| SearchProviders.HandleOutcome | nakari/search/providers.py:111-154 | The `try` body and its `except` clauses end as `Outcome` says. |
| SearchProviders.TransportFailure | nakari/search/providers.py:141-154 | A timeout, request error or other failure raises the matching new `SearchError`. |
| SearchProviders.HandleResponse | nakari/search/providers.py:112-139 | An answer raises by status, or is decoded and converted, as `Outcome` says. |
| SearchProviders.HandleBody | nakari/search/providers.py:129-139 | Decoding failures raise `UNKNOWN_ERROR`, and a decoded body is converted. |
| SearchProviders.HandleData | nakari/search/providers.py:131-139 | The conversion of the decoded body ends as `BodyOutcome` says. |
| SearchProviders.RaiseForStatus | nakari/search/providers.py:115-127 | The status checks raise a new error of the class and code `StatusError` gives, and only for statuses of 400 or more. |
| SearchProviders.NewTimeout | nakari/search/providers.py:141-144 | `Request timed out`, code `TIMEOUT_ERROR`, with the timeout in its context. |
| SearchProviders.NewTransportError | nakari/search/providers.py:145-148 | `Request failed: ...`, code `REQUEST_ERROR`, with the error text in its context. |
| SearchProviders.NewUnexpected | nakari/search/providers.py:151-154 | `Unexpected error: ...`, code `UNKNOWN_ERROR`, with the error text in its context. |
| SearchClient.SearchCall | nakari/search/client.py:19-34 | `search` forwards the query and the options to the provider unchanged. |
| SearchClient.NewsOptions | nakari/search/client.py:48-54 | `search_news` always sets type `"news"`. It copies result count, language, region and timeout from the given options, or leaves them all `None` without options. |
| SearchClient.NewsCall | nakari/search/client.py:36-55 | A news search passes the query and the rewritten options. |
| SearchClient.ConnectivityCall | nakari/search/client.py:57-63 | `verify_connectivity` searches for `"test"` with no options. |
| SearchClient.CreateSerperClient | nakari/search/client.py:66-82 | `create_serper_client` wraps a Serper provider with the given key, base URL and timeout (default 20). |
| SearchClient.NewsSearchPostsToNews | nakari/search/client.py:36-55 | A news search posts the query with the API key to base URL plus `/news`, and reads the `news` key of the answer. |
| SearchClient.ConnectivityPostsPlainSearch | nakari/search/client.py:57-63 | The connectivity probe posts exactly `{"q": "test"}` to `/search`. |
| SearchClient.CreatedClientBaseUrl | nakari/search/client.py:66-82 | A client built without a base URL has timeout 20 and posts under `https://google.serper.dev`. |
| Tools.Names | nakari/agent/tools.py:17-142 | The names of a tool list, one per tool, in order. |
| Tools.MemoryTools | nakari/agent/tools.py:8-142 | The five catalog entries, in order, are all strict object-parameter functions with `additionalProperties` false. Memory query/write require `cypher` and `params`, embedding requires `text`, web search requires `query`. The schema tool has no properties, and the `type` enum is the four search types. |
| Tools.CatalogNamesDistinct | nakari/agent/tools.py:17-142 | No two catalog entries share a name. |
| Tools.RequiredAreDeclared | nakari/agent/tools.py:17-142 | Every required argument of every entry is one of its declared properties. |
| Tools.CatalogMembership | nakari/agent/tools.py:21-114 | A name is in the catalog exactly when it is one of the five tool names. |

## Left out

- async/await: the code is sequential (`parallel_tool_calls=False`), and the model uses ordinary sequential calls.
- The OpenAI chat and embeddings calls, the Neo4j driver and Cypher execution, and the httpx transport: they are foreign calls, replaced by the oracles above. The query language is not modelled.
- `json.loads`/`json.dumps`: arguments arrive already decoded (`RawArgs`), and a tool message keeps, as `output`, the JSON value whose text is its `content`.
- Dict key order: dicts are maps.
- `str()` of driver temporal values and other objects: the text is a field of the value.
- Floats (embedding vectors, a float `num_results`) are opaque bit patterns.
- `response.choices[0]` on an empty choice list: its `IndexError` is folded into the chat oracle's error.
- The caller's `history` is a value, so it cannot be mutated: the model cannot state the non-mutation, which holds by construction.
- `tools=get_memory_tools()` in a request is the flag `Request.offersTools`; the catalog itself is `Tools.MemoryTools`.
- `SYSTEM_PROMPT` (nakari/agent/prompt.py) is an opaque string, `LoopOptions.systemPrompt`.
- nakari/cli.py, nakari/config/__init__.py and the package `__init__` re-exports are not part of this model: they are terminal UI, environment loading and re-exports.
- `MemoryClient.verify_connectivity` and `close`, and `SerperProvider.close`/`name`: they only talk to the driver or the HTTP client.
- The exception classes of the driver, httpx and `json` are told apart only by the constructors of `HttpOutcome`/`JsonBody` and by the message text each produces.
- The `MemoryClient`'s log of issued statements is not threaded through the loop. Instead, the loop sees the services for each buffer through `LoopOptions.world`.
- ReactLoop.RunReactLoop: the step callback is modelled only as present or absent (`LoopOptions.hasOnStep`), and is assumed never to raise. In the code, `_emit_step` (nakari/agent/loop.py:319-327) calls it unguarded, from loop.py:152, 164-177 and 201, outside any `try`. An exception from it therefore ends `run_react_loop` with that exception. The CLI's own handler (nakari/cli.py:343-344, 91) raises `AttributeError` when tool arguments decode to a non-dict such as `[1]`. The model does not capture that exit.
- ReactLoop.RunOutcome: holds only for a callback that never raises; a raising callback ends the run with its own exception, not with the chat text or the chat error.
- ReactLoop.ResponseStepOnce: holds only for a callback that never raises; one that raises on the `response` step ends the run with its exception instead of the text.
- ReactLoop.PlainReplyStops: holds only for a callback that never raises, for the same reason.
- ReactLoop.ToolTurnsSteps: holds only for a callback that never raises. A raise on a round's `tool_call` or `tool_result` step stops the round there, dispatching nothing further and appending no further tool message.
- ReactLoop.ToolTurnsMessages: holds only for a callback that never raises. Both steps of a call are emitted before its tool message is appended (nakari/agent/loop.py:164-185). A raise on either step therefore ends the round without that message, leaving fewer than one message per call.
- ReactLoop.RunContinues: holds only for a callback that never raises. A raise during a round ends the run with that exception, so no next request follows it.
- The exit function `Leave` is only meaningful on a state the loop stops at (`Stops`). Every state `Iterate` returns is one, as `IterateCount` proves, and no other state reaches it.

## Findings

| source | as written | input that shows it | evidently intended | confidence | as-written member | corrected member |
|---|---|---|---|---|---|---|
| nakari/agent/loop.py:302-316 with nakari/search/providers.py:180-198 | `SerperProvider._convert_response` returns plain dicts, and `search` puts them in `SearchResponse.results` unchanged. `_web_search` then reads `r.title`, which a dict does not have. | `web_search` with arguments `{"query": "dafny"}`, over a Serper client whose answer has one organic hit `{"title": "Dafny"}`: status 200, body `{"organic": [{"title": "Dafny"}]}`. | Each result is read back as a `SearchResult` (the field type `SearchResponse.results` declares). The tool then answers `{"query", "totalResults", "results"}` with the six fields of each hit. | not executed | Dispatch.WebSearchAsWrittenFails, Dispatch.WebSearchAsWrittenExample | SearchProviders.SearchSpecCorrected, Dispatch.WebSearchCorrected |
