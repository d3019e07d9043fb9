/** nakari/agent/tools.py: the function-calling catalog sent to the model. */
module Tools {
  import opened Wrappers
  import SearchTypes

  /** One parameter's JSON schema. */
  datatype Property = Property(jsonType: string, description: string, choices: Option<seq<string>> := None)

  /** The `parameters` object of a tool. `required` is absent for a tool
      without properties. */
  datatype Parameters = Parameters(
    jsonType: string, properties: map<string, Property>, required: Option<seq<string>>, additionalProperties: bool)

  /** `{"type": ..., "function": {"name", "description", "strict", "parameters"}}`. */
  datatype Tool = Tool(kind: string, name: string, description: string, strict: bool, parameters: Parameters)

  const CYPHER_DESCRIPTION := "Parameterized Cypher query string"
  const PARAMS_DESCRIPTION := "Query parameters for the $paramName placeholders"

  function CypherParameters(): Parameters
  {
    Parameters("object",
      map["cypher" := Property("string", CYPHER_DESCRIPTION), "params" := Property("object", PARAMS_DESCRIPTION)],
      Some(["cypher", "params"]), false)
  }

  const MEMORY_QUERY := Tool("function", "memory_query",
    "Execute a read-only Cypher query on your memory database. "
    + "Use this to retrieve memories, experiences, and knowledge. "
    + "Always use parameterized queries with $paramName syntax.",
    true, CypherParameters())

  const MEMORY_WRITE := Tool("function", "memory_write",
    "Execute a write Cypher query on your memory database. "
    + "Use this to create, update, or delete nodes, relationships, "
    + "and properties. Always use parameterized queries with $paramName syntax.",
    true, CypherParameters())

  const MEMORY_SCHEMA := Tool("function", "memory_schema",
    "Inspect the current structure of your memory database. "
    + "Returns all node labels, relationship types, and property keys "
    + "currently in use. Use this to understand what you've stored so far.",
    true, Parameters("object", map[], None, false))

  const EMBEDDING := Tool("function", "embedding",
    "Generate a vector embedding for the given text. "
    + "Useful for semantic search and similarity comparisons.",
    true, Parameters("object", map["text" := Property("string", "Text to generate embedding for")],
                     Some(["text"]), false))

  const WEB_SEARCH := Tool("function", "web_search",
    "Search the internet for current information. "
    + "Use this when you need up-to-date facts, news, or external knowledge.",
    true, Parameters("object",
      map["query" := Property("string", "Search query string"),
          "num_results" := Property("number", "Number of results to return (optional)"),
          "type" := Property("string", "Type of search to perform", Some(["search", "news", "images", "videos"]))],
      Some(["query"]), false))

  /** The names of a list of tools, in order. */
  function Names(tools: seq<Tool>): (names: seq<string>)
    ensures |names| == |tools| && forall i :: 0 <= i < |tools| ==> names[i] == tools[i].name
  {
    if tools == [] then [] else [tools[0].name] + Names(tools[1..])
  }

  /** `get_memory_tools()`: five strict function tools with distinct names,
      no extra properties allowed, each marking as required the arguments
      its schema lists (the dispatcher itself defaults every one). */
  function MemoryTools(): (tools: seq<Tool>)
    ensures Names(tools) == ["memory_query", "memory_write", "memory_schema", "embedding", "web_search"]
    ensures forall i :: 0 <= i < |tools| ==>
              tools[i].kind == "function" && tools[i].strict && tools[i].parameters.jsonType == "object" &&
              !tools[i].parameters.additionalProperties
    ensures tools[0].parameters.required == tools[1].parameters.required == Some(["cypher", "params"])
    ensures tools[2].parameters.properties == map[] && tools[2].parameters.required.None?
    ensures tools[3].parameters.required == Some(["text"])
    ensures tools[4].parameters.required == Some(["query"])
    ensures tools[4].parameters.properties.Keys == {"query", "num_results", "type"}
    ensures tools[4].parameters.properties["type"].choices == Some(SearchTypes.SEARCH_TYPES)
  {
    var tools := [MEMORY_QUERY, MEMORY_WRITE, MEMORY_SCHEMA, EMBEDDING, WEB_SEARCH];
    assert Names(tools) == ["memory_query", "memory_write", "memory_schema", "embedding", "web_search"];
    tools
  }

  /** No two tools share a name. */
  lemma CatalogNamesDistinct()
    ensures var tools := MemoryTools();
      forall i, j :: 0 <= i < j < |tools| ==> tools[i].name != tools[j].name
  {
    var names := Names(MemoryTools());
    assert names[0][7] == 'q' && names[1][7] == 'w' && names[2][7] == 's';
    assert |names[0]| == 12 && |names[1]| == 12 && |names[2]| == 13 && |names[3]| == 9 && |names[4]| == 10;
  }

  /** Every required argument is a declared property. */
  lemma RequiredAreDeclared()
    ensures var tools := MemoryTools();
      forall i :: 0 <= i < |tools| && tools[i].parameters.required.Some? ==>
        forall k :: k in tools[i].parameters.required.value ==> k in tools[i].parameters.properties
  {
    var tools := MemoryTools();
    assert tools == [MEMORY_QUERY, MEMORY_WRITE, MEMORY_SCHEMA, EMBEDDING, WEB_SEARCH];
  }

  /** A name is in the catalog. */
  predicate InCatalog(name: string)
  {
    name in Names(MemoryTools())
  }

  /** Membership, spelled out. */
  lemma CatalogMembership(name: string)
    ensures InCatalog(name) <==>
              name in {"memory_query", "memory_write", "memory_schema", "embedding", "web_search"}
  {
  }
}
