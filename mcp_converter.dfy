/**
 * Conversion of MCP tool definitions to the OpenAI function-calling format
 * (app/tools/mcp_converter.py). A tool definition is any value: the Python
 * code raises an AttributeError when it calls `.get` on a non-dict, and so
 * does the model.
 */
module McpConverter {
  import opened Wrappers
  import opened Json

  /** The keys `mcp_schema_to_openai` can produce. */
  const SchemaKeys: seq<string> := ["type", "properties", "required", "additionalProperties", "description"]

  /** The schema entries: type and properties with defaults, then the three optional keys if present. */
  function SchemaEntries(schema: Dict): Dict {
    [("type", GetOr(schema, "type", Str("object"))), ("properties", GetOr(schema, "properties", Obj([])))]
    + Copied(schema, "required") + Copied(schema, "additionalProperties") + Copied(schema, "description")
  }

  lemma SchemaLookup(schema: Dict, k: string)
    ensures Get(SchemaEntries(schema), k) ==
              if k == "type" then Some(GetOr(schema, "type", Str("object")))
              else if k == "properties" then Some(GetOr(schema, "properties", Obj([])))
              else if k == "required" || k == "additionalProperties" || k == "description" then Get(schema, k)
              else None
  {
    var head: Dict := [("type", GetOr(schema, "type", Str("object"))), ("properties", GetOr(schema, "properties", Obj([])))];
    var a, b, c := Copied(schema, "required"), Copied(schema, "additionalProperties"), Copied(schema, "description");
    assert SchemaEntries(schema) == head + a + b + c;
    GetConcat(head + a + b, c, k);
    GetConcat(head + a, b, k);
    GetConcat(head, a, k);
    assert head[1..] == [head[1]];
  }

  /**
   * `mcp_schema_to_openai`: type defaults to "object" and properties to an
   * empty dict; "required", "additionalProperties" and "description" are
   * copied exactly when present; every other key is dropped.
   */
  function SchemaToOpenAI(schema: Dict): (r: Dict)
    ensures Get(r, "type") == Some(GetOr(schema, "type", Str("object")))
    ensures Get(r, "properties") == Some(GetOr(schema, "properties", Obj([])))
    ensures Get(r, "required") == Get(schema, "required")
    ensures Get(r, "additionalProperties") == Get(schema, "additionalProperties")
    ensures Get(r, "description") == Get(schema, "description")
    ensures forall k :: k !in SchemaKeys ==> !HasKey(r, k)
  {
    var r := SchemaEntries(schema);
    SchemaLookup(schema, "type");
    SchemaLookup(schema, "properties");
    SchemaLookup(schema, "required");
    SchemaLookup(schema, "additionalProperties");
    SchemaLookup(schema, "description");
    assert forall k :: k !in SchemaKeys ==> !HasKey(r, k) by {
      forall k | k !in SchemaKeys ensures !HasKey(r, k) {
        SchemaLookup(schema, k);
      }
    }
    r
  }

  /** Converting a converted schema gives it back unchanged. */
  lemma SchemaToOpenAIIdempotent(schema: Dict)
    ensures SchemaToOpenAI(SchemaToOpenAI(schema)) == SchemaToOpenAI(schema)
  {
    var once := SchemaToOpenAI(schema);
    assert GetOr(once, "type", Str("object")) == GetOr(schema, "type", Str("object"));
    assert GetOr(once, "properties", Obj([])) == GetOr(schema, "properties", Obj([]));
    assert Copied(once, "required") == Copied(schema, "required");
    assert Copied(once, "additionalProperties") == Copied(schema, "additionalProperties");
    assert Copied(once, "description") == Copied(schema, "description");
  }

  /** The OpenAI tool record: `{"type": "function", "function": {name, description, parameters}}`. */
  function OpenAITool(name: Json, description: Json, parameters: Dict): Dict {
    [("type", Str("function")),
     ("function", Obj([("name", name), ("description", description), ("parameters", Obj(parameters))]))]
  }

  /** A definition `.get` can be applied to, with an input schema that is a dict too. */
  predicate Convertible(tool: Json) {
    tool.Obj? && GetOr(tool.entries, "inputSchema", Obj([])).Obj?
  }

  /**
   * `mcp_tool_to_openai_tool`: a function tool whose name and description
   * default to "" and whose parameters are the converted input schema.
   */
  function ToolToOpenAI(tool: Json): (r: Result<Dict>)
    ensures r.Ok? <==> Convertible(tool)
    ensures r.Ok? ==> r.value == OpenAITool(GetOr(tool.entries, "name", Str("")), GetOr(tool.entries, "description", Str("")),
                                            SchemaToOpenAI(GetOr(tool.entries, "inputSchema", Obj([])).entries))
  {
    if !tool.Obj? then Raised(NoGet(tool))
    else
      var inputSchema := GetOr(tool.entries, "inputSchema", Obj([]));
      if !inputSchema.Obj? then Raised(NoGet(inputSchema))
      else Ok(OpenAITool(GetOr(tool.entries, "name", Str("")), GetOr(tool.entries, "description", Str("")),
                         SchemaToOpenAI(inputSchema.entries)))
  }

  /**
   * `mcp_tools_to_openai_tools`: the conversion of each tool, in order; the
   * first tool that cannot be converted raises.
   */
  function ToolsToOpenAI(tools: seq<Json>): (r: Result<seq<Dict>>)
    ensures r.Ok? <==> forall i :: 0 <= i < |tools| ==> Convertible(tools[i])
    ensures r.Ok? ==> |r.value| == |tools| && forall i :: 0 <= i < |tools| ==> ToolToOpenAI(tools[i]) == Ok(r.value[i])
  {
    MapResult(ToolToOpenAI, tools)
  }

  /** An `MCPProxyTool` as constructed here; the client manager it also receives is not modelled. */
  datatype ProxyTool = ProxyTool(name: Json, description: Json, parameters: Dict, server: Json)

  /** The proxy for one tool definition; the server defaults to "unknown". */
  function ProxyFor(tool: Json): (r: Result<ProxyTool>)
    ensures r.Ok? <==> Convertible(tool)
    ensures r.Ok? ==> r.value.name == GetOr(tool.entries, "name", Str(""))
                      && r.value.description == GetOr(tool.entries, "description", Str(""))
                      && r.value.server == GetOr(tool.entries, "server", Str("unknown"))
                      && r.value.parameters == SchemaToOpenAI(GetOr(tool.entries, "inputSchema", Obj([])).entries)
  {
    if !tool.Obj? then Raised(NoGet(tool))
    else
      var inputSchema := GetOr(tool.entries, "inputSchema", Obj([]));
      if !inputSchema.Obj? then Raised(NoGet(inputSchema))
      else
        Ok(ProxyTool(GetOr(tool.entries, "name", Str("")), GetOr(tool.entries, "description", Str("")),
                     SchemaToOpenAI(inputSchema.entries), GetOr(tool.entries, "server", Str("unknown"))))
  }

  /**
   * `create_mcp_proxy_tools`: one proxy per definition, in order. The loop
   * stops at the first definition that raises.
   */
  method CreateMcpProxyTools(tools: seq<Json>) returns (r: Result<seq<ProxyTool>>)
    ensures r == MapResult(ProxyFor, tools)
  {
    var proxies: seq<ProxyTool> := [];
    var i := 0;
    assert tools[0..] == tools;
    PrependEmpty(MapResult(ProxyFor, tools));
    while i < |tools|
      invariant 0 <= i <= |tools|
      invariant Prepend(proxies, MapResult(ProxyFor, tools[i..])) == MapResult(ProxyFor, tools)
    {
      var proxy := ProxyFor(tools[i]);
      MapResultStep(ProxyFor, tools, i, proxies);
      if proxy.Raised? {
        return Raised(proxy.error);
      }
      proxies := proxies + [proxy.value];
      i := i + 1;
    }
    assert tools[i..] == [];
    assert proxies + [] == proxies;
    return Ok(proxies);
  }

  /** The proxies keep the definitions' order and number, each with the converted schema. */
  lemma ProxiesFollowDefinitions(tools: seq<Json>, i: int)
    requires MapResult(ProxyFor, tools).Ok? && 0 <= i < |tools|
    ensures |MapResult(ProxyFor, tools).value| == |tools|
    ensures var p := MapResult(ProxyFor, tools).value[i];
            tools[i].Obj? && p.name == GetOr(tools[i].entries, "name", Str(""))
            && p.server == GetOr(tools[i].entries, "server", Str("unknown"))
            && p.parameters == SchemaToOpenAI(GetOr(tools[i].entries, "inputSchema", Obj([])).entries)
  {
    assert ProxyFor(tools[i]) == Ok(MapResult(ProxyFor, tools).value[i]);
  }
}
