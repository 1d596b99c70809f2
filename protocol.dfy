/**
 * MCP messages and the request handler (app/mcp/protocol.py). A message is
 * a value: its fields are set at construction (the transport's id right
 * after). Python `None` is `Null`. The tool registry's lookup and the tool
 * itself, and the agent service's tool list, are foreign and come in as
 * parameters.
 */
module Protocol {
  import opened Wrappers
  import opened Strings
  import opened Json

  datatype MessageType = Request | Response | Error

  datatype Message = Message(kind: MessageType, methodName: Json, params: Json, id: Json)

  /** `params or {}` as stored by the constructor: a falsy value becomes an empty dict. */
  predicate Normalized(params: Json) {
    Truthy(params) || params == Obj([])
  }

  /** `MCPMessage(kind, methodName, params)`: no id yet. */
  function NewMessage(kind: MessageType, methodName: Json, params: Json): (m: Message)
    ensures Normalized(m.params) && m.id == Null
    ensures Truthy(params) ==> m.params == params
    ensures !Truthy(params) ==> m.params == Obj([])
  {
    Message(kind, methodName, Or(params, Obj([])), Null)
  }

  /** `to_dict`: method and params, then the id when it is not None. */
  function ToDict(m: Message): (d: Dict)
    ensures Get(d, "method") == Some(m.methodName) && Get(d, "params") == Some(m.params)
    ensures HasKey(d, "id") <==> m.id != Null
    ensures m.id != Null ==> Get(d, "id") == Some(m.id)
    ensures forall k :: HasKey(d, k) ==> k == "method" || k == "params" || k == "id"
  {
    var base: Dict := [("method", m.methodName), ("params", m.params)];
    var d := if m.id != Null then base + [("id", m.id)] else base;
    assert d[0] == ("method", m.methodName) && d[1] == ("params", m.params);
    assert forall k :: HasKey(d, k) ==> k == "method" || k == "params" || k == "id" by {
      forall k | HasKey(d, k) ensures k == "method" || k == "params" || k == "id" {
        var i :| 0 <= i < |d| && d[i].0 == k;
      }
    }
    if m.id != Null then
      assert d[2] == ("id", m.id);
      assert Get(d, "id") == Some(m.id) by {
        GetConcat(base, [("id", m.id)], "id");
      }
      d
    else
      d
  }

  /**
   * `from_dict`: always a request; method defaults to "", params to `{}`
   * (and then through `params or {}`), id to None.
   */
  function FromDict(data: Dict): (m: Message)
    ensures m.kind == Request
    ensures m.methodName == GetOr(data, "method", Str("")) && m.id == GetOr(data, "id", Null)
    ensures !HasKey(data, "params") ==> m.params == Obj([])
    ensures Normalized(m.params)
  {
    var message := NewMessage(Request, GetOr(data, "method", Str("")), GetOr(data, "params", Obj([])));
    message.(id := GetOr(data, "id", Null))
  }

  /** Reading back a message's dict restores its method, params and id, as a request. */
  lemma FromDictToDict(m: Message)
    requires Normalized(m.params)
    ensures FromDict(ToDict(m)) == m.(kind := Request)
  {
    var d := ToDict(m);
    if m.id == Null {
      assert GetOr(d, "id", Null) == Null;
    }
  }

  /** A request for `tools/call` with the tool's name and arguments. */
  function CallToolRequest(toolName: string, arguments: Json, reqId: Json): (m: Message)
    ensures m.kind == Request && m.methodName == Str("tools/call") && m.id == reqId
    ensures m.params.Obj? && Get(m.params.entries, "name") == Some(Str(toolName))
            && Get(m.params.entries, "arguments") == Some(arguments)
  {
    var params: Dict := [("name", Str(toolName)), ("arguments", arguments)];
    GetDistinct(params, 0);
    GetDistinct(params, 1);
    NewMessage(Request, Str("tools/call"), Obj(params)).(id := reqId)
  }

  /** A response carrying `{"result": result}`. */
  function CallToolResponse(result: Json, respId: Json): (m: Message)
    ensures m.kind == Response && m.methodName == Str("") && m.id == respId
    ensures m.params == Obj([("result", result)])
  {
    NewMessage(Response, Str(""), Obj([("result", result)])).(id := respId)
  }

  /** A `tools/list` request, with empty params. */
  function ListToolsRequest(reqId: Json): (m: Message)
    ensures m.kind == Request && m.methodName == Str("tools/list") && m.params == Obj([]) && m.id == reqId
  {
    NewMessage(Request, Str("tools/list"), Null).(id := reqId)
  }

  /** A response carrying `{"tools": tools}`. */
  function ListToolsResponse(tools: Json, respId: Json): (m: Message)
    ensures m.kind == Response && m.params == Obj([("tools", tools)]) && m.id == respId
  {
    NewMessage(Response, Str(""), Obj([("tools", tools)])).(id := respId)
  }

  /** An error response: `{"error": {"code", "message", "data" or {}}}`. */
  function ErrorResponse(code: int, message: string, data: Json, respId: Json): (m: Message)
    ensures m.kind == Error && m.methodName == Str("") && m.id == respId
    ensures m.params == Obj([("error", Obj([("code", Num(code)), ("message", Str(message)),
                                            ("data", if Truthy(data) then data else Obj([]))]))])
  {
    NewMessage(Error, Str(""), Obj([("error", Obj([("code", Num(code)), ("message", Str(message)),
                                                   ("data", Or(data, Obj([])))]))])).(id := respId)
  }

  /** The error code of an error response. */
  function CodeOf(m: Message): Option<int> {
    if m.kind == Error && m.params.Obj? && Get(m.params.entries, "error").Some?
       && Get(m.params.entries, "error").value.Obj?
       && Get(Get(m.params.entries, "error").value.entries, "code").Some?
       && Get(Get(m.params.entries, "error").value.entries, "code").value.Num?
    then Some(Get(Get(m.params.entries, "error").value.entries, "code").value.n)
    else None
  }

  lemma ErrorResponseCode(code: int, message: string, data: Json, respId: Json)
    ensures CodeOf(ErrorResponse(code, message, data, respId)) == Some(code)
  {
    var m := ErrorResponse(code, message, data, respId);
    assert Get(m.params.entries, "error") == Some(m.params.entries[0].1);
    assert Get(m.params.entries[0].1.entries, "code") == Some(Num(code));
  }

  /** What looking the tool up and calling it produced. */
  datatype ToolOutcome =
    | Returned(value: Json)     // the tool's result
    | KeyMissing                // a KeyError, which the handler reports as 404
    | Failed(error: string)     // any other exception, with its text

  /**
   * `handle_call_tool`: `.get` on params that are not a dict raises and is
   * reported as 500; a falsy name is 400; then the tool runs on the
   * arguments (default `{}`).
   */
  function HandleCallTool(message: Message, invoke: (Json, Json) -> ToolOutcome): (r: Message)
    ensures r.id == message.id
  {
    if !message.params.Obj? then
      ErrorResponse(500, "Error calling tool: " + NoGet(message.params), Null, message.id)
    else
      var toolName := GetOr(message.params.entries, "name", Null);
      var arguments := GetOr(message.params.entries, "arguments", Obj([]));
      if !Truthy(toolName) then ErrorResponse(400, "Missing tool name in parameters", Null, message.id)
      else
        match invoke(toolName, arguments)
        case Returned(v) => CallToolResponse(v, message.id)
        case KeyMissing => ErrorResponse(404, "Tool '" + PyStr(toolName) + "' not found", Null, message.id)
        case Failed(e) => ErrorResponse(500, "Error calling tool: " + e, Null, message.id)
  }

  /**
   * The outcomes of `handle_call_tool`: 400 exactly for a falsy name, 404
   * exactly for a KeyError, a response with the tool's result exactly when
   * the tool returned, and 500 otherwise.
   */
  lemma CallToolOutcomes(message: Message, invoke: (Json, Json) -> ToolOutcome)
    ensures var r := HandleCallTool(message, invoke);
            var named := message.params.Obj? && Truthy(GetOr(message.params.entries, "name", Null));
            var outcome := if message.params.Obj?
                           then invoke(GetOr(message.params.entries, "name", Null),
                                       GetOr(message.params.entries, "arguments", Obj([])))
                           else KeyMissing;
            (CodeOf(r) == Some(400) <==> message.params.Obj? && !named)
            && (CodeOf(r) == Some(404) <==> named && outcome == KeyMissing)
            && (CodeOf(r) == Some(500) <==> !message.params.Obj? || (named && outcome.Failed?))
            && (r.kind == Response <==> named && outcome.Returned?)
            && (r.kind == Response ==> r.params == Obj([("result", outcome.value)]))
  {
    var r := HandleCallTool(message, invoke);
    if !message.params.Obj? {
      ErrorResponseCode(500, "Error calling tool: " + NoGet(message.params), Null, message.id);
    } else {
      var name := GetOr(message.params.entries, "name", Null);
      var outcome := invoke(name, GetOr(message.params.entries, "arguments", Obj([])));
      if !Truthy(name) {
        ErrorResponseCode(400, "Missing tool name in parameters", Null, message.id);
      } else if outcome == KeyMissing {
        ErrorResponseCode(404, "Tool '" + PyStr(name) + "' not found", Null, message.id);
      } else if outcome.Failed? {
        ErrorResponseCode(500, "Error calling tool: " + outcome.error, Null, message.id);
      }
    }
  }

  /** `handle_health_check`: the result `{"status": "healthy"}`. */
  function HandleHealthCheck(message: Message): (m: Message)
    ensures m.kind == Response && m.id == message.id && CodeOf(m).None?
    ensures m.params == Obj([("result", Obj([("status", Str("healthy"))]))])
  {
    CallToolResponse(Obj([("status", Str("healthy"))]), message.id)
  }

  /** The three methods `handle_request` dispatches on. */
  const DispatchedMethods: set<Json> := {Str("tools/call"), Str("tools/list"), Str("health/check")}

  /**
   * `handle_request`: dispatch on the method; an unknown method is 400, and
   * an exception from the agent service's tool list is 500.
   */
  function HandleRequest(message: Message, invoke: (Json, Json) -> ToolOutcome, availableTools: Result<Json>): (r: Message)
    ensures r.id == message.id
  {
    if message.methodName == Str("tools/call") then HandleCallTool(message, invoke)
    else if message.methodName == Str("tools/list") then
      match availableTools
      case Ok(tools) => ListToolsResponse(tools, message.id)
      case Raised(e) => ErrorResponse(500, "Error processing request: " + e, Null, message.id)
    else if message.methodName == Str("health/check") then HandleHealthCheck(message)
    else ErrorResponse(400, "Unknown method: " + PyStr(message.methodName), Null, message.id)
  }

  /** A 400 for an unknown method happens exactly when the method is not one of the three. */
  lemma UnknownMethodIff(message: Message, invoke: (Json, Json) -> ToolOutcome, availableTools: Result<Json>)
    ensures CodeOf(HandleRequest(message, invoke, availableTools)) == Some(400) && message.methodName != Str("tools/call")
            <==> message.methodName !in DispatchedMethods
  {
    var r := HandleRequest(message, invoke, availableTools);
    if message.methodName !in DispatchedMethods {
      ErrorResponseCode(400, "Unknown method: " + PyStr(message.methodName), Null, message.id);
    } else if message.methodName == Str("tools/list") {
      if availableTools.Raised? {
        ErrorResponseCode(500, "Error processing request: " + availableTools.error, Null, message.id);
      }
    }
  }

  /** A health check answers `{"result": {"status": "healthy"}}` under the request's id. */
  lemma HealthCheckHealthy(message: Message, invoke: (Json, Json) -> ToolOutcome, availableTools: Result<Json>)
    requires message.methodName == Str("health/check")
    ensures var r := HandleRequest(message, invoke, availableTools);
            r.kind == Response && r.id == message.id
            && r.params == Obj([("result", Obj([("status", Str("healthy"))]))])
  {
  }

  /** A call without a usable name is answered 400 and the tool is never run. */
  lemma MissingNameIs400(message: Message, invoke: (Json, Json) -> ToolOutcome, availableTools: Result<Json>)
    requires message.methodName == Str("tools/call") && message.params.Obj?
    requires !HasKey(message.params.entries, "name") || Get(message.params.entries, "name") == Some(Str(""))
    ensures CodeOf(HandleRequest(message, invoke, availableTools)) == Some(400)
  {
    ErrorResponseCode(400, "Missing tool name in parameters", Null, message.id);
  }
}
