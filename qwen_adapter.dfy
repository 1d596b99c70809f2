/**
 * Conversion of MCP tool definitions to the Qwen tool format
 * (app/agents/adapters/qwen_adapter.py): one parameter record per property
 * of the input schema, in the order of the properties.
 */
module QwenAdapter {
  import opened Wrappers
  import opened Strings
  import opened Json
  import opened McpConverter

  /**
   * Python `name in container` for a string `name`: list membership,
   * substring, or dict key; any other container raises TypeError.
   */
  function PyIn(name: string, container: Json): (r: Result<bool>)
    ensures container.Arr? ==> r == Ok(Str(name) in container.items)
    ensures container.Obj? ==> r == Ok(HasKey(container.entries, name))
    ensures container.Str? ==> r == Ok(Contains(container.s, name))
    ensures r.Raised? <==> !(container.Arr? || container.Obj? || container.Str?)
  {
    match container
    case Arr(items) => Ok(Str(name) in items)
    case Obj(e) => Ok(HasKey(e, name))
    case Str(s) => Ok(Contains(s, name))
    case _ => Raised("argument of type '" + TypeName(container) + "' is not iterable")
  }

  /** The keys a parameter record can have. */
  const ParamKeys: seq<string> := ["name", "type", "description", "required", "enum", "default"]

  function ParamEntries(name: string, details: Dict, isRequired: bool): Dict {
    [("name", Str(name)), ("type", GetOr(details, "type", Str("string"))),
     ("description", GetOr(details, "description", Str(""))), ("required", Bool(isRequired))]
    + Copied(details, "enum") + Copied(details, "default")
  }

  lemma ParamLookup(name: string, details: Dict, isRequired: bool, k: string)
    ensures Get(ParamEntries(name, details, isRequired), k) ==
              if k == "name" then Some(Str(name))
              else if k == "type" then Some(GetOr(details, "type", Str("string")))
              else if k == "description" then Some(GetOr(details, "description", Str("")))
              else if k == "required" then Some(Bool(isRequired))
              else if k == "enum" || k == "default" then Get(details, k)
              else None
  {
    var e0, e1 := ("name", Str(name)), ("type", GetOr(details, "type", Str("string")));
    var e2, e3 := ("description", GetOr(details, "description", Str(""))), ("required", Bool(isRequired));
    var a, b := Copied(details, "enum"), Copied(details, "default");
    var tail := [e3] + a + b;
    assert ParamEntries(name, details, isRequired) == [e0] + ([e1] + ([e2] + tail));
    GetConcat([e0], [e1] + ([e2] + tail), k);
    GetConcat([e1], [e2] + tail, k);
    GetConcat([e2], tail, k);
    GetConcat([e3] + a, b, k);
    GetConcat([e3], a, k);
  }

  /**
   * The parameter record of property `name` with details `details`: the
   * details must be a dict (`.get` raises otherwise), then
   * `name in required` is evaluated, which raises for a non-container.
   */
  function Param(name: string, details: Json, required: Json): (r: Result<Dict>)
    ensures r.Ok? <==> details.Obj? && PyIn(name, required).Ok?
    ensures !details.Obj? ==> r == Raised(NoGet(details))
    ensures r.Ok? ==> Get(r.value, "name") == Some(Str(name))
                      && Get(r.value, "type") == Some(GetOr(details.entries, "type", Str("string")))
                      && Get(r.value, "description") == Some(GetOr(details.entries, "description", Str("")))
                      && Get(r.value, "required") == Some(Bool(PyIn(name, required).value))
                      && Get(r.value, "enum") == Get(details.entries, "enum")
                      && Get(r.value, "default") == Get(details.entries, "default")
                      && forall k :: k !in ParamKeys ==> !HasKey(r.value, k)
  {
    if !details.Obj? then Raised(NoGet(details))
    else
      match PyIn(name, required)
      case Raised(e) => Raised(e)
      case Ok(isRequired) =>
        var p := ParamEntries(name, details.entries, isRequired);
        ParamLookup(name, details.entries, isRequired, "name");
        ParamLookup(name, details.entries, isRequired, "type");
        ParamLookup(name, details.entries, isRequired, "description");
        ParamLookup(name, details.entries, isRequired, "required");
        ParamLookup(name, details.entries, isRequired, "enum");
        ParamLookup(name, details.entries, isRequired, "default");
        assert forall k :: k !in ParamKeys ==> !HasKey(p, k) by {
          forall k | k !in ParamKeys ensures !HasKey(p, k) {
            ParamLookup(name, details.entries, isRequired, k);
          }
        }
        Ok(p)
  }

  /** The conversion applied to each `(prop_name, prop_details)` pair. */
  function ParamOf(required: Json): ((string, Json)) -> Result<Dict> {
    (property: (string, Json)) => Param(property.0, property.1, required)
  }

  /** `properties.items()` raises AttributeError on a non-dict. */
  function NoItems(v: Json): string {
    "'" + TypeName(v) + "' object has no attribute 'items'"
  }

  /**
   * What `_convert_input_schema` returns or raises: properties default to
   * an empty dict and required to an empty list; the parameters follow the
   * properties in order, and the first property that raises stops it.
   */
  function SchemaParams(inputSchema: Json): (r: Result<seq<Dict>>)
    ensures !inputSchema.Obj? ==> r == Raised(NoGet(inputSchema))
    ensures inputSchema.Obj? && !GetOr(inputSchema.entries, "properties", Obj([])).Obj? ==>
              r == Raised(NoItems(GetOr(inputSchema.entries, "properties", Obj([]))))
    ensures inputSchema.Obj? && GetOr(inputSchema.entries, "properties", Obj([])).Obj? ==>
              var properties := GetOr(inputSchema.entries, "properties", Obj([])).entries;
              var required := GetOr(inputSchema.entries, "required", Arr([]));
              (r.Raised? <==> exists i :: 0 <= i < |properties| && Param(properties[i].0, properties[i].1, required).Raised?)
  {
    if !inputSchema.Obj? then Raised(NoGet(inputSchema))
    else
      var properties := GetOr(inputSchema.entries, "properties", Obj([]));
      var required := GetOr(inputSchema.entries, "required", Arr([]));
      if !properties.Obj? then Raised(NoItems(properties))
      else MapResult(ParamOf(required), properties.entries)
  }

  /** `_convert_input_schema`: the loop over the properties, appending one record each. */
  method ConvertInputSchema(inputSchema: Json) returns (r: Result<seq<Dict>>)
    ensures r == SchemaParams(inputSchema)
  {
    if !inputSchema.Obj? {
      return Raised(NoGet(inputSchema));
    }
    var properties := GetOr(inputSchema.entries, "properties", Obj([]));
    var required := GetOr(inputSchema.entries, "required", Arr([]));
    if !properties.Obj? {
      return Raised(NoItems(properties));
    }
    var items := properties.entries;
    var convert := ParamOf(required);
    var params: seq<Dict> := [];
    var i := 0;
    assert items[0..] == items;
    PrependEmpty(MapResult(convert, items));
    while i < |items|
      invariant 0 <= i <= |items|
      invariant Prepend(params, MapResult(convert, items[i..])) == MapResult(convert, items)
    {
      var param := Param(items[i].0, items[i].1, required);
      MapResultStep(convert, items, i, params);
      if param.Raised? {
        return Raised(param.error);
      }
      params := params + [param.value];
      i := i + 1;
    }
    assert items[i..] == [];
    assert params + [] == params;
    return Ok(params);
  }

  /**
   * Exactly one parameter per property, in order; each names its property,
   * is required exactly when the name is `in` the required list, and has
   * the type and description defaults and the copied enum and default.
   */
  lemma ParamsFollowProperties(inputSchema: Json, i: int)
    requires SchemaParams(inputSchema).Ok?
    ensures inputSchema.Obj? && GetOr(inputSchema.entries, "properties", Obj([])).Obj?
    ensures var properties := GetOr(inputSchema.entries, "properties", Obj([])).entries;
            var required := GetOr(inputSchema.entries, "required", Arr([]));
            var params := SchemaParams(inputSchema).value;
            |params| == |properties|
            && (0 <= i < |properties| ==>
                  properties[i].1.Obj?
                  && Get(params[i], "name") == Some(Str(properties[i].0))
                  && (Get(params[i], "required") == Some(Bool(true)) <==> PyIn(properties[i].0, required) == Ok(true))
                  && Get(params[i], "type") == Some(GetOr(properties[i].1.entries, "type", Str("string")))
                  && Get(params[i], "description") == Some(GetOr(properties[i].1.entries, "description", Str("")))
                  && Get(params[i], "enum") == Get(properties[i].1.entries, "enum")
                  && Get(params[i], "default") == Get(properties[i].1.entries, "default"))
  {
    var properties := GetOr(inputSchema.entries, "properties", Obj([])).entries;
    var required := GetOr(inputSchema.entries, "required", Arr([]));
    if 0 <= i < |properties| {
      assert ParamOf(required)(properties[i]) == Ok(SchemaParams(inputSchema).value[i]);
    }
  }

  /** With a required list, a property is required exactly when it is listed. */
  lemma RequiredIffListed(inputSchema: Json, i: int)
    requires SchemaParams(inputSchema).Ok?
    requires inputSchema.Obj? && GetOr(inputSchema.entries, "required", Arr([])).Arr?
    requires 0 <= i < |GetOr(inputSchema.entries, "properties", Obj([])).entries|
    ensures var property := GetOr(inputSchema.entries, "properties", Obj([])).entries[i];
            Get(SchemaParams(inputSchema).value[i], "required") == Some(Bool(true))
            <==> Str(property.0) in GetOr(inputSchema.entries, "required", Arr([])).items
  {
    ParamsFollowProperties(inputSchema, i);
  }

  /** A schema without properties converts to no parameters, whatever its required list. */
  lemma NoPropertiesNoParams(inputSchema: Json)
    requires inputSchema.Obj? && !HasKey(inputSchema.entries, "properties")
    ensures SchemaParams(inputSchema) == Ok([])
  {
  }

  /** The parameter list as a JSON list of dicts. */
  function ParamList(params: seq<Dict>): (j: Json)
    ensures j.Arr? && |j.items| == |params|
    ensures forall i :: 0 <= i < |params| ==> j.items[i] == Obj(params[i])
  {
    Arr(seq(|params|, i requires 0 <= i < |params| => Obj(params[i])))
  }

  /**
   * `mcp_tool_to_qwen_tool`: `{name, description, parameters}` with name and
   * description defaulting to "" and the parameters converted from the
   * input schema (default `{}`).
   */
  method McpToolToQwenTool(tool: Json) returns (r: Result<Dict>)
    ensures r.Ok? <==> tool.Obj? && SchemaParams(GetOr(tool.entries, "inputSchema", Obj([]))).Ok?
    ensures !tool.Obj? ==> r == Raised(NoGet(tool))
    ensures r.Ok? ==>
      r.value == [("name", GetOr(tool.entries, "name", Str(""))),
                  ("description", GetOr(tool.entries, "description", Str(""))),
                  ("parameters", ParamList(SchemaParams(GetOr(tool.entries, "inputSchema", Obj([]))).value))]
  {
    if !tool.Obj? {
      return Raised(NoGet(tool));
    }
    var name := GetOr(tool.entries, "name", Str(""));
    var description := GetOr(tool.entries, "description", Str(""));
    var inputSchema := GetOr(tool.entries, "inputSchema", Obj([]));
    var params := ConvertInputSchema(inputSchema);
    if params.Raised? {
      return Raised(params.error);
    }
    return Ok([("name", name), ("description", description), ("parameters", ParamList(params.value))]);
  }

  /** A definition without an input schema gets an empty parameter list. */
  lemma MissingSchemaNoParams(tool: Json)
    requires tool.Obj? && !HasKey(tool.entries, "inputSchema")
    ensures SchemaParams(GetOr(tool.entries, "inputSchema", Obj([]))) == Ok([])
  {
  }
}
