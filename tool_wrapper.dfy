/**
 * The dual-view wrapper for tool results (app/agents/tool_wrapper.py): a raw
 * tool result is classified into a status, a natural-language summary, an
 * optional instruction for the model, and the raw result itself.
 *
 * A missing context (`None`) is modelled as the empty dict: every wrapper
 * treats the two alike. The few paths where the Python code raises on a value
 * of an unexpected type (a `len()` of a number, `.lower()` of a non-string,
 * `.get` on a non-dict) are modelled as `Raised` with the exception's text.
 */
module ToolWrapper {
  import opened Wrappers
  import opened Strings
  import opened Json

  datatype ToolStatus = Success | Partial | Failed | Blocked | RequiresConfirmation | Error {
    /** The enum member's `.value`. */
    function Value(): string {
      match this
      case Success => "success"
      case Partial => "partial"
      case Failed => "failed"
      case Blocked => "blocked"
      case RequiresConfirmation => "requires_confirmation"
      case Error => "error"
    }
  }

  /** Distinct statuses have distinct values, so a status survives serialisation. */
  lemma StatusValueInjective(a: ToolStatus, b: ToolStatus)
    requires a.Value() == b.Value()
    ensures a == b
  {
  }

  datatype ToolResult = ToolResult(status: ToolStatus, summary: Json, data: Dict,
                                   instruction: Option<string>, raw: RawResult)
  {
    /**
     * `to_dict`: status and summary always, then data only if non-empty,
     * instruction only if a non-empty string, raw_result only if not None.
     */
    function ToDict(): (d: Dict)
      ensures Get(d, "status") == Some(Str(status.Value()))
      ensures Get(d, "summary") == Some(summary)
      ensures HasKey(d, "data") <==> data != []
      ensures data != [] ==> Get(d, "data") == Some(Obj(data))
      ensures HasKey(d, "instruction") <==> instruction.Some? && instruction.value != ""
      ensures instruction.Some? && instruction.value != "" ==> Get(d, "instruction") == Some(Str(instruction.value))
      ensures HasKey(d, "raw_result") <==> !raw.RawNone?
      ensures !raw.RawNone? ==> Get(d, "raw_result") == Some(RawJson(raw))
      ensures forall k :: HasKey(d, k) ==> k == "status" || k == "summary" || k == "data" || k == "instruction" || k == "raw_result"
    {
      Serialised(Str(status.Value()), summary, data, instruction, raw)
    }

    /** `to_user_message`: the summary alone, so no instruction leaks to the user. */
    function ToUserMessage(): Json {
      summary
    }

    /** `to_model_message`: also just the summary. */
    function ToModelMessage(): Json {
      summary
    }
  }

  /** The entries of a serialised result, in the order `to_dict` adds them. */
  function Serialised(status: Json, summary: Json, data: Dict, instruction: Option<string>, raw: RawResult): (d: Dict)
    ensures Get(d, "status") == Some(status) && Get(d, "summary") == Some(summary)
    ensures HasKey(d, "data") <==> data != []
    ensures data != [] ==> Get(d, "data") == Some(Obj(data))
    ensures HasKey(d, "instruction") <==> instruction.Some? && instruction.value != ""
    ensures instruction.Some? && instruction.value != "" ==> Get(d, "instruction") == Some(Str(instruction.value))
    ensures HasKey(d, "raw_result") <==> !raw.RawNone?
    ensures !raw.RawNone? ==> Get(d, "raw_result") == Some(RawJson(raw))
    ensures forall k :: HasKey(d, k) ==> k == "status" || k == "summary" || k == "data" || k == "instruction" || k == "raw_result"
  {
    var d := Entries(status, summary, data, instruction, raw);
    EntriesLookup(status, summary, data, instruction, raw, "status");
    EntriesLookup(status, summary, data, instruction, raw, "summary");
    EntriesLookup(status, summary, data, instruction, raw, "data");
    EntriesLookup(status, summary, data, instruction, raw, "instruction");
    EntriesLookup(status, summary, data, instruction, raw, "raw_result");
    EntriesKeys(status, summary, data, instruction, raw);
    d
  }

  lemma EntriesKeys(status: Json, summary: Json, data: Dict, instruction: Option<string>, raw: RawResult)
    ensures forall k :: HasKey(Entries(status, summary, data, instruction, raw), k) ==>
              k == "status" || k == "summary" || k == "data" || k == "instruction" || k == "raw_result"
  {
    forall k | HasKey(Entries(status, summary, data, instruction, raw), k)
      ensures k == "status" || k == "summary" || k == "data" || k == "instruction" || k == "raw_result"
    {
      EntriesLookup(status, summary, data, instruction, raw, k);
    }
  }

  function Entries(status: Json, summary: Json, data: Dict, instruction: Option<string>, raw: RawResult): Dict {
    [("status", status), ("summary", summary)]
    + Entry(data != [], "data", Obj(data))
    + Entry(instruction.Some? && instruction.value != "", "instruction", Str(instruction.GetOr("")))
    + Entry(!raw.RawNone?, "raw_result", RawJson(raw))
  }

  /** Which entry of a serialised result a key finds. */
  lemma EntriesLookup(status: Json, summary: Json, data: Dict, instruction: Option<string>, raw: RawResult, k: string)
    ensures Get(Entries(status, summary, data, instruction, raw), k)
            == if k == "status" then Some(status)
               else if k == "summary" then Some(summary)
               else if k == "data" && data != [] then Some(Obj(data))
               else if k == "instruction" && instruction.Some? && instruction.value != "" then Some(Str(instruction.value))
               else if k == "raw_result" && !raw.RawNone? then Some(RawJson(raw))
               else None
  {
    ResultKeysDistinct();
    var shows := instruction.Some? && instruction.value != "";
    var head := [("status", status), ("summary", summary)];
    var withData := head + Entry(data != [], "data", Obj(data));
    var withInstruction := withData + Entry(shows, "instruction", Str(instruction.GetOr("")));
    GetConcat([head[0]], [head[1]], k);
    assert head == [head[0]] + [head[1]];
    GetConcat(head, Entry(data != [], "data", Obj(data)), k);
    GetConcat(withData, Entry(shows, "instruction", Str(instruction.GetOr(""))), k);
    GetConcat(withInstruction, Entry(!raw.RawNone?, "raw_result", RawJson(raw)), k);
  }

  /** `[(key, v)]` when `cond` holds, else nothing. */
  function Entry(cond: bool, key: string, v: Json): (e: Dict)
    ensures forall k :: Get(e, k) == if cond && k == key then Some(v) else None
  {
    if cond then [(key, v)] else []
  }

  /** The five keys of a serialised result differ from one another. */
  lemma ResultKeysDistinct()
    ensures "status" != "summary"
    ensures "status" != "data" && "status" != "instruction" && "status" != "raw_result"
    ensures "summary" != "data" && "summary" != "instruction" && "summary" != "raw_result"
    ensures "data" != "instruction" && "data" != "raw_result" && "instruction" != "raw_result"
  {
    assert "status"[1] != "summary"[1];
    assert "data"[0] != "instruction"[0] && "data"[0] != "raw_result"[0] && "instruction"[0] != "raw_result"[0];
    assert "status"[0] != "data"[0] && "status"[0] != "instruction"[0] && "status"[0] != "raw_result"[0];
    assert "summary"[0] != "data"[0] && "summary"[0] != "instruction"[0] && "summary"[0] != "raw_result"[0];
  }

  /** Both views of a result are its summary and nothing else. */
  lemma MessagesAreSummary(r: ToolResult)
    ensures r.ToUserMessage() == r.summary
    ensures r.ToModelMessage() == r.summary
    ensures r.ToUserMessage() == r.ToModelMessage()
  {
  }

  // ---------------------------------------------------------------------
  // Dispatch

  /** The tools with a wrapper of their own; every other name gets the generic one. */
  const SpecialTools: seq<string> := ["add_components_from_plan", "execute_circuit_plan", "plan_circuit",
                                      "add_component", "check_cell_exists", "get_project_structure",
                                      "get_current_design"]

  /** A string that `json.loads` turns into a dict is replaced by that dict. */
  function Normalize(raw: RawResult): RawResult {
    match raw
    case RawText(_, Some(Obj(d))) => RawDict(d)
    case _ => raw
  }

  /** The wrapper `wrap_tool_result` picks for a tool. */
  datatype Wrapper =
    | AddComponentsWrapper | ExecutePlanWrapper | PlanCircuitWrapper | AddComponentWrapper
    | CheckCellWrapper | ProjectStructureWrapper | CurrentDesignWrapper | GenericWrapper

  function WrapperFor(tool: string): Wrapper {
    if tool == "add_components_from_plan" then AddComponentsWrapper
    else if tool == "execute_circuit_plan" then ExecutePlanWrapper
    else if tool == "plan_circuit" then PlanCircuitWrapper
    else if tool == "add_component" then AddComponentWrapper
    else if tool == "check_cell_exists" then CheckCellWrapper
    else if tool == "get_project_structure" then ProjectStructureWrapper
    else if tool == "get_current_design" then CurrentDesignWrapper
    else GenericWrapper
  }

  /** Each dedicated tool has its own wrapper, and only those tools avoid the generic one. */
  lemma WrapperTable(tool: string)
    ensures WrapperFor("add_components_from_plan") == AddComponentsWrapper
    ensures WrapperFor("execute_circuit_plan") == ExecutePlanWrapper
    ensures WrapperFor("plan_circuit") == PlanCircuitWrapper
    ensures WrapperFor("add_component") == AddComponentWrapper
    ensures WrapperFor("check_cell_exists") == CheckCellWrapper
    ensures WrapperFor("get_project_structure") == ProjectStructureWrapper
    ensures WrapperFor("get_current_design") == CurrentDesignWrapper
    ensures WrapperFor(tool) == GenericWrapper <==> tool !in SpecialTools
  {
  }

  function Apply(w: Wrapper, raw: RawResult, context: Dict): Result<ToolResult> {
    match w
    case AddComponentsWrapper => WrapAddComponents(raw, context)
    case ExecutePlanWrapper => Ok(WrapExecutePlan(raw))
    case PlanCircuitWrapper => WrapPlanCircuit(raw)
    case AddComponentWrapper => Ok(WrapAddComponent(raw, context))
    case CheckCellWrapper => WrapCheckCellExists(raw, context)
    case ProjectStructureWrapper => WrapProjectStructure(raw)
    case CurrentDesignWrapper => WrapCurrentDesign(raw)
    case GenericWrapper => WrapGeneric(raw, context)
  }

  /**
   * `wrap_tool_result`: parse a JSON-object string, then hand it to the
   * tool's wrapper. The result keeps the parsed raw result, and it asks for
   * confirmation exactly for plan_circuit.
   */
  function WrapToolResult(tool: string, raw: RawResult, context: Dict): (r: Result<ToolResult>)
    ensures r.Ok? ==> r.value.raw == Normalize(raw)
    ensures r.Ok? ==> (r.value.status == RequiresConfirmation <==> tool == "plan_circuit")
  {
    WrapperTable(tool);
    Apply(WrapperFor(tool), Normalize(raw), context)
  }

  /** Every tool name outside the dedicated list is wrapped by the generic classifier. */
  lemma UnknownToolsUseGeneric(tool: string, raw: RawResult, context: Dict)
    requires tool !in SpecialTools
    ensures WrapToolResult(tool, raw, context) == WrapGeneric(Normalize(raw), context)
  {
    WrapperTable(tool);
  }

  // ---------------------------------------------------------------------
  // Python operations the wrappers apply to values of unknown type

  /** `v.lower()`, which only a string supports. */
  function LowerText(v: Json): (r: Result<string>)
    ensures r.Ok? <==> v.Str?
    ensures r.Ok? ==> r.value == Lower(v.s)
  {
    if v.Str? then Ok(Lower(v.s)) else Raised("'" + TypeName(v) + "' object has no attribute 'lower'")
  }

  /** `len(v)`. */
  function Length(v: Json): (r: Result<nat>)
    ensures r.Ok? <==> PyLen(v).Some?
    ensures r.Ok? ==> PyLen(v) == Some(r.value)
  {
    match PyLen(v)
    case Some(n) => Ok(n)
    case None => Raised("object of type '" + TypeName(v) + "' has no len()")
  }

  predicate LibraryNotOpen(lower: string) {
    Contains(lower, "library") && Contains(lower, "not open")
  }

  predicate CellNotFound(lower: string) {
    Contains(lower, "cell") && Contains(lower, "not found")
  }

  /** The nested `data` dict of a reply, when `'data' in reply and isinstance(reply['data'], dict)`. */
  function NestedData(d: Dict): Option<Dict> {
    match Get(d, "data")
    case Some(Obj(entries)) => Some(entries)
    case _ => None
  }

  /** The nested data reports `status == "error"`. */
  predicate NestedError(d: Dict) {
    NestedData(d).Some? && Get(NestedData(d).value, "status") == Some(Str("error"))
  }

  // ---------------------------------------------------------------------
  // What every wrapper builds

  /** The summary, data and instruction of a wrapped result: everything but its status. */
  datatype Report = Report(summary: Json, data: Dict, instruction: Option<string>)

  /** A report with a string summary and no data. */
  function Say(summary: string, instruction: Option<string>): Report {
    Report(Str(summary), [], instruction)
  }

  function Build(status: ToolStatus, report: Report, raw: RawResult): ToolResult {
    ToolResult(status, report.summary, report.data, report.instruction, raw)
  }

  // ---------------------------------------------------------------------
  // add_components_from_plan and execute_circuit_plan

  /** `raw_result.get("success", True)`: a dict reports success unless it says otherwise. */
  predicate ReportsSuccess(d: Dict) {
    Truthy(GetOr(d, "success", Bool(true)))
  }

  /** SUCCESS, unless a dict result reports failure. */
  function FlagStatus(raw: RawResult): ToolStatus {
    if raw.RawDict? && !ReportsSuccess(raw.entries) then Failed else Success
  }

  function ComponentsAdded(count: nat): string {
    "✅ Successfully added " + NatToString(count) + " components to design."
  }

  function ComponentsSaved(uri: Json): string {
    "Design saved to: " + PyStr(uri) + "\n\n"
    + "CRITICAL: Task completed. All components have been added. "
    + "DO NOT call any more tools unless the user provides new instructions."
  }

  function AddComponentsReport(raw: RawResult, context: Dict): Result<Report> {
    match raw
    case RawDict(d) =>
      if ReportsSuccess(d) then
        var uri := GetOr(d, "design_uri", Str(""));
        var count :- Length(GetOr(context, "components", Arr([])));
        Ok(Report(Str(ComponentsAdded(count)), [("design_uri", uri), ("component_count", Num(count))],
                  Some(ComponentsSaved(uri))))
      else Ok(Say("❌ Failed to add components: " + PyStr(GetOr(d, "error", Str("Unknown error"))), None))
    case _ => Ok(Say("Components added to design.", None))
  }

  /** `_wrap_add_components_result`. */
  function WrapAddComponents(raw: RawResult, context: Dict): (r: Result<ToolResult>)
    ensures r.Ok? ==> r.value.raw == raw && (r.value.status == Success || r.value.status == Failed)
    ensures r.Ok? ==> (r.value.status == Failed <==> raw.RawDict? && !ReportsSuccess(raw.entries))
    ensures r.Raised? ==> raw.RawDict? && ReportsSuccess(raw.entries)
  {
    var report :- AddComponentsReport(raw, context);
    Ok(Build(FlagStatus(raw), report, raw))
  }

  function SchematicCreated(uri: Json): string {
    "Design URI: " + PyStr(uri) + "\n\n"
    + "⏸️ STOP and wait for user to open the design in ADS. "
    + "DO NOT call add_components_from_plan until user confirms they have opened the design.\n\n"
    + "Next step: When user replies '已打开' or 'continue', call add_components_from_plan to add components."
  }

  function ExecutePlanReport(raw: RawResult): Report {
    match raw
    case RawDict(d) =>
      if ReportsSuccess(d) then
        var uri := GetOr(d, "design_uri", Str(""));
        Report(Str("✅ Schematic created successfully."), [("design_uri", uri)], Some(SchematicCreated(uri)))
      else Say("❌ Failed to create schematic: " + PyStr(GetOr(d, "error", Str("Unknown error"))), None)
    case _ => Say("Schematic created.", None)
  }

  /** `_wrap_execute_plan_result`: a created schematic tells the model to wait for the user. */
  function WrapExecutePlan(raw: RawResult): (r: ToolResult)
    ensures r.raw == raw && (r.status == Success || r.status == Failed)
    ensures r.status == Failed <==> raw.RawDict? && !ReportsSuccess(raw.entries)
    ensures raw.RawDict? && r.status == Success ==> r.instruction.Some?
  {
    Build(FlagStatus(raw), ExecutePlanReport(raw), raw)
  }

  /**
   * For the two plan-driven tools a dict result is SUCCESS exactly when its
   * "success" entry is absent or truthy and FAILED otherwise; anything else is
   * SUCCESS. Only add_components_from_plan can raise, when its context's
   * "components" has no length.
   */
  lemma PlanToolsStatus(tool: string, raw: RawResult, context: Dict)
    requires tool == "add_components_from_plan" || tool == "execute_circuit_plan"
    ensures var r := WrapToolResult(tool, raw, context);
            r.Ok? ==> match Normalize(raw)
                      case RawDict(d) => (r.value.status == Success <==> ReportsSuccess(d))
                                         && (r.value.status == Failed <==> !ReportsSuccess(d))
                      case _ => r.value.status == Success
    ensures WrapToolResult(tool, raw, context).Raised? <==>
              tool == "add_components_from_plan" && Normalize(raw).RawDict? && ReportsSuccess(Normalize(raw).entries)
              && PyLen(GetOr(context, "components", Arr([]))).None?
  {
    if tool == "add_components_from_plan" {
      WrapperTable("");
      AddComponentsOutcome(Normalize(raw), context);
    } else {
      WrapperTable("");
    }
  }

  lemma AddComponentsOutcome(raw: RawResult, context: Dict)
    ensures var r := WrapAddComponents(raw, context);
            (r.Ok? ==> r.value.status == FlagStatus(raw))
            && (r.Raised? <==> raw.RawDict? && ReportsSuccess(raw.entries)
                               && PyLen(GetOr(context, "components", Arr([]))).None?)
  {
  }

  /** A successful add reports the number of components the context holds, in its summary and its data. */
  lemma ComponentCountReported(d: Dict, context: Dict, components: seq<Json>)
    requires ReportsSuccess(d)
    requires GetOr(context, "components", Arr([])) == Arr(components)
    ensures var r := WrapToolResult("add_components_from_plan", RawDict(d), context);
            r.Ok? && r.value.status == Success && r.value.summary == Str(ComponentsAdded(|components|))
            && r.value.data == [("design_uri", GetOr(d, "design_uri", Str(""))), ("component_count", Num(|components|))]
  {
    WrapperTable("");
    AddedReport(d, context, components);
  }

  lemma AddedReport(d: Dict, context: Dict, components: seq<Json>)
    requires ReportsSuccess(d)
    requires GetOr(context, "components", Arr([])) == Arr(components)
    ensures var uri := GetOr(d, "design_uri", Str(""));
            WrapAddComponents(RawDict(d), context)
            == Ok(ToolResult(Success, Str(ComponentsAdded(|components|)),
                             [("design_uri", uri), ("component_count", Num(|components|))],
                             Some(ComponentsSaved(uri)), RawDict(d)))
  {
    assert Length(Arr(components)) == Ok(|components|);
  }

  // ---------------------------------------------------------------------
  // plan_circuit

  /** The plan id a plan_circuit result names, or the IndexError its text raises. */
  function PlanIdOf(raw: RawResult): Result<Json> {
    match raw
    case RawText(t, _) =>
      if IsPrefix("PLAN_ID:", t) then
        match SplitSecond(SplitFirst(t, "\n"), ": ")
        case Some(id) => Ok(Str(id))
        case None => Raised("list index out of range")
      else Ok(Null)
    case RawDict(d) => Ok(GetOr(d, "plan_id", Null))
    case _ => Ok(Null)
  }

  const PlanPaused: string :=
    "⏸️ PAUSED: Awaiting user confirmation to execute this plan.\n\n"
    + "DO NOT call execute_circuit_plan or any other tools until user confirms.\n"
    + "Wait for user to reply with '确认' or 'confirm' before proceeding."

  function PlanInstruction(planId: Json): string {
    "Plan ID: " + PyStr(planId) + "\n\n" + PlanPaused
  }

  /** `_wrap_plan_circuit_result`: always a request for confirmation naming the plan id. */
  function WrapPlanCircuit(raw: RawResult): (r: Result<ToolResult>)
    ensures r.Ok? ==> r.value.raw == raw && r.value.status == RequiresConfirmation && r.value.instruction.Some?
    ensures r.Raised? ==> raw.RawText?
  {
    var planId :- PlanIdOf(raw);
    Ok(Build(RequiresConfirmation,
             Report(Str("✅ Circuit plan generated."), [("plan_id", planId)], Some(PlanInstruction(planId))),
             raw))
  }

  /**
   * A plan_circuit result always asks for confirmation, whatever it holds. The
   * only failure is a "PLAN_ID:" text whose first line has no ": " to split on.
   */
  lemma PlanCircuitRequiresConfirmation(raw: RawResult, context: Dict)
    ensures var r := WrapToolResult("plan_circuit", raw, context);
            r.Ok? ==> r.value.status == RequiresConfirmation && r.value.instruction.Some?
    ensures WrapToolResult("plan_circuit", raw, context).Raised? <==>
              Normalize(raw).RawText? && IsPrefix("PLAN_ID:", Normalize(raw).text)
              && !Contains(SplitFirst(Normalize(raw).text, "\n"), ": ")
  {
    WrapperTable("");
  }

  /** The id is read from the text "PLAN_ID: <id>" up to the end of its first line, and named in the instruction. */
  lemma PlanIdFromText(id: string, rest: string, context: Dict)
    requires !Contains(id, "\n") && !Contains(id, ": ")
    ensures PlanIdOf(RawText("PLAN_ID: " + id + "\n" + rest, None)) == Ok(Str(id))
    ensures var r := WrapToolResult("plan_circuit", RawText("PLAN_ID: " + id + "\n" + rest, None), context);
            r.Ok? && r.value.data == [("plan_id", Str(id))]
            && r.value.instruction.Some? && IsPrefix("Plan ID: " + id + "\n\n", r.value.instruction.value)
  {
    var t := "PLAN_ID: " + id + "\n" + rest;
    assert IsPrefix("PLAN_ID:", t) by {
      assert t[..8] == "PLAN_ID:";
    }
    PlanLineSplit(id, rest);
    PlanIdSplit(id);
    WrapperTable("");
    var instruction := PlanInstruction(Str(id));
    assert instruction == ("Plan ID: " + id + "\n\n") + PlanPaused;
  }

  /** The first line of "PLAN_ID: <id>\n..." is "PLAN_ID: <id>". */
  lemma PlanLineSplit(id: string, rest: string)
    requires !Contains(id, "\n")
    ensures SplitFirst("PLAN_ID: " + id + "\n" + rest, "\n") == "PLAN_ID: " + id
  {
    var t := "PLAN_ID: " + id + "\n" + rest;
    assert OccursAt(t, "\n", 9 + |id|) by {
      assert t[9 + |id|] == '\n';
    }
    forall j | 0 <= j < 9 + |id|
      ensures !OccursAt(t, "\n", j)
    {
      if j < 9 {
        assert t[j] == "PLAN_ID: "[j];
      } else {
        assert t[j..j + 1] == id[j - 9..j - 8];
        assert !OccursAt(id, "\n", j - 9);
      }
    }
    FirstOccurrence(t, "\n", 9 + |id|);
    assert t[..9 + |id|] == "PLAN_ID: " + id;
  }

  /** The second ": "-separated field of "PLAN_ID: <id>" is the id. */
  lemma PlanIdSplit(id: string)
    requires !Contains(id, ": ")
    ensures SplitSecond("PLAN_ID: " + id, ": ") == Some(id)
  {
    var line := "PLAN_ID: " + id;
    assert OccursAt(line, ": ", 7) by {
      assert line[7..9] == ": ";
    }
    forall j | 0 <= j < 7
      ensures !OccursAt(line, ": ", j)
    {
      assert line[j] == "PLAN_ID"[j];
    }
    FirstOccurrence(line, ": ", 7);
    assert line[9..] == id;
    FirstOccurrence(id, ": ", |id|);
  }

  /** `Find` locates an occurrence preceded by none. */
  lemma FirstOccurrence(s: string, t: string, i: nat)
    requires |t| > 0 && i <= |s|
    requires OccursAt(s, t, i) || (i == |s| && !Contains(s, t))
    requires forall j :: 0 <= j < i ==> !OccursAt(s, t, j)
    ensures OccursAt(s, t, i) ==> Find(s, t) == Some(i)
    ensures !OccursAt(s, t, i) ==> Find(s, t) == None
  {
    var r := Find(s, t);
  }

  // ---------------------------------------------------------------------
  // add_component

  /** SUCCESS, unless a dict result's status is something other than "success". */
  function ComponentStatus(raw: RawResult): ToolStatus {
    if raw.RawDict? && Get(raw.entries, "status") != Some(Str("success")) then Failed else Success
  }

  /** The added component is named from the context, as `"<type> (<instance>)"`. */
  function AddComponentReport(raw: RawResult, context: Dict): Report {
    match raw
    case RawDict(d) =>
      if Get(d, "status") == Some(Str("success")) then
        var instance := GetOr(context, "instance_name", Str(""));
        var componentType := GetOr(context, "component_type", Str(""));
        Say("✅ Added component " + PyStr(componentType) + " (" + PyStr(instance) + ").", None)
      else Say("❌ Failed to add component: " + PyStr(GetOr(d, "message", Str("Unknown error"))), None)
    case _ => Say("Component added.", None)
  }

  /** `_wrap_add_component_result`. */
  function WrapAddComponent(raw: RawResult, context: Dict): (r: ToolResult)
    ensures r.raw == raw && r.instruction.None? && (r.status == Success || r.status == Failed)
    ensures r.status == Failed <==> raw.RawDict? && Get(raw.entries, "status") != Some(Str("success"))
  {
    Build(ComponentStatus(raw), AddComponentReport(raw, context), raw)
  }

  /** add_component succeeds exactly when a dict result says status "success"; other results succeed. */
  lemma AddComponentStatus(raw: RawResult, context: Dict)
    ensures WrapToolResult("add_component", raw, context).Ok?
    ensures var s := WrapToolResult("add_component", raw, context).value.status;
            match Normalize(raw)
            case RawDict(d) => (s == Success <==> Get(d, "status") == Some(Str("success")))
                               && (s == Failed <==> Get(d, "status") != Some(Str("success")))
            case _ => s == Success
  {
    WrapperTable("");
  }

  // ---------------------------------------------------------------------
  // The three query tools: check_cell_exists, get_project_structure, get_current_design

  /** ERROR when the nested data reports an error, else SUCCESS. */
  function QueryStatus(raw: RawResult): ToolStatus {
    if raw.RawDict? && NestedError(raw.entries) then Error else Success
  }

  function LibraryHint(library: string): string {
    "⚠️ 您输入的库名 '" + library + "' 不正确。\n\n"
    + "**解决方法**：\n"
    + "1. 首先调用 `get_project_structure` 获取正确的项目库名\n"
    + "2. 项目库名类似 'MyLibrary3_lib'，不是 cell 名称！\n"
    + "3. 然后使用正确的库名重新调用 check_cell_exists\n\n"
    + "⛔ 不要再使用 '" + library + "' 作为库名。"
  }

  function CellPresent(library: string, cell: string): string {
    "✅ 单元 '" + cell + "' 存在于库 '" + library + "' 中。"
  }

  function CellAbsent(library: string, cell: string): string {
    "ℹ️ 单元 '" + cell + "' 在库 '" + library + "' 中不存在。"
  }

  function FoundHint(library: string, cell: string): string {
    "单元已找到！\n"
    + "design_uri = `" + library + ":" + cell + ":schematic`\n\n"
    + "下一步：可以直接调用 add_component 添加元件到该设计。"
  }

  function MissingHint(library: string): string {
    "单元不存在。\n\n"
    + "下一步：\n"
    + "1. 调用 `list_cells(library_name=\"" + library + "\")` 查看该库中的单元\n"
    + "2. 或调用 `plan_circuit` 创建新设计"
  }

  /** The nested data's "exists" entry when it is present and not None. */
  function CheckedExistence(d: Dict): Option<Json> {
    if NestedData(d).Some? && GetOr(NestedData(d).value, "exists", Null) != Null then
      Some(GetOr(NestedData(d).value, "exists", Bool(false)))
    else None
  }

  function CheckCellReport(raw: RawResult, library: string, cell: string): Result<Report> {
    var fallback := Say("检查了 '" + cell + "' 在 '" + library + "' 中的存在性。", None);
    match raw
    case RawDict(d) =>
      if NestedError(d) then
        var error := GetOr(NestedData(d).value, "error", Str("Unknown error"));
        var lower :- LowerText(error);
        if LibraryNotOpen(lower) then Ok(Say("❌ 库 '" + library + "' 不存在或未打开！", Some(LibraryHint(library))))
        else Ok(Say("❌ 检查单元失败: " + PyStr(error), None))
      else if CheckedExistence(d).Some? then
        if Truthy(CheckedExistence(d).value) then Ok(Say(CellPresent(library, cell), Some(FoundHint(library, cell))))
        else Ok(Say(CellAbsent(library, cell), Some(MissingHint(library))))
      else if Truthy(GetOr(d, "message", Str(""))) then Ok(Report(GetOr(d, "message", Str("")), [], None))
      else Ok(fallback)
    case _ => Ok(fallback)
  }

  /** `_wrap_check_cell_exists_result`. */
  function WrapCheckCellExists(raw: RawResult, context: Dict): (r: Result<ToolResult>)
    ensures r.Ok? ==> r.value.raw == raw && (r.value.status == Success || r.value.status == Error)
    ensures r.Ok? ==> (r.value.status == Error <==> raw.RawDict? && NestedError(raw.entries))
  {
    var library :- NestedGet(context, "arguments", "library_name", Str("unknown"));
    // The second lookup reaches the same dict, so it cannot raise once the first has not.
    var cell := GetOr(GetOr(context, "arguments", Obj([])).entries, "cell_name", Str("unknown"));
    var report :- CheckCellReport(raw, PyStr(library), PyStr(cell));
    Ok(Build(QueryStatus(raw), report, raw))
  }

  /**
   * An answered existence check reports presence or absence as the reply says,
   * naming the library and cell from the call's arguments.
   */
  lemma CellExistenceWrapped(d: Dict, context: Dict, library: string, cell: string)
    requires !NestedError(d) && CheckedExistence(d).Some?
    requires GetOr(context, "arguments", Obj([])).Obj?
    requires var arguments := GetOr(context, "arguments", Obj([])).entries;
             PyStr(GetOr(arguments, "library_name", Str("unknown"))) == library
             && PyStr(GetOr(arguments, "cell_name", Str("unknown"))) == cell
    ensures var r := WrapToolResult("check_cell_exists", RawDict(d), context);
            r.Ok? && r.value.status == Success
            && r.value.summary == Str(if Truthy(CheckedExistence(d).value) then CellPresent(library, cell)
                                      else CellAbsent(library, cell))
  {
    WrapperTable("");
  }

  /** `[lib.get("name", "unknown") for lib in libraries]`. */
  function LibraryNames(libraries: seq<Json>): (r: Result<seq<Json>>)
    ensures r.Ok? <==> forall i :: 0 <= i < |libraries| ==> libraries[i].Obj?
    ensures r.Ok? ==> |r.value| == |libraries|
                      && forall i :: 0 <= i < |libraries| ==> r.value[i] == GetOr(libraries[i].entries, "name", Str("unknown"))
  {
    if libraries == [] then Ok([])
    else if !libraries[0].Obj? then Raised("'" + TypeName(libraries[0]) + "' object has no attribute 'get'")
    else
      var rest :- LibraryNames(libraries[1..]);
      assert forall i :: 1 <= i < |libraries| ==> libraries[i] == libraries[1..][i - 1];
      Ok([GetOr(libraries[0].entries, "name", Str("unknown"))] + rest)
  }

  /** The strings of a list given to `str.join`, which raises on the first non-string item. */
  function Texts(items: seq<Json>, offset: nat): (r: Result<seq<string>>)
    ensures r.Ok? <==> forall i :: 0 <= i < |items| ==> items[i].Str?
    ensures r.Ok? ==> |r.value| == |items| && forall i :: 0 <= i < |items| ==> r.value[i] == items[i].s
  {
    if items == [] then Ok([])
    else if !items[0].Str? then
      Raised("sequence item " + NatToString(offset) + ": expected str instance, " + TypeName(items[0]) + " found")
    else
      var rest :- Texts(items[1..], offset + 1);
      assert forall i :: 1 <= i < |items| ==> items[i] == items[1..][i - 1];
      Ok([items[0].s] + rest)
  }

  /** The listing in the instruction: the first five names, then how many were left out. */
  function LibraryListing(names: seq<Json>): Result<string> {
    var shown :- Texts(names[..if |names| < 5 then |names| else 5], 0);
    var listing := Join(", ", shown);
    Ok(if |names| > 5 then listing + " ... and " + NatToString(|names| - 5) + " more" else listing)
  }

  function LibrariesSummary(count: nat): string {
    "✅ Retrieved project structure with " + NatToString(count) + " libraries."
  }

  function LibrariesInstruction(listing: string): string {
    "Available libraries: " + listing + "\n\n"
    + "You can now:\n"
    + "1. Use 'list_cells' with a library name to see cells\n"
    + "2. Use 'check_cell_exists' to verify specific cells\n"
    + "3. Use 'create_schematic' to create new designs"
  }

  /** The libraries entry of a successful reply, which must be reached through a dict. */
  function LibrariesOf(d: Dict): Result<Json> {
    NestedGet(d, "data", "libraries", Arr([]))
  }

  /** `len(libraries) if isinstance(libraries, list) else 0`. */
  function LibraryCount(libraries: Json): nat {
    if libraries.Arr? then |libraries.items| else 0
  }

  function ProjectStructureReport(raw: RawResult): Result<Report> {
    match raw
    case RawDict(d) =>
      if NestedError(d) then
        Ok(Say("❌ Failed to get project structure: " + PyStr(GetOr(NestedData(d).value, "error", Str("Unknown error"))), None))
      else if Get(d, "status") == Some(Str("success")) then
        var libraries :- LibrariesOf(d);
        var summary := LibrariesSummary(LibraryCount(libraries));
        if libraries.Arr? && |libraries.items| > 0 then
          var names :- LibraryNames(libraries.items);
          var listing :- LibraryListing(names);
          Ok(Say(summary, Some(LibrariesInstruction(listing))))
        else Ok(Say(summary, Some("No libraries found. You may need to create a new schematic.")))
      else Ok(Say("Project structure retrieved.", None))
    case _ => Ok(Say("Project structure retrieved.", None))
  }

  /** `_wrap_get_project_structure_result`. */
  function WrapProjectStructure(raw: RawResult): (r: Result<ToolResult>)
    ensures r.Ok? ==> r.value.raw == raw && (r.value.status == Success || r.value.status == Error)
    ensures r.Ok? ==> (r.value.status == Error <==> raw.RawDict? && NestedError(raw.entries))
    ensures !raw.RawDict? ==> r.Ok?
  {
    var report :- ProjectStructureReport(raw);
    Ok(Build(QueryStatus(raw), report, raw))
  }

  /** A successful structure reply is summarised with the number of libraries, 0 when they are not a list. */
  lemma ProjectStructureCount(d: Dict, context: Dict)
    requires !NestedError(d) && Get(d, "status") == Some(Str("success"))
    ensures var r := WrapToolResult("get_project_structure", RawDict(d), context);
            r.Ok? ==> LibrariesOf(d).Ok? && r.value.summary == Str(LibrariesSummary(LibraryCount(LibrariesOf(d).value)))
    ensures var r := WrapToolResult("get_project_structure", RawDict(d), context);
            LibrariesOf(d).Ok? && LibraryCount(LibrariesOf(d).value) == 0 ==> r.Ok?
  {
    WrapperTable("");
    ProjectStructureSummary(d);
  }

  lemma ProjectStructureSummary(d: Dict)
    requires !NestedError(d) && Get(d, "status") == Some(Str("success"))
    ensures var r := ProjectStructureReport(RawDict(d));
            r.Ok? ==> LibrariesOf(d).Ok? && r.value.summary == Str(LibrariesSummary(LibraryCount(LibrariesOf(d).value)))
    ensures var r := ProjectStructureReport(RawDict(d));
            LibrariesOf(d).Ok? && LibraryCount(LibrariesOf(d).value) == 0 ==> r.Ok?
  {
  }

  const NoDesignOpen: string := "当前没有打开的设计。需要先创建或打开一个原理图。"

  function CurrentDesignReport(raw: RawResult): Result<Report> {
    match raw
    case RawDict(d) =>
      if NestedError(d) then
        Ok(Say("无法获取当前设计信息: " + PyStr(GetOr(NestedData(d).value, "error", Str("Unknown error"))), None))
      else
        var uri :- NestedGet(d, "data", "design_uri", Null);
        var cell :- NestedGet(d, "data", "cell_name", Null);
        var library :- NestedGet(d, "data", "library_name", Null);
        if Truthy(uri) && uri != Str("None") then
          Ok(Report(Str("当前打开的设计: " + PyStr(library) + ":" + PyStr(cell)),
                    [("scenario", Str("existing_design")), ("design_uri", uri)], None))
        else Ok(Report(Str(NoDesignOpen), [("scenario", Str("no_design"))], None))
    case _ => Ok(Say("Checked current design status.", None))
  }

  /** `_wrap_get_current_design_result`. */
  function WrapCurrentDesign(raw: RawResult): (r: Result<ToolResult>)
    ensures r.Ok? ==> r.value.raw == raw && (r.value.status == Success || r.value.status == Error)
    ensures r.Ok? ==> (r.value.status == Error <==> raw.RawDict? && NestedError(raw.entries))
    ensures !raw.RawDict? ==> r.Ok?
  {
    var report :- CurrentDesignReport(raw);
    Ok(Build(QueryStatus(raw), report, raw))
  }

  /**
   * The three query wrappers report ERROR exactly when the nested data says
   * status "error", and SUCCESS otherwise; they never report FAILED.
   */
  lemma QueryToolsStatus(tool: string, raw: RawResult, context: Dict)
    requires tool == "check_cell_exists" || tool == "get_project_structure" || tool == "get_current_design"
    ensures var r := WrapToolResult(tool, raw, context);
            r.Ok? ==> (r.value.status == Error <==> Normalize(raw).RawDict? && NestedError(Normalize(raw).entries))
                      && (r.value.status == Success <==> !(Normalize(raw).RawDict? && NestedError(Normalize(raw).entries)))
  {
    if tool == "check_cell_exists" {
      WrapperTable("");
    } else if tool == "get_project_structure" {
      WrapperTable("");
    } else {
      WrapperTable("");
    }
  }

  /** get_current_design reports an open design exactly when the data names a usable URI. */
  lemma CurrentDesignScenario(d: Dict, context: Dict)
    requires !NestedError(d)
    requires NestedData(d).Some?
    ensures var r := WrapToolResult("get_current_design", RawDict(d), context);
            var uri := GetOr(NestedData(d).value, "design_uri", Null);
            r.Ok? && (Get(r.value.data, "scenario") == Some(Str("existing_design")) <==> Truthy(uri) && uri != Str("None"))
  {
    WrapperTable("");
    var data := NestedData(d).value;
    assert GetOr(d, "data", Obj([])) == Obj(data);
    var uri := GetOr(data, "design_uri", Null);
    if Truthy(uri) && uri != Str("None") {
      assert "scenario" != "design_uri";
    }
  }

  // ---------------------------------------------------------------------
  // The generic wrapper

  /** The status and the error message the generic wrapper finds, checking the levels in order. */
  function GenericError(d: Dict): (ToolStatus, Json) {
    if Get(d, "status") == Some(Str("error")) then
      (Error, Or(GetOr(d, "message", Null), GetOr(d, "error", Str("Unknown error"))))
    else if EqualsFalse(GetOr(d, "success", Null)) then
      (Failed, GetOr(d, "error", Str("Unknown error")))
    else if NestedData(d).Some? then
      var data := NestedData(d).value;
      if Get(data, "status") == Some(Str("error")) then
        (Error, GetOr(data, "error", GetOr(data, "message", Str("Unknown error"))))
      else if Truthy(GetOr(data, "error", Null)) then
        (Error, GetOr(data, "error", Null))
      else (Success, Null)
    else (Success, Null)
  }

  /** The summary of a successful reply with data. */
  function SuccessSummary(data: Json): string {
    match data
    case Obj(entries) =>
      if HasKey(entries, "uri") then "✅ Operation completed. URI: " + PyStr(Get(entries, "uri").value)
      else if HasKey(entries, "design_uri") then "✅ Design created: " + PyStr(Get(entries, "design_uri").value)
      else "✅ Operation completed successfully."
    case _ => "✅ Operation completed successfully."
  }

  const LibrarySteps: string :=
    "⚠️ ISSUE: The specified library is not available.\n\n"
    + "Next steps:\n"
    + "1. Call 'get_project_structure' to see available libraries\n"
    + "2. Use an open library from the project structure\n"
    + "3. OR call 'create_schematic' to create a new design in the default workspace"

  const CellSteps: string :=
    "⚠️ ISSUE: The specified cell was not found.\n\n"
    + "Next steps:\n"
    + "1. Call 'get_project_structure' to see available cells\n"
    + "2. Call 'list_cells' with a library name to see all cells in a library\n"
    + "3. OR call 'create_schematic' to create a new cell"

  function GenericDictReport(d: Dict, error: Json, context: Dict): Result<Report> {
    if Truthy(error) then
      var lower :- LowerText(error);
      if LibraryNotOpen(lower) then
        var library :- NestedGet(context, "arguments", "library_name", Str("unknown"));
        Ok(Say("❌ Library '" + PyStr(library) + "' is not open in ADS.", Some(LibrarySteps)))
      else if CellNotFound(lower) then
        var cell :- NestedGet(context, "arguments", "cell_name", Str("unknown"));
        Ok(Say("❌ Cell '" + PyStr(cell) + "' does not exist.", Some(CellSteps)))
      else Ok(Say("❌ Error: " + PyStr(error), Some("Please review the error and try a different approach.")))
    else if Get(d, "status") == Some(Str("success")) && HasKey(d, "data") then
      Ok(Say(SuccessSummary(GetOr(d, "data", Obj([]))), None))
    else Ok(Say("Tool executed successfully.", None))
  }

  /** ERROR exactly when the text mentions "error" in any case. */
  function TextStatus(t: string): ToolStatus {
    if Contains(Lower(t), "error") then Error else Success
  }

  function TextReport(t: string): Report {
    var lower := Lower(t);
    if Contains(lower, "error") && LibraryNotOpen(lower) then
      Say("❌ Library is not open in ADS.", Some("Call 'get_project_structure' to see available libraries."))
    else if Contains(lower, "error") && CellNotFound(lower) then
      Say("❌ Cell does not exist.", Some("Call 'list_cells' to see available cells."))
    else Say(t, None)
  }

  /**
   * `_wrap_generic_result`: never asks for confirmation; only a dict can be
   * FAILED; a result that is neither a dict nor a string is SUCCESS.
   */
  function WrapGeneric(raw: RawResult, context: Dict): (r: Result<ToolResult>)
    ensures r.Ok? ==> r.value.raw == raw && r.value.status != RequiresConfirmation
    ensures r.Ok? && r.value.status == Failed ==> raw.RawDict?
    ensures r.Raised? ==> raw.RawDict?
    ensures !raw.RawDict? && !raw.RawText? ==> r.Ok? && r.value.status == Success
  {
    match raw
    case RawDict(d) =>
      var report :- GenericDictReport(d, GenericError(d).1, context);
      Ok(Build(GenericError(d).0, report, raw))
    case RawText(t, _) => Ok(Build(TextStatus(t), TextReport(t), raw))
    case _ => Ok(Build(Success, Say("Tool executed successfully.", None), raw))
  }

  /**
   * A generic dict result is classified level by level: a top-level
   * "error" status is ERROR; otherwise `success == False` is FAILED;
   * otherwise a dict under "data" with an "error" status or a truthy "error"
   * is ERROR; anything else is SUCCESS. It raises only when the error it
   * found is not a string, or names a library or cell while the context's
   * "arguments" is not a dict.
   */
  lemma GenericDictClassification(tool: string, d: Dict, context: Dict)
    requires tool !in SpecialTools
    ensures var r := WrapToolResult(tool, RawDict(d), context);
            var topError := Get(d, "status") == Some(Str("error"));
            var failed := EqualsFalse(GetOr(d, "success", Null));
            var nestedError := Get(d, "data").Some? && Get(d, "data").value.Obj?
                               && (Get(Get(d, "data").value.entries, "status") == Some(Str("error"))
                                   || Truthy(GetOr(Get(d, "data").value.entries, "error", Null)));
            r.Ok? ==>
              (topError ==> r.value.status == Error)
              && (!topError && failed ==> r.value.status == Failed)
              && (!topError && !failed && nestedError ==> r.value.status == Error)
              && (!topError && !failed && !nestedError ==> r.value.status == Success)
    ensures WrapToolResult(tool, RawDict(d), context).Raised? ==>
              var error := GenericError(d).1;
              Truthy(error) && (!error.Str? || !GetOr(context, "arguments", Obj([])).Obj?)
  {
    UnknownToolsUseGeneric(tool, RawDict(d), context);
    GenericReportRaises(d, GenericError(d).1, context);
  }

  /**
   * A generic text result is ERROR exactly when it mentions "error" in any
   * case; unless it matches one of the two known ADS error patterns, the text
   * itself is the summary.
   */
  lemma GenericTextClassification(tool: string, t: string, parsed: Option<Json>, context: Dict)
    requires tool !in SpecialTools
    requires !(parsed.Some? && parsed.value.Obj?)
    ensures WrapToolResult(tool, RawText(t, parsed), context).Ok?
    ensures var r := WrapToolResult(tool, RawText(t, parsed), context).value;
            (r.status == Error <==> Contains(Lower(t), "error"))
            && (r.status == Success <==> !Contains(Lower(t), "error"))
            && (!LibraryNotOpen(Lower(t)) && !CellNotFound(Lower(t)) ==> r.summary == Str(t) && r.instruction.None?)
  {
    UnknownToolsUseGeneric(tool, RawText(t, parsed), context);
  }

  /** The generic report raises only on a truthy error that is not a string or needs missing arguments. */
  lemma GenericReportRaises(d: Dict, error: Json, context: Dict)
    ensures GenericDictReport(d, error, context).Raised? ==>
              Truthy(error) && (!error.Str? || !GetOr(context, "arguments", Obj([])).Obj?)
  {
  }
}
