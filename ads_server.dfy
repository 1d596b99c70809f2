/**
 * The ADS tool handlers of the stateful MCP server: how each handler reads
 * and changes the workflow context, and the pure pieces they share (the
 * response envelope, the tool gate, the argument guards of
 * `check_cell_exists` and the component-library mapping). The ADS client is
 * an oracle: every command it would send is a parameter saying what the
 * command returned or raised.
 */
module AdsServer {
  import opened Wrappers
  import opened Strings
  import opened Json
  import opened Workflow
  import LoopControl

  /** What one command sent to the ADS client did. */
  datatype CommandOutcome = Returned(reply: Dict) | Threw(error: string)

  // ---------------------------------------------------------------------
  // Response envelope and tool gate

  /**
   * `format_human_response(message, data)` as the object it serializes: the
   * status is always "success" and the data entry is present iff the data is
   * truthy.
   */
  function FormatHumanResponse(message: string, data: Json): (r: Dict)
    ensures Get(r, "status") == Some(Str("success"))
    ensures Get(r, "message") == Some(Str(message))
    ensures HasKey(r, "data") <==> Truthy(data)
    ensures Truthy(data) ==> Get(r, "data") == Some(data)
    ensures DistinctKeys(r)
  {
    var base := [("status", Str("success")), ("message", Str(message))];
    if Truthy(data) then
      var r := base + [("data", data)];
      assert r[2].0 == "data";
      GetDistinct(r, 2);
      r
    else base
  }

  /** A response that carries only a message. */
  function Reply(message: string): Dict {
    FormatHumanResponse(message, Null)
  }

  /**
   * Whatever message a handler reports, the control layer reads its
   * envelope as a successful result, so a termination action ends the
   * agent's run even when the handler reports a failure.
   */
  lemma EnvelopeAlwaysSucceeds(message: string, data: Json, text: string, consecutive: int, calls: int)
    ensures LoopControl.IsSuccessfulResult(RawText(text, Some(Obj(FormatHumanResponse(message, data)))))
    ensures LoopControl.IsSuccessfulResult(RawDict(FormatHumanResponse(message, data)))
    ensures LoopControl.Decide(LoopControl.DefaultConfig, consecutive, calls, "add_components_from_plan",
                               RawText(text, Some(Obj(FormatHumanResponse(message, data))))).reason
            == Some(LoopControl.TerminationActionCalled)
  {
    LoopControl.DecidePriority(LoopControl.DefaultConfig, consecutive, calls, "add_components_from_plan",
                               RawText(text, Some(Obj(FormatHumanResponse(message, data)))));
  }

  /**
   * A listing of the allowed tools. `list(set)` yields the set's own
   * iteration order; the model uses the order the table is written in.
   */
  function AllowedListing(s: WorkflowState): seq<string> {
    match s
    case Idle => ["check_connection", "get_project_structure", "list_cells", "check_cell_exists",
                  "get_current_design", "get_workflow_status", "plan_circuit", "open_existing_design"]
    case Planning => ["check_connection", "get_workflow_status", "plan_circuit", "reset_workflow"]
    case SchematicCreated => ["check_connection", "get_workflow_status", "get_current_design",
                              "execute_circuit_plan", "reset_workflow"]
    case WaitingUser => ["check_connection", "get_workflow_status", "get_current_design",
                         "confirm_design_open", "reset_workflow"]
    case ComponentAdding => ["check_connection", "get_workflow_status", "get_current_design",
                             "add_component", "add_wire", "add_components_from_plan",
                             "save_current_design", "finish_design", "reset_workflow"]
    case Completed => ["check_connection", "get_workflow_status", "get_project_structure",
                       "plan_circuit", "reset_workflow"]
  }

  /**
   * The listing names every allowed tool exactly once. Any two names of one
   * listing differ in length or in their first letter.
   */
  lemma AllowedListingEnumerates(s: WorkflowState)
    ensures forall t :: t in AllowedListing(s) <==> t in AllowedToolsIn(s)
    ensures forall i, j :: 0 <= i < j < |AllowedListing(s)| ==> AllowedListing(s)[i] != AllowedListing(s)[j]
  {
    match s
    case Idle => ListingIdle();
    case Planning => ListingPlanning();
    case SchematicCreated => ListingSchematicCreated();
    case WaitingUser => ListingWaitingUser();
    case ComponentAdding => ListingComponentAdding();
    case Completed => ListingCompleted();
  }

  lemma ListingIdle()
    ensures forall t :: t in AllowedListing(Idle) <==> t in AllowedToolsIn(Idle)
    ensures forall i, j :: 0 <= i < j < |AllowedListing(Idle)| ==> AllowedListing(Idle)[i] != AllowedListing(Idle)[j]
  {
    var l := AllowedListing(Idle);
    assert forall i, j :: 0 <= i < j < |l| ==> |l[i]| != |l[j]| || l[i][0] != l[j][0];
  }

  lemma ListingPlanning()
    ensures forall t :: t in AllowedListing(Planning) <==> t in AllowedToolsIn(Planning)
    ensures forall i, j :: 0 <= i < j < |AllowedListing(Planning)| ==> AllowedListing(Planning)[i] != AllowedListing(Planning)[j]
  {
    GlobalToolsAlreadyListed(Planning);
    var l := AllowedListing(Planning);
    assert forall i, j :: 0 <= i < j < |l| ==> |l[i]| != |l[j]| || l[i][0] != l[j][0];
  }

  lemma ListingSchematicCreated()
    ensures forall t :: t in AllowedListing(SchematicCreated) <==> t in AllowedToolsIn(SchematicCreated)
    ensures forall i, j :: 0 <= i < j < |AllowedListing(SchematicCreated)| ==> AllowedListing(SchematicCreated)[i] != AllowedListing(SchematicCreated)[j]
  {
    GlobalToolsAlreadyListed(SchematicCreated);
    var l := AllowedListing(SchematicCreated);
    assert forall i, j :: 0 <= i < j < |l| ==> |l[i]| != |l[j]| || l[i][0] != l[j][0];
  }

  lemma ListingWaitingUser()
    ensures forall t :: t in AllowedListing(WaitingUser) <==> t in AllowedToolsIn(WaitingUser)
    ensures forall i, j :: 0 <= i < j < |AllowedListing(WaitingUser)| ==> AllowedListing(WaitingUser)[i] != AllowedListing(WaitingUser)[j]
  {
    GlobalToolsAlreadyListed(WaitingUser);
    var l := AllowedListing(WaitingUser);
    assert forall i, j :: 0 <= i < j < |l| ==> |l[i]| != |l[j]| || l[i][0] != l[j][0];
  }

  lemma ListingComponentAdding()
    ensures forall t :: t in AllowedListing(ComponentAdding) <==> t in AllowedToolsIn(ComponentAdding)
    ensures forall i, j :: 0 <= i < j < |AllowedListing(ComponentAdding)| ==> AllowedListing(ComponentAdding)[i] != AllowedListing(ComponentAdding)[j]
  {
    GlobalToolsAlreadyListed(ComponentAdding);
    var l := AllowedListing(ComponentAdding);
    assert forall i, j :: 0 <= i < j < |l| ==> |l[i]| != |l[j]| || l[i][0] != l[j][0];
  }

  lemma ListingCompleted()
    ensures forall t :: t in AllowedListing(Completed) <==> t in AllowedToolsIn(Completed)
    ensures forall i, j :: 0 <= i < j < |AllowedListing(Completed)| ==> AllowedListing(Completed)[i] != AllowedListing(Completed)[j]
  {
    GlobalToolsAlreadyListed(Completed);
    var l := AllowedListing(Completed);
    assert forall i, j :: 0 <= i < j < |l| ==> |l[i]| != |l[j]| || l[i][0] != l[j][0];
  }

  /** The denial text of `check_tool_allowed`. */
  function DenialText(tool: string, s: WorkflowState): string {
    "工具 '" + tool + ("' 在当前状态 (" + StateName(s)
    + (") 下不可用。\n当前可用工具: " + PyStr(Arr(seq(|AllowedListing(s)|, i requires 0 <= i < |AllowedListing(s)| => Str(AllowedListing(s)[i]))))
       + "\n如需重置工作流，请使用 reset_workflow 工具。"))
  }

  /** `check_tool_allowed(tool)`: None when the tool may run, else the denial text. */
  function CheckToolAllowed(s: WorkflowState, tool: string): (r: Option<string>)
    ensures r.None? <==> tool in AllowedToolsIn(s)
    ensures r.Some? ==> Contains(r.value, tool) && Contains(r.value, StateName(s))
    ensures r.Some? ==> r.value == DenialText(tool, s)
  {
    if tool in AllowedToolsIn(s) then None
    else
      DenialNames(tool, s);
      Some(DenialText(tool, s))
  }

  /** The denial names the refused tool and the current state. */
  lemma DenialNames(tool: string, s: WorkflowState)
    ensures Contains(DenialText(tool, s), tool)
    ensures Contains(DenialText(tool, s), StateName(s))
  {
    var tail := ") 下不可用。\n当前可用工具: " + PyStr(Arr(seq(|AllowedListing(s)|, i requires 0 <= i < |AllowedListing(s)| => Str(AllowedListing(s)[i]))))
                + "\n如需重置工作流，请使用 reset_workflow 工具。";
    ContainsInfix("工具 '", tool, "' 在当前状态 (" + StateName(s) + tail);
    ContainsInfix("' 在当前状态 (", StateName(s), tail);
    ContainsConcat("工具 '" + tool, "' 在当前状态 (" + StateName(s) + tail, StateName(s));
  }

  /**
   * Every handler starts with the gate; a refused tool gets its denial as a
   * bare message and the workflow is not touched.
   */
  function Gate(wmState: WorkflowState, tool: string): Option<Dict> {
    match CheckToolAllowed(wmState, tool)
    case None => None
    case Some(denial) => Some(Reply(denial))
  }

  const ClientUnavailable: string := "ADS 客户端不可用"

  // ---------------------------------------------------------------------
  // reset_workflow

  const AlreadyIdle: string := "工作流已经处于 IDLE 状态，无需重置。"

  /**
   * `reset_workflow`: in IDLE nothing changes; elsewhere the context is the
   * default one and the response carries `reset()`'s report.
   */
  method ResetWorkflow(wm: WorkflowManager) returns (response: Dict)
    modifies wm
    ensures old(wm.context.state) == Idle ==> wm.context == old(wm.context)
    ensures old(wm.context.state) == Idle ==> response == FormatHumanResponse(AlreadyIdle, Obj([("state", Str("IDLE"))]))
    ensures old(wm.context.state) != Idle ==> wm.context == DefaultContext
    ensures old(wm.context.state) != Idle ==>
              response == FormatHumanResponse(ResetMessage(old(wm.context.state)), Obj(ResetReport(old(wm.context.state))))
  {
    if wm.context.state == Idle {
      return FormatHumanResponse(AlreadyIdle, Obj([("state", Str("IDLE"))]));
    }
    var report := wm.Reset();
    var message := GetOr(report, "message", Null);
    response := FormatHumanResponse(message.s, Obj(report));
  }

  // ---------------------------------------------------------------------
  // check_cell_exists

  const KnownComponentLibraries: seq<string> := ["ads_rflib", "ads_sources", "ads_simulation"]

  function ComponentLibraryMessage(lib: string): string {
    "❌ 错误：'" + lib + "' 是元件库，不能用于存放设计！\n\n"
    + "请先调用 `get_project_structure` 获取正确的项目库名（如 MyLibrary3_lib）。"
  }

  function SameAsCellMessage(lib: string): string {
    "❌ 错误：库名和 cell 名相同（'" + lib + "'），这通常是错误的！\n\n"
    + "library_name 应该是项目库（如 'MyLibrary3_lib'），不是 cell 名称。\n"
    + "请先调用 `get_project_structure` 获取正确的项目库名。"
  }

  function LibraryNotFoundMessage(lib: string): string {
    "❌ 库 '" + lib + "' 不存在或未打开！\n\n"
    + "可能的原因：'" + lib + "' 不是有效的项目库名。\n"
    + "请先调用 `get_project_structure` 获取正确的项目库名。"
  }

  /**
   * The two argument guards of `check_cell_exists`: a component library used
   * as the project library, and a library named like the cell.
   */
  function CellArgumentGuard(lib: string, cell: string): (r: Option<Dict>)
    ensures r.None? <==> lib !in KnownComponentLibraries && lib != cell
    ensures lib in KnownComponentLibraries ==>
              r == Some(FormatHumanResponse(ComponentLibraryMessage(lib),
                          Obj([("error", Str("component_library_used_as_project")), ("library_name", Str(lib))])))
    ensures lib !in KnownComponentLibraries && lib == cell ==>
              r == Some(FormatHumanResponse(SameAsCellMessage(lib),
                          Obj([("error", Str("library_same_as_cell")), ("library_name", Str(lib)), ("cell_name", Str(cell))])))
  {
    if lib in KnownComponentLibraries then
      Some(FormatHumanResponse(ComponentLibraryMessage(lib),
                               Obj([("error", Str("component_library_used_as_project")), ("library_name", Str(lib))])))
    else if lib == cell then
      Some(FormatHumanResponse(SameAsCellMessage(lib),
                               Obj([("error", Str("library_same_as_cell")), ("library_name", Str(lib)), ("cell_name", Str(cell))])))
    else None
  }

  /** The text of an exception from the check: the client's own or the attribute error of the lookup. */
  function CheckCellFailure(lib: string, error: string): Dict {
    if Contains(Lower(error), "not open") || Contains(Lower(error), "library") then
      FormatHumanResponse(LibraryNotFoundMessage(lib), Obj([("error", Str("library_not_found")), ("library_name", Str(lib))]))
    else Reply("检查单元失败: " + error)
  }

  /**
   * `check_cell_exists(library_name, cell_name)`: the gate, the argument
   * guards, the client, and then the reply's `data.exists` (default False).
   * It never changes the workflow.
   */
  function CheckCellExists(s: WorkflowState, lib: string, cell: string, clientAvailable: bool, outcome: CommandOutcome): (r: Dict)
    ensures Gate(s, "check_cell_exists").Some? ==> r == Gate(s, "check_cell_exists").value
    ensures Gate(s, "check_cell_exists").None? && CellArgumentGuard(lib, cell).Some? ==> r == CellArgumentGuard(lib, cell).value
    ensures Gate(s, "check_cell_exists").None? && CellArgumentGuard(lib, cell).None? && !clientAvailable ==>
              r == Reply(ClientUnavailable)
    ensures Gate(s, "check_cell_exists").None? && CellArgumentGuard(lib, cell).None? && clientAvailable && outcome.Threw? ==>
              r == CheckCellFailure(lib, outcome.error)
  {
    if Gate(s, "check_cell_exists").Some? then Gate(s, "check_cell_exists").value
    else if CellArgumentGuard(lib, cell).Some? then CellArgumentGuard(lib, cell).value
    else if !clientAvailable then Reply(ClientUnavailable)
    else match outcome
      case Threw(e) => CheckCellFailure(lib, e)
      case Returned(reply) => ExistenceReport(lib, cell, reply)
  }

  /** The response to a returned existence check. */
  function ExistenceReport(lib: string, cell: string, reply: Dict): Dict {
    match NestedGet(reply, "data", "exists", Bool(false))
    case Raised(e) => CheckCellFailure(lib, e)
    case Ok(present) =>
      FormatHumanResponse(ExistenceMessage(lib, cell, Truthy(present)), Obj(reply))
  }

  function ExistenceMessage(lib: string, cell: string, present: bool): string {
    if present then "✓ 单元 '" + cell + "' 在库 '" + lib + "' 中已存在。"
    else "✗ 单元 '" + cell + "' 在库 '" + lib + "' 中不存在。"
  }

  /**
   * Both argument guards fire before the ADS client is consulted: when one
   * of them applies, the response is the same whatever the client does.
   */
  lemma CellGuardsPrecedeClient(s: WorkflowState, lib: string, cell: string,
                                c1: bool, o1: CommandOutcome, c2: bool, o2: CommandOutcome)
    requires lib in KnownComponentLibraries || lib == cell
    ensures CheckCellExists(s, lib, cell, c1, o1) == CheckCellExists(s, lib, cell, c2, o2)
    ensures "check_cell_exists" in AllowedToolsIn(s) ==>
              Get(CheckCellExists(s, lib, cell, c1, o1), "data").Some?
  {
    CheckCellGuarded(s, lib, cell, c1, o1);
    CheckCellGuarded(s, lib, cell, c2, o2);
    if "check_cell_exists" in AllowedToolsIn(s) {
      GuardReportsData(lib, cell);
    }
  }

  /** With a guard that fires, the response is the gate's or the guard's. */
  lemma CheckCellGuarded(s: WorkflowState, lib: string, cell: string, c: bool, o: CommandOutcome)
    requires lib in KnownComponentLibraries || lib == cell
    ensures CheckCellExists(s, lib, cell, c, o)
            == if Gate(s, "check_cell_exists").Some? then Gate(s, "check_cell_exists").value
               else CellArgumentGuard(lib, cell).value
  {
  }

  /** A guard that fires answers with its error details as data. */
  lemma GuardReportsData(lib: string, cell: string)
    requires CellArgumentGuard(lib, cell).Some?
    ensures Get(CellArgumentGuard(lib, cell).value, "data").Some?
  {
    if lib in KnownComponentLibraries {
      assert Truthy(Obj([("error", Str("component_library_used_as_project")), ("library_name", Str(lib))]));
    } else {
      assert Truthy(Obj([("error", Str("library_same_as_cell")), ("library_name", Str(lib)), ("cell_name", Str(cell))]));
    }
  }

  /** A reply with a dict `data` reports existence exactly by the truthiness of `exists`. */
  lemma CheckCellReportsExistence(s: WorkflowState, lib: string, cell: string, reply: Dict, data: Dict)
    requires "check_cell_exists" in AllowedToolsIn(s)
    requires lib !in KnownComponentLibraries && lib != cell
    requires Get(reply, "data") == Some(Obj(data))
    ensures Get(CheckCellExists(s, lib, cell, true, Returned(reply)), "message")
            == Some(Str(ExistenceMessage(lib, cell, Truthy(GetOr(data, "exists", Bool(false))))))
    ensures Get(CheckCellExists(s, lib, cell, true, Returned(reply)), "data") == Some(Obj(reply))
  {
    CheckCellReachesClient(s, lib, cell, Returned(reply));
    ExistenceReportFields(lib, cell, reply, data);
  }

  lemma CheckCellReachesClient(s: WorkflowState, lib: string, cell: string, outcome: CommandOutcome)
    requires "check_cell_exists" in AllowedToolsIn(s)
    requires lib !in KnownComponentLibraries && lib != cell
    requires outcome.Returned?
    ensures CheckCellExists(s, lib, cell, true, outcome) == ExistenceReport(lib, cell, outcome.reply)
  {
    assert Gate(s, "check_cell_exists").None?;
    assert CellArgumentGuard(lib, cell).None?;
  }

  lemma ExistenceReportFields(lib: string, cell: string, reply: Dict, data: Dict)
    requires Get(reply, "data") == Some(Obj(data))
    ensures Get(ExistenceReport(lib, cell, reply), "message")
            == Some(Str(ExistenceMessage(lib, cell, Truthy(GetOr(data, "exists", Bool(false))))))
    ensures Get(ExistenceReport(lib, cell, reply), "data") == Some(Obj(reply))
  {
    assert reply != [];
    assert NestedGet(reply, "data", "exists", Bool(false)) == Ok(GetOr(data, "exists", Bool(false)));
  }

  // ---------------------------------------------------------------------
  // open_existing_design

  /** The reply of the existence check says the cell exists. */
  predicate CellFound(outcome: CommandOutcome) {
    outcome.Returned? && NestedGet(outcome.reply, "data", "exists", Bool(false)).Ok?
    && Truthy(NestedGet(outcome.reply, "data", "exists", Bool(false)).value)
  }

  /** The context after opening `lib:cell`: no plan, zero counters, COMPONENT_ADDING. */
  function OpenedContext(c: WorkflowContext, lib: string, cell: string): WorkflowContext {
    c.(planId := Null, planData := Null, componentsAdded := 0, totalComponents := 0,
       libraryName := Str(lib), cellName := Str(cell), designUri := Str(lib + ":" + cell + ":schematic"),
       state := ComponentAdding)
  }

  /**
   * An opened design allows single-component edits but has no plan to add
   * from, and its progress counters start again from zero.
   */
  lemma OpenedContextShape(c: WorkflowContext, lib: string, cell: string)
    ensures "add_component" in AllowedToolsIn(OpenedContext(c, lib, cell).state)
    ensures "finish_design" in AllowedToolsIn(OpenedContext(c, lib, cell).state)
    ensures !Truthy(OpenedContext(c, lib, cell).planData)
    ensures Truthy(OpenedContext(c, lib, cell).designUri)
    ensures OpenedContext(c, lib, cell).componentsAdded == 0 && OpenedContext(c, lib, cell).totalComponents == 0
  {
  }

  function OpenedMessage(uri: string): string {
    "✓ **准备在现有设计中添加元件**\n\n"
    + "- **设计**: `" + uri + "`\n"
    + "- **状态**: COMPONENT_ADDING\n\n"
    + "⚠️ **重要**: 请确保您已在 ADS 中打开此设计！\n\n"
    + "**注意**: 这是现有设计模式，没有预定义的计划。\n"
    + "请使用 `add_component` 直接添加元件（不要使用 add_components_from_plan）。\n\n"
    + "**可用操作**:\n"
    + "- `add_component(design_uri, component_type, instance_name, x, y)` - 添加单个元件\n"
    + "- `add_wire` - 添加连线\n"
    + "- `save_current_design` - 保存设计\n"
    + "- `finish_design` - 完成工作流"
  }

  /**
   * `open_existing_design(library_name, cell_name)`: only an existing cell
   * changes the workflow, to `OpenedContext`; every other path leaves it alone.
   */
  method OpenExistingDesign(wm: WorkflowManager, lib: string, cell: string, clientAvailable: bool, check: CommandOutcome)
    returns (response: Dict)
    modifies wm
    ensures Gate(old(wm.context.state), "open_existing_design").None? && clientAvailable && CellFound(check) ==>
              wm.context == OpenedContext(old(wm.context), lib, cell)
    ensures !(Gate(old(wm.context.state), "open_existing_design").None? && clientAvailable && CellFound(check)) ==>
              wm.context == old(wm.context)
    ensures Gate(old(wm.context.state), "open_existing_design").Some? ==>
              response == Gate(old(wm.context.state), "open_existing_design").value
  {
    var gate := Gate(wm.context.state, "open_existing_design");
    if gate.Some? {
      return gate.value;
    }
    if !clientAvailable {
      return Reply(ClientUnavailable);
    }
    if check.Threw? {
      return Reply("打开设计失败: " + check.error);
    }
    var found := NestedGet(check.reply, "data", "exists", Bool(false));
    if found.Raised? {
      return Reply("打开设计失败: " + found.error);
    }
    if !Truthy(found.value) {
      return FormatHumanResponse("❌ 设计 '" + cell + "' 在库 '" + lib + "' 中不存在！\n\n"
                                 + "请先确认设计名称，或使用 `plan_circuit` 创建新设计。",
                                 Obj([("error", Str("cell_not_found")), ("library_name", Str(lib)), ("cell_name", Str(cell))]));
    }
    var uri := lib + ":" + cell + ":schematic";
    wm.context := wm.context.(planId := Null, planData := Null, componentsAdded := 0, totalComponents := 0);
    wm.context := wm.context.(libraryName := Str(lib), cellName := Str(cell), designUri := Str(uri));
    var _ := wm.TransitionTo(ComponentAdding, []);
    response := FormatHumanResponse(OpenedMessage(uri),
                                    Obj([("design_uri", Str(uri)), ("state", Str(StateName(ComponentAdding))),
                                         ("library_name", Str(lib)), ("cell_name", Str(cell)),
                                         ("mode", Str("existing_design")), ("has_plan", Bool(false))]));
  }

  // ---------------------------------------------------------------------
  // plan_circuit

  /**
   * The libraries `plan_circuit` sees: the reply's `data.libraries` when the
   * connection check says connected and the listing command returns, else [].
   */
  function AvailableLibraries(connection: Dict, listing: CommandOutcome): (r: Json)
    ensures !Truthy(GetOr(connection, "connected", Null)) ==> r == Arr([])
    ensures listing.Threw? ==> r == Arr([])
  {
    if !Truthy(GetOr(connection, "connected", Null)) then Arr([])
    else match listing
      case Threw(_) => Arr([])
      case Returned(reply) =>
        match NestedGet(reply, "data", "libraries", Arr([]))
        case Ok(libs) => libs
        case Raised(_) => Arr([])
  }

  /** `v[0]` for a truthy value. */
  function FirstItem(v: Json): (r: Result<Json>)
    ensures v.Arr? && |v.items| > 0 ==> r == Ok(v.items[0])
  {
    match v
    case Arr(items) => if |items| > 0 then Ok(items[0]) else Raised("list index out of range")
    case Str(s) => if |s| > 0 then Ok(Str(s[..1])) else Raised("string index out of range")
    case Obj(_) => Raised("0")
    case _ => Raised("'" + TypeName(v) + "' object is not subscriptable")
  }

  /** The target library: the one given, else the first available one when there is one. */
  function TargetLibrary(libraryName: Json, available: Json): Result<Json> {
    if !Truthy(libraryName) && Truthy(available) then FirstItem(available) else Ok(libraryName)
  }

  /** The design URI a plan records: "target:name:schematic" when there is a target, else None. */
  function PlannedUri(target: Json, circuitName: string): Json {
    if Truthy(target) then Str(PyStr(target) + ":" + circuitName + ":schematic") else Null
  }

  /** The circuit part of a plan. */
  function CircuitDict(circuitName: string, circuitType: string, description: string, target: Json): Dict {
    [("name", Str(circuitName)), ("type", Str(circuitType)), ("description", Str(description)),
     ("library", target), ("design_uri", PlannedUri(target, circuitName))]
  }

  lemma CircuitEntries(circuitName: string, circuitType: string, description: string, target: Json)
    ensures var d := CircuitDict(circuitName, circuitType, description, target);
            Get(d, "name") == Some(Str(circuitName)) && Get(d, "library") == Some(target)
            && Get(d, "design_uri") == Some(PlannedUri(target, circuitName))
  {
    var d := CircuitDict(circuitName, circuitType, description, target);
    assert DistinctKeys(d);
    GetDistinct(d, 0);
    GetDistinct(d, 3);
    GetDistinct(d, 4);
  }

  /** The plan dict `plan_circuit` builds and stores. */
  function PlanDict(planId: string, circuitName: string, circuitType: string, description: string,
                    target: Json, connection: Dict, available: Json, components: seq<Json>): Dict
  {
    [("plan_id", Str(planId)), ("status", Str("pending_execution")), ("connection", Obj(connection)),
     ("circuit", Obj(CircuitDict(circuitName, circuitType, description, target))),
     ("available_libraries", available), ("components", Arr(components)),
     ("component_count", Num(|components|))]
  }

  /** The stored plan's component list and circuit dict. */
  lemma PlanDictEntries(planId: string, circuitName: string, circuitType: string, description: string,
                        target: Json, connection: Dict, available: Json, components: seq<Json>)
    ensures var plan := PlanDict(planId, circuitName, circuitType, description, target, connection, available, components);
            Get(plan, "components") == Some(Arr(components))
            && Get(plan, "circuit") == Some(Obj(CircuitDict(circuitName, circuitType, description, target)))
  {
    var plan := PlanDict(planId, circuitName, circuitType, description, target, connection, available, components);
    assert DistinctKeys(plan);
    assert plan[3].0 == "circuit" && plan[5] == ("components", Arr(components));
    GetDistinct(plan, 3);
    GetDistinct(plan, 5);
  }

  /**
   * The target is the given library when one is given, else the first of a
   * non-empty library list, else the (falsy) given value; and the planned
   * URI exists exactly when the target does.
   */
  lemma TargetLibraryChoice(libraryName: Json, available: Json, circuitName: string)
    ensures Truthy(libraryName) ==> TargetLibrary(libraryName, available) == Ok(libraryName)
    ensures !Truthy(libraryName) && available.Arr? && |available.items| > 0 ==>
              TargetLibrary(libraryName, available) == Ok(available.items[0])
    ensures !Truthy(available) ==> TargetLibrary(libraryName, available) == Ok(libraryName)
    ensures PlannedUri(libraryName, circuitName).Str? <==> Truthy(libraryName)
    ensures Truthy(libraryName) ==>
              PlannedUri(libraryName, circuitName) == Str(PyStr(libraryName) + ":" + circuitName + ":schematic")
  {
  }

  function PlanMessage(planId: string, circuitName: string, circuitType: string, target: Json, count: nat): string {
    "✓ **电路计划已创建**\n\n"
    + "- **Plan ID**: `" + planId + "`\n"
    + "- **电路名称**: " + circuitName + "\n"
    + "- **类型**: " + circuitType + "\n"
    + "- **目标库**: " + PyStr(target) + "\n"
    + "- **元件数量**: " + NatToString(count) + "\n\n"
    + "**下一步**: 调用 `execute_circuit_plan` 创建原理图文件。"
  }

  /**
   * `plan_circuit(...)` with a fresh `planId` (the first eight characters
   * of a UUID), the connection check's dict and the library listing's
   * outcome. The plan is stored and the workflow goes to SCHEMATIC_CREATED,
   * never PLANNING; it raises only when the first available library cannot
   * be taken, before anything is stored.
   */
  method PlanCircuit(wm: WorkflowManager, planId: string, circuitName: string, circuitType: string,
                     components: seq<Json>, libraryName: Json, description: string,
                     connection: Dict, listing: CommandOutcome)
    returns (outcome: Result<Dict>)
    modifies wm
    ensures Gate(old(wm.context.state), "plan_circuit").Some? ==>
              wm.context == old(wm.context) && outcome == Ok(Gate(old(wm.context.state), "plan_circuit").value)
    ensures outcome.Raised? ==> wm.context == old(wm.context)
    ensures Gate(old(wm.context.state), "plan_circuit").None? ==>
              var target := TargetLibrary(libraryName, AvailableLibraries(connection, listing));
              (outcome.Raised? <==> target.Raised?)
              && (target.Ok? ==>
                    wm.context == old(wm.context).(state := SchematicCreated, planId := Str(planId),
                                  planData := Obj(PlanDict(planId, circuitName, circuitType, description, target.value,
                                                           connection, AvailableLibraries(connection, listing), components)),
                                  totalComponents := |components|, libraryName := target.value,
                                  cellName := Str(circuitName), designUri := PlannedUri(target.value, circuitName)))
  {
    var gate := Gate(wm.context.state, "plan_circuit");
    if gate.Some? {
      return Ok(gate.value);
    }
    var available := AvailableLibraries(connection, listing);
    var target := TargetLibrary(libraryName, available);
    if target.Raised? {
      return Raised(target.error);
    }
    var plan := PlanDict(planId, circuitName, circuitType, description, target.value, connection, available, components);
    var circuit := CircuitDict(circuitName, circuitType, description, target.value);
    CircuitEntries(circuitName, circuitType, description, target.value);
    PlanDictEntries(planId, circuitName, circuitType, description, target.value, connection, available, components);
    SetPlanStores(wm.context, planId, plan, components, circuit);
    ghost var stored := SetPlanStep(wm.context, planId, plan).0;
    var _ := wm.SetPlan(planId, plan);
    assert wm.context == stored;
    outcome := Ok(FormatHumanResponse(PlanMessage(planId, circuitName, circuitType, target.value, |components|), Obj(plan)));
  }

  // ---------------------------------------------------------------------
  // execute_circuit_plan

  const NoPlanToExecute: string := "没有待执行的计划。请先调用 plan_circuit 创建计划。"

  function ExecuteError(error: string): Dict {
    Reply("执行计划时出错: " + error)
  }

  /** `plan["circuit"]["library"]` and `plan["circuit"]["name"]`, or the lookup's exception. */
  function PlanCell(plan: Json): (r: Result<(Json, Json)>)
    ensures r.Ok? ==> plan.Obj? && Get(plan.entries, "circuit").Some? && Get(plan.entries, "circuit").value.Obj?
  {
    match Subscript(plan, "circuit")
    case Raised(e) => Raised(e)
    case Ok(circuit) =>
      match Subscript(circuit, "library")
      case Raised(e) => Raised(e)
      case Ok(lib) =>
        match Subscript(circuit, "name")
        case Raised(e) => Raised(e)
        case Ok(name) => Ok((lib, name))
  }

  /** The URI the created schematic gets: the reply's `data.uri`, or "lib:cell:schematic" when that is falsy. */
  function CreatedUri(reply: Dict, lib: Json, name: Json): Result<Json> {
    match NestedGet(reply, "data", "uri", Null)
    case Raised(e) => Raised(e)
    case Ok(uri) => Ok(if Truthy(uri) then uri else Str(PyStr(lib) + ":" + PyStr(name) + ":schematic"))
  }

  /** A reply whose status is "success". */
  predicate Succeeded(reply: Dict) {
    Get(reply, "status") == Some(Str("success"))
  }

  /** The create command ran and reported a failure: its reply is kept as the error message. */
  predicate CreateRejected(c: WorkflowContext, clientAvailable: bool, create: CommandOutcome) {
    Gate(c.state, "execute_circuit_plan").None? && Truthy(c.planData) && clientAvailable
    && PlanCell(c.planData).Ok? && create.Returned? && !Succeeded(create.reply)
  }

  /** Every step succeeded up to and including the save command's return. */
  predicate ExecuteCompletes(c: WorkflowContext, clientAvailable: bool, create: CommandOutcome, save: CommandOutcome) {
    Gate(c.state, "execute_circuit_plan").None? && Truthy(c.planData) && clientAvailable
    && PlanCell(c.planData).Ok? && create.Returned? && Succeeded(create.reply)
    && CreatedUri(create.reply, PlanCell(c.planData).value.0, PlanCell(c.planData).value.1).Ok?
    && save.Returned?
  }

  /** Without a URI in the reply the design falls back to "lib:cell:schematic". */
  lemma CreatedUriFallback(reply: Dict, lib: Json, name: Json)
    requires Get(reply, "data").None?
    ensures CreatedUri(reply, lib, name) == Ok(Str(PyStr(lib) + ":" + PyStr(name) + ":schematic"))
  {
  }

  function ExecutedMessage(uri: Json, saved: bool, lib: Json, name: Json): string {
    "✓ **原理图已创建**\n\n"
    + "- **Design URI**: `" + PyStr(uri) + "`\n"
    + "- **保存状态**: " + (if saved then "成功" else "失败") + "\n\n"
    + "**⚠️ 重要**: 请在 ADS 中打开此设计:\n"
    + "1. 在 ADS 左侧导航栏找到 `" + PyStr(lib) + "` -> `" + PyStr(name) + "`\n"
    + "2. 双击打开原理图\n"
    + "3. 回复 '已打开' 或调用 `confirm_design_open`"
  }

  /**
   * `execute_circuit_plan(plan_id)` with the outcomes of the create and save
   * commands. A completed run records the URI and waits for the user; a
   * rejected create records its reply as the error; nothing else changes
   * the workflow.
   */
  method ExecuteCircuitPlan(wm: WorkflowManager, planIdArg: Json, clientAvailable: bool,
                            create: CommandOutcome, save: CommandOutcome)
    returns (response: Dict)
    modifies wm
    ensures ExecuteCompletes(old(wm.context), clientAvailable, create, save) ==>
              var cell := PlanCell(old(wm.context).planData).value;
              wm.context == old(wm.context).(designUri := CreatedUri(create.reply, cell.0, cell.1).value,
                                             state := WaitingUser)
    ensures CreateRejected(old(wm.context), clientAvailable, create) ==>
              wm.context == old(wm.context).(errorMessage := Str(PyStr(Obj(create.reply))))
    ensures (!ExecuteCompletes(old(wm.context), clientAvailable, create, save)
             && !CreateRejected(old(wm.context), clientAvailable, create)) ==> wm.context == old(wm.context)
    ensures Gate(old(wm.context.state), "execute_circuit_plan").None? && !Truthy(old(wm.context.planData)) ==>
              response == Reply(NoPlanToExecute)
  {
    var gate := Gate(wm.context.state, "execute_circuit_plan");
    if gate.Some? {
      return gate.value;
    }
    var plan := wm.GetPlan();
    if !Truthy(plan) {
      return Reply(NoPlanToExecute);
    }
    var planId := if Truthy(planIdArg) then planIdArg else wm.context.planId;
    if !clientAvailable {
      return Reply(ClientUnavailable);
    }
    var cell := PlanCell(plan);
    if cell.Raised? {
      return ExecuteError(cell.error);
    }
    var (lib, name) := cell.value;
    if create.Threw? {
      return ExecuteError(create.error);
    }
    if !Succeeded(create.reply) {
      wm.context := wm.context.(errorMessage := Str(PyStr(Obj(create.reply))));
      return Reply("创建原理图失败: " + PyStr(GetOr(create.reply, "message", Str("Unknown error"))));
    }
    var uri := CreatedUri(create.reply, lib, name);
    if uri.Raised? {
      return ExecuteError(uri.error);
    }
    if save.Threw? {
      return ExecuteError(save.error);
    }
    wm.SetDesignUri(uri.value);
    var _ := wm.TransitionTo(WaitingUser, []);
    response := FormatHumanResponse(ExecutedMessage(uri.value, Succeeded(save.reply), lib, name),
                                    Obj([("design_uri", uri.value), ("plan_id", planId),
                                         ("next_action", Str("confirm_design_open"))]));
  }

  // ---------------------------------------------------------------------
  // confirm_design_open

  const ConfirmedMessage: string :=
    "✓ **设计已确认打开**\n\n"
    + "现在可以添加元件了。可用操作:\n"
    + "- `add_components_from_plan` - 批量添加计划中的所有元件\n"
    + "- `add_component` - 添加单个元件\n"
    + "- `add_wire` - 添加连线\n"
    + "- `save_current_design` - 保存设计\n"
    + "- `finish_design` - 完成设计"

  /**
   * `confirm_design_open()`: once allowed, the workflow always moves to
   * COMPONENT_ADDING (the client's view of the open design is only logged).
   */
  method ConfirmDesignOpen(wm: WorkflowManager) returns (response: Dict)
    modifies wm
    ensures Gate(old(wm.context.state), "confirm_design_open").Some? ==>
              wm.context == old(wm.context) && response == Gate(old(wm.context.state), "confirm_design_open").value
    ensures Gate(old(wm.context.state), "confirm_design_open").None? ==>
              wm.context == old(wm.context).(state := ComponentAdding)
    ensures Gate(old(wm.context.state), "confirm_design_open").None? ==>
              response == FormatHumanResponse(ConfirmedMessage, Obj([("state", Str("COMPONENT_ADDING")),
                                                                    ("design_uri", old(wm.context.designUri))]))
  {
    var gate := Gate(wm.context.state, "confirm_design_open");
    if gate.Some? {
      return gate.value;
    }
    var _ := wm.TransitionTo(ComponentAdding, []);
    response := FormatHumanResponse(ConfirmedMessage, Obj([("state", Str(StateName(ComponentAdding))),
                                                          ("design_uri", wm.context.designUri)]));
  }

  // ---------------------------------------------------------------------
  // Component-library mapping and add_component(s)

  /**
   * The library and cell a plan component's type is placed from: sources
   * keep their cell in `ads_sources`, every spelling of ground becomes
   * `ads_rflib:GROUND`, simulation controls keep their cell in
   * `ads_simulation`, anything else keeps its cell in `ads_rflib`.
   */
  function LibraryFor(compType: Json): (r: (string, Json))
    ensures r.0 in KnownComponentLibraries
    ensures r.1 == Str("GROUND") || r.1 == compType
  {
    if compType in [Str("V_DC"), Str("V_AC"), Str("I_DC")] then ("ads_sources", compType)
    else if compType in [Str("Ground"), Str("GND"), Str("GROUND")] then ("ads_rflib", Str("GROUND"))
    else if compType in [Str("Term"), Str("S_Param"), Str("DC"), Str("HB")] then ("ads_simulation", compType)
    else ("ads_rflib", compType)
  }

  /** The mapping table, case by case. */
  lemma LibraryForTable(compType: Json)
    ensures LibraryFor(compType).0 == "ads_sources" <==> compType in [Str("V_DC"), Str("V_AC"), Str("I_DC")]
    ensures LibraryFor(compType).1 == Str("GROUND") <==> compType in [Str("Ground"), Str("GND"), Str("GROUND")]
    ensures LibraryFor(compType).0 == "ads_simulation" <==> compType in [Str("Term"), Str("S_Param"), Str("DC"), Str("HB")]
    ensures LibraryFor(compType).0 == "ads_rflib" <==>
              compType !in [Str("V_DC"), Str("V_AC"), Str("I_DC"), Str("Term"), Str("S_Param"), Str("DC"), Str("HB")]
    ensures LibraryFor(Str("R")) == ("ads_rflib", Str("R"))
  {
  }

  /**
   * Every library a plan component is placed from is one of the libraries
   * `check_cell_exists` refuses as a project library.
   */
  lemma MappedLibrariesAreGuarded(compType: Json, cell: string)
    ensures CellArgumentGuard(LibraryFor(compType).0, cell).Some?
  {
  }

  /** The `add_instance` payload for one plan component (a dict). */
  function ComponentPayload(uri: Json, comp: Dict): Dict {
    var mapped := LibraryFor(GetOr(comp, "type", Str("R")));
    var base := PayloadBase(uri, mapped.0, mapped.1, GetOr(comp, "x", Num(0)), GetOr(comp, "y", Num(0)),
                            GetOr(comp, "name", Str("")));
    var angle := GetOr(comp, "angle", Null);
    if angle != Null then base + [("angle", angle)] else base
  }

  /**
   * The payload sends the mapped library and cell to the design, with the
   * component's defaults (type "R", name "", x and y 0), and an angle only
   * when the component has a non-None one.
   */
  lemma ComponentPayloadShape(uri: Json, comp: Dict)
    ensures var r := ComponentPayload(uri, comp);
            var mapped := LibraryFor(GetOr(comp, "type", Str("R")));
            && Get(r, "design_uri") == Some(uri)
            && Get(r, "component_lib") == Some(Str(mapped.0))
            && Get(r, "component_cell") == Some(mapped.1)
            && Get(r, "name") == Some(GetOr(comp, "name", Str("")))
            && (HasKey(r, "angle") <==> GetOr(comp, "angle", Null) != Null)
            && DistinctKeys(r)
  {
    var mapped := LibraryFor(GetOr(comp, "type", Str("R")));
    var base := PayloadBase(uri, mapped.0, mapped.1, GetOr(comp, "x", Num(0)), GetOr(comp, "y", Num(0)),
                            GetOr(comp, "name", Str("")));
    PayloadBaseShape(uri, mapped.0, mapped.1, GetOr(comp, "x", Num(0)), GetOr(comp, "y", Num(0)),
                     GetOr(comp, "name", Str("")));
    var angle := GetOr(comp, "angle", Null);
    if angle != Null {
      PayloadWithAngle(base, angle);
    }
  }

  /** The six entries every payload has. */
  function PayloadBase(uri: Json, lib: string, cell: Json, x: Json, y: Json, name: Json): Dict {
    [("design_uri", uri), ("component_lib", Str(lib)), ("component_cell", cell), ("x", x), ("y", y), ("name", name)]
  }

  lemma PayloadBaseShape(uri: Json, lib: string, cell: Json, x: Json, y: Json, name: Json)
    ensures var r := PayloadBase(uri, lib, cell, x, y, name);
            Get(r, "design_uri") == Some(uri) && Get(r, "component_lib") == Some(Str(lib))
            && Get(r, "component_cell") == Some(cell) && Get(r, "name") == Some(name)
            && !HasKey(r, "angle") && DistinctKeys(r)
  {
    var r := PayloadBase(uri, lib, cell, x, y, name);
    PayloadBaseKeys(uri, lib, cell, x, y, name);
    GetDistinct(r, 0);
    GetDistinct(r, 1);
    GetDistinct(r, 2);
    GetDistinct(r, 5);
  }

  /** The six keys differ in length or in their first letter, and none is "angle". */
  lemma PayloadBaseKeys(uri: Json, lib: string, cell: Json, x: Json, y: Json, name: Json)
    ensures DistinctKeys(PayloadBase(uri, lib, cell, x, y, name))
    ensures !HasKey(PayloadBase(uri, lib, cell, x, y, name), "angle")
  {
    var r := PayloadBase(uri, lib, cell, x, y, name);
    assert forall i, j :: 0 <= i < j < |r| ==> |r[i].0| != |r[j].0| || r[i].0[0] != r[j].0[0];
    assert forall i :: 0 <= i < |r| ==> |r[i].0| != |"angle"|;
  }

  /** Appending the angle keeps every earlier lookup and adds the angle. */
  lemma PayloadWithAngle(base: Dict, angle: Json)
    requires DistinctKeys(base) && !HasKey(base, "angle")
    ensures forall k :: k != "angle" ==> Get(base + [("angle", angle)], k) == Get(base, k)
    ensures HasKey(base + [("angle", angle)], "angle") && DistinctKeys(base + [("angle", angle)])
  {
    var r := base + [("angle", angle)];
    assert r[|base|].0 == "angle";
    forall k | k != "angle"
      ensures Get(r, k) == Get(base, k)
    {
      if HasKey(base, k) {
        var i :| 0 <= i < |base| && base[i].0 == k;
        GetDistinct(base, i);
        assert r[i] == base[i];
        GetDistinct(r, i);
      }
    }
  }

  /** Running counts of the component loop. */
  datatype Tally = Tally(success: nat, failed: nat, details: seq<string>)

  /**
   * One iteration of the component loop, given the client's answer to its
   * `add_instance`. A component that is not a dict, or an exception from
   * the client, stops the loop with that exception.
   */
  function AddStep(t: Tally, comp: Json, reply: CommandOutcome): (r: (Tally, Option<string>))
    ensures r.1.None? <==> comp.Obj? && reply.Returned?
    ensures r.1.None? ==> r.0.success + r.0.failed == t.success + t.failed + 1
    ensures r.1.None? ==> r.0.success == t.success + (if Succeeded(reply.reply) then 1 else 0)
    ensures r.1.None? ==> |r.0.details| + t.failed == |t.details| + r.0.failed
    ensures r.1.Some? ==> r.0 == t
  {
    if !comp.Obj? then (t, Some("'" + TypeName(comp) + "' object has no attribute 'get'"))
    else match reply
      case Threw(e) => (t, Some(e))
      case Returned(answer) =>
        if Succeeded(answer) then (t.(success := t.success + 1), None)
        else (t.(failed := t.failed + 1, details := t.details + [FailureLine(comp.entries, answer)]), None)
  }

  /** The detail line of a component the client refused. */
  function FailureLine(comp: Dict, answer: Dict): string {
    "- " + PyStr(GetOr(comp, "name", Str(""))) + ": " + PyStr(GetOr(answer, "message", Str("Failed")))
  }

  /**
   * The loop over the first `n` components, `replies(j)` being the answer to
   * the `j`-th `add_instance`: the tally, and the exception that stopped it.
   */
  function AddRun(items: seq<Json>, replies: nat -> CommandOutcome, n: nat): (Tally, Option<string>)
    requires n <= |items|
  {
    if n == 0 then (Tally(0, 0, []), None)
    else
      var prev := AddRun(items, replies, n - 1);
      if prev.1.Some? then prev else AddStep(prev.0, items[n - 1], replies(n - 1))
  }

  /** Every component the loop gets through is counted once, as a success or a failure. */
  lemma {:induction false} AddRunCounts(items: seq<Json>, replies: nat -> CommandOutcome, n: nat)
    requires n <= |items|
    ensures AddRun(items, replies, n).1.None? ==>
              AddRun(items, replies, n).0.success + AddRun(items, replies, n).0.failed == n
    ensures AddRun(items, replies, n).0.success + AddRun(items, replies, n).0.failed <= n
    ensures |AddRun(items, replies, n).0.details| == AddRun(items, replies, n).0.failed
  {
    if n > 0 {
      AddRunCounts(items, replies, n - 1);
      var prev := AddRun(items, replies, n - 1);
      if prev.1.None? {
        var step := AddStep(prev.0, items[n - 1], replies(n - 1));
        assert AddRun(items, replies, n) == step;
      }
    }
  }

  /** The number of the first `n` components whose answer reports success. */
  function SuccessesAmong(replies: nat -> CommandOutcome, n: nat): nat {
    if n == 0 then 0
    else SuccessesAmong(replies, n - 1) + (if replies(n - 1).Returned? && Succeeded(replies(n - 1).reply) then 1 else 0)
  }

  /** When every component is a dict and every answer returns, the successes are exactly the successful answers. */
  lemma {:induction false} AddRunSuccesses(items: seq<Json>, replies: nat -> CommandOutcome, n: nat)
    requires n <= |items|
    requires forall j :: 0 <= j < n ==> items[j].Obj? && replies(j).Returned?
    ensures AddRun(items, replies, n).1.None?
    ensures AddRun(items, replies, n).0.success == SuccessesAmong(replies, n)
  {
    if n > 0 {
      AddRunSuccesses(items, replies, n - 1);
    }
  }

  /** Once the loop has stopped, later components change nothing. */
  lemma {:induction false} AddRunStops(items: seq<Json>, replies: nat -> CommandOutcome, n: nat)
    requires 0 < n <= |items|
    requires AddRun(items, replies, n).1.Some?
    ensures AddRun(items, replies, |items|) == AddRun(items, replies, n)
    decreases |items| - n
  {
    if n < |items| {
      assert AddRun(items, replies, n + 1) == AddRun(items, replies, n);
      AddRunStops(items, replies, n + 1);
    }
  }

  function AddedMessage(t: Tally, saved: bool): string {
    "**元件添加完成**\n\n"
    + "- ✓ 成功: " + NatToString(t.success) + "\n"
    + "- ✗ 失败: " + NatToString(t.failed) + "\n"
    + "- 保存: " + (if saved then "成功" else "失败") + "\n"
    + (if t.failed > 0 then "\n**失败详情**:\n" + Join("\n", t.details) else "")
    + "\n\n**下一步**: 使用 `finish_design` 完成工作流。"
  }

  /** The handler gets as far as the component loop. */
  predicate ReachesLoop(c: WorkflowContext, clientAvailable: bool) {
    Gate(c.state, "add_components_from_plan").None? && Truthy(c.planData) && clientAvailable && Truthy(c.designUri)
  }

  /** The components the loop visits, once the handler reaches it. */
  function PlanItems(c: WorkflowContext): Result<seq<Json>> {
    match Subscript(c.planData, "components")
    case Raised(e) => Raised(e)
    case Ok(v) => Iterate(v)
  }

  /**
   * `add_components_from_plan()`: `replies(j)` is the client's answer to the
   * `j`-th `add_instance` (whose payload is `ComponentPayload` of the `j`-th
   * component), and `save` the answer to the final save. Each success adds one to
   * `components_added` as it happens, so an exception part-way keeps the
   * earlier increments; nothing else in the context changes. Exceptions
   * here are not caught: they become `Raised`.
   */
  method AddComponentsFromPlan(wm: WorkflowManager, clientAvailable: bool,
                               replies: nat -> CommandOutcome, save: CommandOutcome)
    returns (outcome: Result<Dict>)
    modifies wm
    ensures !ReachesLoop(old(wm.context), clientAvailable) ==> wm.context == old(wm.context) && outcome.Ok?
    ensures ReachesLoop(old(wm.context), clientAvailable) && PlanItems(old(wm.context)).Raised? ==>
              wm.context == old(wm.context) && outcome.Raised?
    ensures ReachesLoop(old(wm.context), clientAvailable) && PlanItems(old(wm.context)).Ok? ==>
              var items := PlanItems(old(wm.context)).value;
              var run := AddRun(items, replies, |items|);
              wm.context == old(wm.context).(componentsAdded := old(wm.context.componentsAdded) + run.0.success)
              && (outcome.Ok? <==> run.1.None? && save.Returned?)
              && (outcome.Ok? ==>
                    outcome.value == FormatHumanResponse(AddedMessage(run.0, Succeeded(save.reply)),
                                       Obj([("success", Num(run.0.success)), ("failed", Num(run.0.failed)),
                                            ("design_uri", old(wm.context.designUri))])))
  {
    var gate := Gate(wm.context.state, "add_components_from_plan");
    if gate.Some? {
      return Ok(gate.value);
    }
    var plan := wm.GetPlan();
    if !Truthy(plan) {
      return Ok(Reply("没有待执行的计划。"));
    }
    if !clientAvailable {
      return Ok(Reply(ClientUnavailable));
    }
    var uri := wm.context.designUri;
    if !Truthy(uri) {
      return Ok(Reply("设计 URI 未设置。请先执行 execute_circuit_plan。"));
    }
    var found := PlanItems(wm.context);
    if found.Raised? {
      return Raised(found.error);
    }
    var items := found.value;
    var tally, stopped := AddEach(wm, items, replies);
    if stopped.Some? {
      return Raised(stopped.value);
    }
    if save.Threw? {
      return Raised(save.error);
    }
    outcome := Ok(FormatHumanResponse(AddedMessage(tally, Succeeded(save.reply)),
                                      Obj([("success", Num(tally.success)), ("failed", Num(tally.failed)),
                                           ("design_uri", uri)])));
  }

  /**
   * The component loop of `add_components_from_plan`: one `add_instance` per
   * component, in order, with `components_added` raised by each success.
   */
  method AddEach(wm: WorkflowManager, items: seq<Json>, replies: nat -> CommandOutcome)
    returns (tally: Tally, stopped: Option<string>)
    modifies wm
    ensures (tally, stopped) == AddRun(items, replies, |items|)
    ensures wm.context == Counted(old(wm.context), tally.success)
  {
    tally := Tally(0, 0, []);
    stopped := None;
    var i := 0;
    while i < |items|
      invariant 0 <= i <= |items|
      invariant AddRun(items, replies, i) == (tally, None) && stopped == None
      invariant wm.context == Counted(old(wm.context), tally.success)
    {
      tally, stopped := AddOne(wm, items, replies, i, tally, old(wm.context));
      if stopped.Some? {
        return;
      }
      i := i + 1;
    }
  }

  /** One pass of the component loop: a success raises `components_added` by one. */
  method AddOne(wm: WorkflowManager, items: seq<Json>, replies: nat -> CommandOutcome, i: nat, tally: Tally,
                ghost start: WorkflowContext)
    returns (next: Tally, stopped: Option<string>)
    requires i < |items| && AddRun(items, replies, i) == (tally, None)
    requires wm.context == Counted(start, tally.success)
    modifies wm
    ensures (next, stopped) == AddRun(items, replies, i + 1)
    ensures stopped.Some? ==> (next, stopped) == AddRun(items, replies, |items|)
    ensures wm.context == Counted(start, next.success)
  {
    next, stopped := AddStep(tally, items[i], replies(i)).0, AddStep(tally, items[i], replies(i)).1;
    AddRunNext(items, replies, i, tally);
    if next.success > tally.success {
      wm.IncrementComponentsAdded(1);
    }
    CountedTwice(start, tally.success, next.success - tally.success);
  }

  /** One more component: the step from a running tally, stopping the loop for good on an exception. */
  lemma AddRunNext(items: seq<Json>, replies: nat -> CommandOutcome, i: nat, tally: Tally)
    requires i < |items| && AddRun(items, replies, i) == (tally, None)
    ensures AddRun(items, replies, i + 1) == AddStep(tally, items[i], replies(i))
    ensures AddStep(tally, items[i], replies(i)).1.Some? ==>
              AddRun(items, replies, |items|) == AddStep(tally, items[i], replies(i))
  {
    if AddStep(tally, items[i], replies(i)).1.Some? {
      AddRunStops(items, replies, i + 1);
    }
  }

  /**
   * `add_component(design_uri, component_type, instance_name, x, y,
   * component_lib, angle)`: one `add_instance`; a success adds one to
   * `components_added`. An exception from the client is not caught.
   */
  method AddComponent(wm: WorkflowManager, designUri: string, componentType: string, instanceName: string,
                      x: Json, y: Json, componentLib: string, angle: Json, clientAvailable: bool, reply: CommandOutcome)
    returns (outcome: Result<Dict>)
    modifies wm
    ensures Gate(old(wm.context.state), "add_component").None? && clientAvailable && reply.Returned? && Succeeded(reply.reply) ==>
              wm.context == old(wm.context).(componentsAdded := old(wm.context.componentsAdded) + 1)
    ensures !(Gate(old(wm.context.state), "add_component").None? && clientAvailable && reply.Returned? && Succeeded(reply.reply)) ==>
              wm.context == old(wm.context)
    ensures outcome.Raised? <==> Gate(old(wm.context.state), "add_component").None? && clientAvailable && reply.Threw?
  {
    var gate := Gate(wm.context.state, "add_component");
    if gate.Some? {
      return Ok(gate.value);
    }
    if !clientAvailable {
      return Ok(Reply(ClientUnavailable));
    }
    if reply.Threw? {
      return Raised(reply.error);
    }
    var message;
    if Succeeded(reply.reply) {
      wm.IncrementComponentsAdded(1);
      message := "✓ 已添加元件 " + instanceName + " (" + componentType + ") 到坐标 (" + PyStr(x) + ", " + PyStr(y) + ")";
    } else {
      message := "✗ 添加元件失败: " + PyStr(GetOr(reply.reply, "message", Str("Unknown error")));
    }
    outcome := Ok(FormatHumanResponse(message, Obj(reply.reply)));
  }

  // ---------------------------------------------------------------------
  // finish_design

  function FinishedMessage(uri: Json, added: int): string {
    "✓ **设计工作流已完成**\n\n"
    + "- **设计**: `" + PyStr(uri) + "`\n"
    + "- **添加的元件**: " + IntToString(added) + "\n\n"
    + "您可以:\n"
    + "- 使用 `plan_circuit` 开始新设计\n"
    + "- 使用 `reset_workflow` 返回初始状态"
  }

  /**
   * `finish_design()`: once allowed it saves (when there is a client and a
   * URI) and moves to COMPLETED; only an exception from that save, which is
   * not caught, stops it first.
   */
  method FinishDesign(wm: WorkflowManager, clientAvailable: bool, save: CommandOutcome) returns (outcome: Result<Dict>)
    modifies wm
    ensures Gate(old(wm.context.state), "finish_design").Some? ==>
              wm.context == old(wm.context) && outcome == Ok(Gate(old(wm.context.state), "finish_design").value)
    ensures outcome.Raised? <==>
              Gate(old(wm.context.state), "finish_design").None? && clientAvailable && Truthy(old(wm.context.designUri)) && save.Threw?
    ensures outcome.Raised? ==> wm.context == old(wm.context)
    ensures Gate(old(wm.context.state), "finish_design").None? && outcome.Ok? ==>
              wm.context == old(wm.context).(state := Completed)
              && outcome.value == FormatHumanResponse(FinishedMessage(old(wm.context.designUri), old(wm.context.componentsAdded)),
                                                      Obj([("design_uri", old(wm.context.designUri)),
                                                           ("components_added", Num(old(wm.context.componentsAdded))),
                                                           ("state", Str("COMPLETED"))]))
  {
    var gate := Gate(wm.context.state, "finish_design");
    if gate.Some? {
      return Ok(gate.value);
    }
    var uri := wm.context.designUri;
    if clientAvailable && Truthy(uri) && save.Threw? {
      return Raised(save.error);
    }
    var added := wm.context.componentsAdded;
    var _ := wm.TransitionTo(Completed, []);
    assert wm.context == old(wm.context).(state := Completed);
    outcome := Ok(FormatHumanResponse(FinishedMessage(uri, added),
                                      Obj([("design_uri", uri), ("components_added", Num(added)),
                                           ("state", Str("COMPLETED"))])));
  }

  /**
   * The path through the handlers: a stored plan, a created schematic, the
   * user's confirmation and the finish move the workflow from IDLE through
   * SCHEMATIC_CREATED, WAITING_USER and COMPONENT_ADDING to COMPLETED, and
   * each handler is allowed in the state the previous one left.
   */
  lemma HandlerPathAllowed()
    ensures "plan_circuit" in AllowedToolsIn(Idle) && "execute_circuit_plan" in AllowedToolsIn(SchematicCreated)
    ensures "confirm_design_open" in AllowedToolsIn(WaitingUser)
    ensures "add_components_from_plan" in AllowedToolsIn(ComponentAdding) && "finish_design" in AllowedToolsIn(ComponentAdding)
    ensures "plan_circuit" in AllowedToolsIn(Completed) && "plan_circuit" !in AllowedToolsIn(SchematicCreated)
  {
  }
}
