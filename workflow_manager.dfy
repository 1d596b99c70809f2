/**
 * The ADS design workflow state machine: six phases, the phase-to-tool table,
 * the workflow context and the manager that updates it in place.
 */
module Workflow {
  import opened Wrappers
  import opened Strings
  import opened Json

  datatype WorkflowState = Idle | Planning | SchematicCreated | WaitingUser | ComponentAdding | Completed

  /** The enum's string value (`state.value`). */
  function StateName(s: WorkflowState): string {
    match s
    case Idle => "IDLE"
    case Planning => "PLANNING"
    case SchematicCreated => "SCHEMATIC_CREATED"
    case WaitingUser => "WAITING_USER"
    case ComponentAdding => "COMPONENT_ADDING"
    case Completed => "COMPLETED"
  }

  /** `WorkflowState(v)`: the member whose value is `v`, else a ValueError. */
  function ParseState(v: string): (r: Result<WorkflowState>)
    ensures r.Ok? ==> StateName(r.value) == v
    ensures r.Raised? ==> forall s :: StateName(s) != v
  {
    if v == "IDLE" then Ok(Idle)
    else if v == "PLANNING" then Ok(Planning)
    else if v == "SCHEMATIC_CREATED" then Ok(SchematicCreated)
    else if v == "WAITING_USER" then Ok(WaitingUser)
    else if v == "COMPONENT_ADDING" then Ok(ComponentAdding)
    else if v == "COMPLETED" then Ok(Completed)
    else Raised("ValueError: '" + v + "' is not a valid WorkflowState")
  }

  /** Parsing a state's value gives the state back, so the value is a faithful encoding. */
  lemma ParseStateName(s: WorkflowState)
    ensures ParseState(StateName(s)) == Ok(s)
  {
  }

  // ---------------------------------------------------------------------
  // Tool visibility tables

  function ToolsByState(s: WorkflowState): set<string> {
    match s
    case Idle => {"check_connection", "get_project_structure", "list_cells", "check_cell_exists",
                   "get_current_design", "get_workflow_status", "plan_circuit", "open_existing_design"}
    case Planning => {"check_connection", "get_workflow_status", "plan_circuit", "reset_workflow"}
    case SchematicCreated => {"check_connection", "get_workflow_status", "get_current_design",
                              "execute_circuit_plan", "reset_workflow"}
    case WaitingUser => {"check_connection", "get_workflow_status", "get_current_design",
                         "confirm_design_open", "reset_workflow"}
    case ComponentAdding => {"check_connection", "get_workflow_status", "get_current_design",
                             "add_component", "add_wire", "add_components_from_plan",
                             "save_current_design", "finish_design", "reset_workflow"}
    case Completed => {"check_connection", "get_workflow_status", "get_project_structure",
                       "plan_circuit", "reset_workflow"}
  }

  const GlobalTools: set<string> := {"reset_workflow", "get_workflow_status", "check_connection"}

  /** `get_allowed_tools()` as a function of the current state. */
  function AllowedToolsIn(s: WorkflowState): set<string> {
    if s == Idle then ToolsByState(s) else ToolsByState(s) + GlobalTools
  }

  /** The test suite's visibility expectations and the reset escape hatch. */
  lemma AllowedToolsShape(s: WorkflowState)
    ensures s == Idle ==> AllowedToolsIn(s) == ToolsByState(Idle)
    ensures s != Idle ==> AllowedToolsIn(s) == ToolsByState(s) + GlobalTools
    ensures s != Idle ==> GlobalTools <= AllowedToolsIn(s)
    ensures "reset_workflow" in AllowedToolsIn(s) <==> s != Idle
    ensures "plan_circuit" in AllowedToolsIn(s) <==> s in {Idle, Planning, Completed}
    ensures "add_component" in AllowedToolsIn(s) <==> s == ComponentAdding
    ensures "execute_circuit_plan" in AllowedToolsIn(s) <==> s == SchematicCreated
    ensures "confirm_design_open" in AllowedToolsIn(s) <==> s == WaitingUser
    ensures "check_connection" in AllowedToolsIn(s) && "get_workflow_status" in AllowedToolsIn(s)
  {
  }

  /**
   * Every non-IDLE row of the table already lists the three global tools, so
   * the union in `get_allowed_tools` never adds a tool.
   */
  lemma GlobalToolsAlreadyListed(s: WorkflowState)
    requires s != Idle
    ensures AllowedToolsIn(s) == ToolsByState(s)
  {
  }

  /** `_get_valid_transitions`: the advisory transition table (never enforced). */
  function ValidTransitions(s: WorkflowState): (r: set<WorkflowState>)
    ensures s !in r && r != {}
  {
    match s
    case Idle => {Planning}
    case Planning => {SchematicCreated, Idle}
    case SchematicCreated => {WaitingUser, Idle}
    case WaitingUser => {ComponentAdding, Idle}
    case ComponentAdding => {Completed, Idle}
    case Completed => {Idle, Planning}
  }

  /**
   * The advisory table describes a path through all six phases, lets every
   * phase except IDLE return to IDLE, and does not list the jumps the ADS
   * handlers make from IDLE (to SCHEMATIC_CREATED in `plan_circuit`, to
   * COMPONENT_ADDING in `open_existing_design`).
   */
  lemma ValidTransitionsShape(s: WorkflowState)
    ensures Idle in ValidTransitions(s) <==> s != Idle
    ensures Planning in ValidTransitions(Idle) && SchematicCreated in ValidTransitions(Planning)
    ensures WaitingUser in ValidTransitions(SchematicCreated) && ComponentAdding in ValidTransitions(WaitingUser)
    ensures Completed in ValidTransitions(ComponentAdding)
    ensures SchematicCreated !in ValidTransitions(Idle) && ComponentAdding !in ValidTransitions(Idle)
  {
  }

  // ---------------------------------------------------------------------
  // Workflow context

  /**
   * The persisted fields of `WorkflowContext`. Optional fields hold the Python
   * value stored there (`Null` for None); `last_updated` is not modelled.
   */
  datatype WorkflowContext = WorkflowContext(
    state: WorkflowState,
    planId: Json,
    planData: Json,
    designUri: Json,
    libraryName: Json,
    cellName: Json,
    componentsAdded: int,
    totalComponents: int,
    errorMessage: Json)

  /** The context with `n` more components added. */
  function Counted(c: WorkflowContext, n: int): WorkflowContext {
    c.(componentsAdded := c.componentsAdded + n)
  }

  /** Adding `a` then `b` components adds `a + b`. */
  lemma CountedTwice(c: WorkflowContext, a: int, b: int)
    ensures Counted(Counted(c, a), b) == Counted(c, a + b)
  {
  }

  /** `WorkflowContext()`. */
  const DefaultContext := WorkflowContext(Idle, Null, Null, Null, Null, Null, 0, 0, Null)

  /** A value assigned to a context attribute through `transition_to(**kwargs)`. */
  datatype FieldValue = StateValue(state: WorkflowState) | JsonValue(json: Json) | IntValue(n: int)

  /** The value of the attribute called `name`, or None when there is no such field. */
  function FieldOf(c: WorkflowContext, name: string): Option<FieldValue> {
    if name == "state" then Some(StateValue(c.state))
    else if name == "plan_id" then Some(JsonValue(c.planId))
    else if name == "plan_data" then Some(JsonValue(c.planData))
    else if name == "design_uri" then Some(JsonValue(c.designUri))
    else if name == "library_name" then Some(JsonValue(c.libraryName))
    else if name == "cell_name" then Some(JsonValue(c.cellName))
    else if name == "components_added" then Some(IntValue(c.componentsAdded))
    else if name == "total_components" then Some(IntValue(c.totalComponents))
    else if name == "error_message" then Some(JsonValue(c.errorMessage))
    else None
  }

  predicate SameKind(a: FieldValue, b: FieldValue) {
    (a.StateValue? && b.StateValue?) || (a.JsonValue? && b.JsonValue?) || (a.IntValue? && b.IntValue?)
  }

  /** `name` is a modelled field and `v` has that field's type. */
  predicate Accepts(name: string, v: FieldValue) {
    FieldOf(DefaultContext, name).Some? && SameKind(FieldOf(DefaultContext, name).value, v)
  }

  /** A context is determined by the values of its named fields. */
  lemma FieldsDetermine(c: WorkflowContext, d: WorkflowContext)
    requires forall n :: FieldOf(c, n) == FieldOf(d, n)
    ensures c == d
  {
    PlanFieldsDetermine(c, d);
    DesignFieldsDetermine(c, d);
    CountFieldsDetermine(c, d);
  }

  lemma PlanFieldsDetermine(c: WorkflowContext, d: WorkflowContext)
    requires forall n :: FieldOf(c, n) == FieldOf(d, n)
    ensures c.state == d.state && c.planId == d.planId && c.planData == d.planData
  {
    assert FieldOf(c, "state") == FieldOf(d, "state");
    assert FieldOf(c, "plan_id") == FieldOf(d, "plan_id");
    assert FieldOf(c, "plan_data") == FieldOf(d, "plan_data");
  }

  lemma DesignFieldsDetermine(c: WorkflowContext, d: WorkflowContext)
    requires forall n :: FieldOf(c, n) == FieldOf(d, n)
    ensures c.designUri == d.designUri && c.libraryName == d.libraryName && c.cellName == d.cellName
  {
    assert FieldOf(c, "design_uri") == FieldOf(d, "design_uri");
    assert FieldOf(c, "library_name") == FieldOf(d, "library_name");
    assert FieldOf(c, "cell_name") == FieldOf(d, "cell_name");
  }

  lemma CountFieldsDetermine(c: WorkflowContext, d: WorkflowContext)
    requires forall n :: FieldOf(c, n) == FieldOf(d, n)
    ensures c.componentsAdded == d.componentsAdded && c.totalComponents == d.totalComponents
    ensures c.errorMessage == d.errorMessage
  {
    assert FieldOf(c, "components_added") == FieldOf(d, "components_added");
    assert FieldOf(c, "total_components") == FieldOf(d, "total_components");
    assert FieldOf(c, "error_message") == FieldOf(d, "error_message");
  }

  /** `if hasattr(ctx, name): setattr(ctx, name, v)` for one keyword argument. */
  function SetField(c: WorkflowContext, name: string, v: FieldValue): (d: WorkflowContext)
    ensures forall m :: FieldOf(d, m) == if m == name && Accepts(name, v) then Some(v) else FieldOf(c, m)
  {
    if !Accepts(name, v) then c
    else if name == "state" then c.(state := v.state)
    else if name == "plan_id" then c.(planId := v.json)
    else if name == "plan_data" then c.(planData := v.json)
    else if name == "design_uri" then c.(designUri := v.json)
    else if name == "library_name" then c.(libraryName := v.json)
    else if name == "cell_name" then c.(cellName := v.json)
    else if name == "components_added" then c.(componentsAdded := v.n)
    else if name == "total_components" then c.(totalComponents := v.n)
    else c.(errorMessage := v.json)
  }

  /** The keyword-argument loop of `transition_to`, applied in order. */
  function ApplyKwargs(c: WorkflowContext, kwargs: seq<(string, FieldValue)>): WorkflowContext
    decreases |kwargs|
  {
    if kwargs == [] then c else ApplyKwargs(SetField(c, kwargs[0].0, kwargs[0].1), kwargs[1..])
  }

  /** The last accepted keyword value for `name`, if any. */
  function LastAccepted(kwargs: seq<(string, FieldValue)>, name: string): (r: Option<FieldValue>)
    ensures r.Some? ==> Accepts(name, r.value)
    decreases |kwargs|
  {
    if kwargs == [] then None
    else
      var rest := LastAccepted(kwargs[1..], name);
      if rest.Some? then rest
      else if kwargs[0].0 == name && Accepts(name, kwargs[0].1) then Some(kwargs[0].1)
      else None
  }

  /**
   * After the keyword loop each field holds the last accepted value given for
   * it, or its previous value; a name that is not a field changes nothing.
   */
  lemma {:induction false} ApplyKwargsFields(c: WorkflowContext, kwargs: seq<(string, FieldValue)>, name: string)
    ensures FieldOf(ApplyKwargs(c, kwargs), name)
            == if LastAccepted(kwargs, name).Some? then LastAccepted(kwargs, name) else FieldOf(c, name)
    decreases |kwargs|
  {
    if kwargs != [] {
      ApplyKwargsFields(SetField(c, kwargs[0].0, kwargs[0].1), kwargs[1..], name);
    }
  }

  /** Keyword arguments that name no field leave the context as it was. */
  lemma ApplyKwargsUnknownNames(c: WorkflowContext, kwargs: seq<(string, FieldValue)>)
    requires forall i :: 0 <= i < |kwargs| ==> FieldOf(c, kwargs[i].0).None?
    ensures ApplyKwargs(c, kwargs) == c
  {
    forall n ensures FieldOf(ApplyKwargs(c, kwargs), n) == FieldOf(c, n) {
      ApplyKwargsFields(c, kwargs, n);
      LastAcceptedNone(kwargs, n, c);
    }
    FieldsDetermine(ApplyKwargs(c, kwargs), c);
  }

  lemma {:induction false} LastAcceptedNone(kwargs: seq<(string, FieldValue)>, n: string, c: WorkflowContext)
    requires forall i :: 0 <= i < |kwargs| ==> FieldOf(c, kwargs[i].0).None?
    ensures LastAccepted(kwargs, n).None?
    decreases |kwargs|
  {
    if kwargs != [] {
      LastAcceptedNone(kwargs[1..], n, c);
      assert FieldOf(c, kwargs[0].0).None?;
    }
  }

  /** `transition_to(new_state, **kwargs)` on the context. */
  function Transition(c: WorkflowContext, newState: WorkflowState, kwargs: seq<(string, FieldValue)>): WorkflowContext {
    ApplyKwargs(c.(state := newState), kwargs)
  }

  /**
   * The target state is taken whether or not the advisory table lists it; only
   * a `state` keyword argument could override it.
   */
  lemma TransitionTakesTarget(c: WorkflowContext, newState: WorkflowState, kwargs: seq<(string, FieldValue)>)
    requires LastAccepted(kwargs, "state").None?
    ensures Transition(c, newState, kwargs).state == newState
  {
    ApplyKwargsFields(c.(state := newState), kwargs, "state");
  }

  /** Without keyword arguments a transition changes the state and nothing else. */
  lemma TransitionWithoutKwargs(c: WorkflowContext, newState: WorkflowState)
    ensures Transition(c, newState, []) == c.(state := newState)
  {
  }

  // ---------------------------------------------------------------------
  // Persistence encoding

  const FieldNames: seq<string> := ["state", "plan_id", "plan_data", "design_uri", "library_name",
                                    "cell_name", "components_added", "total_components",
                                    "last_updated", "error_message"]

  /** `to_dict()`: `asdict` in field order with the state as its string value. */
  function ToDict(c: WorkflowContext): (d: Dict)
    ensures DistinctKeys(d)
    ensures forall i :: 0 <= i < |d| ==> d[i].0 in FieldNames
    ensures Get(d, "state") == Some(Str(StateName(c.state)))
  {
    [("state", Str(StateName(c.state))), ("plan_id", c.planId), ("plan_data", c.planData),
     ("design_uri", c.designUri), ("library_name", c.libraryName), ("cell_name", c.cellName),
     ("components_added", Num(c.componentsAdded)), ("total_components", Num(c.totalComponents)),
     ("error_message", c.errorMessage)]
  }

  /** An integer field read back from a dict: absent means the default 0. */
  function IntField(d: Dict, key: string): Result<int> {
    match Get(d, key)
    case None => Ok(0)
    case Some(Num(n)) => Ok(n)
    case Some(_) => Raised("TypeError: " + key + " is not an int")
  }

  /** The state read back from a dict: `WorkflowState(data["state"])`, or the default. */
  function StateField(d: Dict): Result<WorkflowState> {
    match Get(d, "state")
    case None => Ok(Idle)
    case Some(Str(v)) => ParseState(v)
    case Some(_) => Raised("ValueError: not a valid WorkflowState")
  }

  predicate OnlyFieldNames(d: Dict) {
    forall i :: 0 <= i < |d| ==> d[i].0 in FieldNames
  }

  /**
   * `from_dict(data)`: the state string is parsed with `WorkflowState(...)`,
   * every other key becomes a constructor keyword, so an unknown key raises
   * and a missing one takes its default.
   */
  function FromDict(d: Dict): (r: Result<WorkflowContext>)
    ensures r.Ok? ==> OnlyFieldNames(d)
    ensures r.Ok? && HasKey(d, "state") ==> Get(d, "state") == Some(Str(StateName(r.value.state)))
    ensures r.Ok? && !HasKey(d, "state") ==> r.value.state == Idle
  {
    if !OnlyFieldNames(d) then Raised("TypeError: unexpected keyword argument")
    else
      var state := StateField(d);
      var added := IntField(d, "components_added");
      var total := IntField(d, "total_components");
      if state.Raised? then Raised(state.error)
      else if added.Raised? then Raised(added.error)
      else if total.Raised? then Raised(total.error)
      else
        Ok(WorkflowContext(state.value, GetOr(d, "plan_id", Null), GetOr(d, "plan_data", Null),
                           GetOr(d, "design_uri", Null), GetOr(d, "library_name", Null),
                           GetOr(d, "cell_name", Null), added.value, total.value,
                           GetOr(d, "error_message", Null)))
  }

  /** Saving and reloading a context reproduces it. */
  lemma FromDictToDict(c: WorkflowContext)
    ensures FromDict(ToDict(c)) == Ok(c)
  {
    ToDictScalarsRead(c);
    ToDictJsonRead(c);
  }

  lemma ToDictScalarsRead(c: WorkflowContext)
    ensures StateField(ToDict(c)) == Ok(c.state)
    ensures IntField(ToDict(c), "components_added") == Ok(c.componentsAdded)
    ensures IntField(ToDict(c), "total_components") == Ok(c.totalComponents)
  {
    var d := ToDict(c);
    ParseStateName(c.state);
    GetDistinct(d, 0);
    GetDistinct(d, 6);
    GetDistinct(d, 7);
  }

  lemma ToDictJsonRead(c: WorkflowContext)
    ensures GetOr(ToDict(c), "plan_id", Null) == c.planId && GetOr(ToDict(c), "plan_data", Null) == c.planData
    ensures GetOr(ToDict(c), "design_uri", Null) == c.designUri
    ensures GetOr(ToDict(c), "library_name", Null) == c.libraryName && GetOr(ToDict(c), "cell_name", Null) == c.cellName
    ensures GetOr(ToDict(c), "error_message", Null) == c.errorMessage
  {
    var d := ToDict(c);
    GetDistinct(d, 1);
    GetDistinct(d, 2);
    GetDistinct(d, 3);
    GetDistinct(d, 4);
    GetDistinct(d, 5);
    GetDistinct(d, 8);
  }

  /** An empty saved dict loads as the default context. */
  lemma FromDictEmpty()
    ensures FromDict([]) == Ok(DefaultContext)
  {
  }

  /** `_load_state`: the saved document if it decodes, else a fresh context. */
  function LoadedContext(saved: Option<Json>): WorkflowContext {
    if saved.Some? && saved.value.Obj? && FromDict(saved.value.entries).Ok?
    then FromDict(saved.value.entries).value
    else DefaultContext
  }

  // ---------------------------------------------------------------------
  // Plans

  /**
   * `set_plan(plan_id, plan_data)`: the new context and whether the call
   * returned or raised. The assignments before a raising step stay applied.
   */
  function SetPlanStep(c: WorkflowContext, planId: string, plan: Dict): (r: (WorkflowContext, Result<()>))
    ensures r.1.Ok? <==> PyLen(GetOr(plan, "components", Arr([]))).Some? && GetOr(plan, "circuit", Obj([])).Obj?
    ensures r.0.planId == Str(planId) && r.0.planData == Obj(plan)
    ensures r.1.Ok? ==> r.0.state == SchematicCreated
    ensures r.1.Raised? ==> r.0.state == c.state
  {
    var c1 := c.(planId := Str(planId), planData := Obj(plan));
    var count := PyLen(GetOr(plan, "components", Arr([])));
    if count.None? then (c1, Raised("TypeError: object has no len()"))
    else
      var c2 := c1.(totalComponents := count.value);
      var circuit := GetOr(plan, "circuit", Obj([]));
      if !circuit.Obj? then (c2, Raised("AttributeError: object has no attribute 'get'"))
      else
        var c3 := c2.(libraryName := GetOr(circuit.entries, "library", Null),
                      cellName := GetOr(circuit.entries, "name", Null),
                      designUri := GetOr(circuit.entries, "design_uri", Null));
        (Transition(c3, SchematicCreated, []), Ok(()))
  }

  /**
   * A well-formed plan (a component list and a circuit dict) is stored with its
   * component count and circuit fields, and the workflow ends in SCHEMATIC_CREATED.
   */
  lemma SetPlanStores(c: WorkflowContext, planId: string, plan: Dict, components: seq<Json>, circuit: Dict)
    requires Get(plan, "components") == Some(Arr(components))
    requires Get(plan, "circuit") == Some(Obj(circuit))
    ensures SetPlanStep(c, planId, plan).1 == Ok(())
    ensures SetPlanStep(c, planId, plan).0
            == c.(state := SchematicCreated, planId := Str(planId), planData := Obj(plan),
                  totalComponents := |components|, libraryName := GetOr(circuit, "library", Null),
                  cellName := GetOr(circuit, "name", Null), designUri := GetOr(circuit, "design_uri", Null))
  {
  }

  // ---------------------------------------------------------------------
  // Prompts

  /** The fixed prompt of each phase (`STATE_PROMPTS`). */
  function BasePrompt(s: WorkflowState): string {
    match s
    case Idle =>
      "\n### Current Status: " + "IDLE" + "\nYou are ready to start a new design workflow. \n"
      + "Available actions:\n- Check ADS connection status\n"
      + "- View project structure and available libraries\n- Start a new circuit design with `"
      + "plan_circuit" + "`\n"
    case Planning =>
      "\n### Current Status: PLANNING\nYou are creating a circuit plan. \n"
      + "- Use `plan_circuit` to define components\n- Once satisfied, the plan will be ready for execution\n"
      + "- Use `reset_workflow` to cancel and start over\n"
    case SchematicCreated =>
      "\n### Current Status: SCHEMATIC_CREATED\nA circuit plan has been created and is ready for execution.\n"
      + "- Use `execute_circuit_plan` to create the schematic in ADS\n- Use `reset_workflow` to cancel\n"
    case WaitingUser =>
      "\n### Current Status: " + "WAITING" + " FOR USER\n⚠️ **IMPORTANT**: The schematic has been created in ADS.\n\n"
      + "You " + "CANNOT" + " execute any design actions until the user confirms they have opened the design.\n\n"
      + "Please ask the user to:\n1. Open ADS\n2. Navigate to the created schematic\n"
      + "3. Confirm by saying \"已打开\" or \"I have opened it\"\n\n"
      + "Then use `confirm_design_open` to proceed, or `reset_workflow` to start over.\n"
    case ComponentAdding =>
      "\n### Current Status: COMPONENT_ADDING\nThe design is open and ready for editing.\nAvailable actions:\n"
      + "- `add_component` - Add individual components\n- `add_wire` - Connect components with wires\n"
      + "- `add_components_from_plan` - Add all planned components at once\n"
      + "- `save_current_design` - Save the design\n- `finish_design` - Complete the workflow\n"
      + "- `reset_workflow` - Cancel and start over\n"
    case Completed =>
      "\n### Current Status: COMPLETED\nThe design workflow has been completed successfully.\nYou can:\n"
      + "- Start a new design with `plan_circuit`\n- Check project structure\n- Reset to idle state\n"
  }

  function PlanIdLine(planId: Json): string {
    "- Active Plan ID: `" + PyStr(planId) + "`"
  }

  function DesignUriLine(uri: Json): string {
    "- Design URI: `" + PyStr(uri) + "`"
  }

  function ProgressLine(added: int, total: int): string {
    "- Progress: " + IntToString(added) + "/" + IntToString(total) + " components"
  }

  /** The context lines `get_state_prompt` collects, in order. */
  function ContextLines(c: WorkflowContext): seq<string> {
    (if Truthy(c.planId) then [PlanIdLine(c.planId)] else [])
    + (if Truthy(c.designUri) then [DesignUriLine(c.designUri)] else [])
    + (if c.totalComponents > 0 then [ProgressLine(c.componentsAdded, c.totalComponents)] else [])
  }

  /** What `get_state_prompt` appends to the fixed prompt. */
  function ContextSuffix(c: WorkflowContext): string {
    var lines := ContextLines(c);
    if lines != [] then "\n\n**Current Context:**\n" + Join("\n", lines) else ""
  }

  /**
   * `get_state_prompt()`: the prompt starts with the phase's fixed text and
   * is exactly that text when there is no plan id, no design URI and no
   * component total.
   */
  function PromptOf(c: WorkflowContext): (p: string)
    ensures IsPrefix(BasePrompt(c.state), p)
    ensures p == BasePrompt(c.state) <==> !Truthy(c.planId) && !Truthy(c.designUri) && c.totalComponents <= 0
  {
    var b, x := BasePrompt(c.state), ContextSuffix(c);
    assert (b + x)[..|b|] == b;
    assert x == "" <==> ContextLines(c) == [];
    assert b + x == b <==> x == "" by {
      assert |b + x| == |b| + |x|;
    }
    b + x
  }

  /** A non-empty plan id is quoted in the prompt (the test's `ctx123 in prompt`). */
  lemma StatePromptMentionsPlanId(c: WorkflowContext)
    requires Truthy(c.planId)
    ensures Contains(PromptOf(c), PlanIdLine(c.planId))
  {
    var lines := ContextLines(c);
    var t := PlanIdLine(c.planId);
    assert lines[0] == t;
    ContainsSelf(t);
    var rest := Join("\n", lines);
    if |lines| == 1 {
      assert rest == t;
    } else {
      assert rest == t + "\n" + Join("\n", lines[1..]);
      ContainsConcat(t, "\n", t);
      ContainsConcat(t + "\n", Join("\n", lines[1..]), t);
    }
    ContainsConcat("\n\n**Current Context:**\n", rest, t);
    ContainsConcat(BasePrompt(c.state), ContextSuffix(c), t);
  }

  /** The test suite's wording checks on the idle prompt. */
  lemma IdlePromptWording()
    ensures Contains(BasePrompt(Idle), "IDLE") && Contains(BasePrompt(Idle), "plan_circuit")
  {
    var a := "\n### Current Status: ";
    var i1 := "\nYou are ready to start a new design workflow. \n";
    var i2 := "Available actions:\n- Check ADS connection status\n";
    var i3 := "- View project structure and available libraries\n- Start a new circuit design with `";
    ContainsSelf("IDLE");
    ContainsConcat(a, "IDLE", "IDLE");
    ContainsConcat(a + "IDLE", i1, "IDLE");
    ContainsConcat(a + "IDLE" + i1, i2, "IDLE");
    ContainsConcat(a + "IDLE" + i1 + i2, i3, "IDLE");
    ContainsConcat(a + "IDLE" + i1 + i2 + i3, "plan_circuit", "IDLE");
    ContainsConcat(a + "IDLE" + i1 + i2 + i3 + "plan_circuit", "`\n", "IDLE");
    ContainsSelf("plan_circuit");
    ContainsConcat(a + "IDLE" + i1 + i2 + i3, "plan_circuit", "plan_circuit");
    ContainsConcat(a + "IDLE" + i1 + i2 + i3 + "plan_circuit", "`\n", "plan_circuit");
  }

  /** The prompt that waits for the user names its state... */
  lemma WaitingPromptNamesState()
    ensures Contains(BasePrompt(WaitingUser), "WAITING")
  {
    var a := "\n### Current Status: ";
    var w1 := " FOR USER\n⚠️ **IMPORTANT**: The schematic has been created in ADS.\n\n";
    var w2 := "You ";
    var w3 := " execute any design actions until the user confirms they have opened the design.\n\n";
    var w4 := "Please ask the user to:\n1. Open ADS\n2. Navigate to the created schematic\n";
    var w5 := "3. Confirm by saying \"已打开\" or \"I have opened it\"\n\n";
    var w6 := "Then use `confirm_design_open` to proceed, or `reset_workflow` to start over.\n";
    var pre := a + "WAITING" + w1 + w2;
    ContainsSelf("WAITING");
    ContainsConcat(a, "WAITING", "WAITING");
    ContainsConcat(a + "WAITING", w1, "WAITING");
    ContainsConcat(a + "WAITING" + w1, w2, "WAITING");
    ContainsConcat(pre, "CANNOT", "WAITING");
    ContainsConcat(pre + "CANNOT", w3, "WAITING");
    ContainsConcat(pre + "CANNOT" + w3, w4, "WAITING");
    ContainsConcat(pre + "CANNOT" + w3 + w4, w5, "WAITING");
    ContainsConcat(pre + "CANNOT" + w3 + w4 + w5, w6, "WAITING");
  }

  /** ...and says that the agent CANNOT act until the user confirms. */
  lemma WaitingPromptForbids()
    ensures Contains(BasePrompt(WaitingUser), "CANNOT")
  {
    var a := "\n### Current Status: ";
    var w1 := " FOR USER\n⚠️ **IMPORTANT**: The schematic has been created in ADS.\n\n";
    var w2 := "You ";
    var w3 := " execute any design actions until the user confirms they have opened the design.\n\n";
    var w4 := "Please ask the user to:\n1. Open ADS\n2. Navigate to the created schematic\n";
    var w5 := "3. Confirm by saying \"已打开\" or \"I have opened it\"\n\n";
    var w6 := "Then use `confirm_design_open` to proceed, or `reset_workflow` to start over.\n";
    var pre := a + "WAITING" + w1 + w2;
    ContainsSelf("CANNOT");
    ContainsConcat(pre, "CANNOT", "CANNOT");
    ContainsConcat(pre + "CANNOT", w3, "CANNOT");
    ContainsConcat(pre + "CANNOT" + w3, w4, "CANNOT");
    ContainsConcat(pre + "CANNOT" + w3 + w4, w5, "CANNOT");
    ContainsConcat(pre + "CANNOT" + w3 + w4 + w5, w6, "CANNOT");
  }

  /** `get_full_system_context()`; the allowed tools are a set (their list order is arbitrary). */
  datatype SystemContext = SystemContext(
    state: string, prompt: string, allowedTools: set<string>,
    planId: Json, designUri: Json, library: Json, cell: Json)

  function SystemContextOf(c: WorkflowContext): (r: SystemContext)
    ensures ParseState(r.state) == Ok(c.state)
    ensures "reset_workflow" in r.allowedTools <==> c.state != Idle
    ensures r.prompt == PromptOf(c) && r.allowedTools == AllowedToolsIn(c.state)
  {
    ParseStateName(c.state);
    AllowedToolsShape(c.state);
    SystemContext(StateName(c.state), PromptOf(c), AllowedToolsIn(c.state),
                  c.planId, c.designUri, c.libraryName, c.cellName)
  }

  function ResetMessage(previous: WorkflowState): string {
    "工作流已重置。从 " + StateName(previous) + " 返回到 IDLE 状态。"
  }

  /** The dict `reset()` returns. */
  function ResetReport(previous: WorkflowState): Dict {
    [("status", Str("success")), ("message", Str(ResetMessage(previous))),
     ("previous_state", Str(StateName(previous))), ("current_state", Str("IDLE"))]
  }

  // ---------------------------------------------------------------------
  // The manager

  class WorkflowManager {
    var context: WorkflowContext

    /** A manager started from a saved document (None when there is no readable file). */
    constructor (saved: Option<Json>)
      ensures context == LoadedContext(saved)
    {
      context := LoadedContext(saved);
    }

    function State(): WorkflowState
      reads this
    {
      context.state
    }

    method TransitionTo(newState: WorkflowState, kwargs: seq<(string, FieldValue)>) returns (ok: bool)
      modifies this
      ensures ok
      ensures context == Transition(old(context), newState, kwargs)
    {
      context := context.(state := newState);
      var i := 0;
      while i < |kwargs|
        invariant 0 <= i <= |kwargs|
        invariant ApplyKwargs(context, kwargs[i..]) == Transition(old(context), newState, kwargs)
      {
        assert kwargs[i..][1..] == kwargs[i + 1..];
        context := SetField(context, kwargs[i].0, kwargs[i].1);
        i := i + 1;
      }
      ok := true;
    }

    method Reset() returns (report: Dict)
      modifies this
      ensures context == DefaultContext
      ensures report == ResetReport(old(context).state)
      ensures Get(report, "previous_state") == Some(Str(StateName(old(context).state)))
      ensures Get(report, "current_state") == Some(Str("IDLE"))
    {
      var previous := context.state;
      context := DefaultContext;
      report := ResetReport(previous);
    }

    method SetPlan(planId: string, plan: Dict) returns (outcome: Result<()>)
      modifies this
      ensures (context, outcome) == SetPlanStep(old(context), planId, plan)
    {
      context := context.(planId := Str(planId), planData := Obj(plan));
      var count := PyLen(GetOr(plan, "components", Arr([])));
      if count.None? {
        return Raised("TypeError: object has no len()");
      }
      context := context.(totalComponents := count.value);
      var circuit := GetOr(plan, "circuit", Obj([]));
      if !circuit.Obj? {
        return Raised("AttributeError: object has no attribute 'get'");
      }
      context := context.(libraryName := GetOr(circuit.entries, "library", Null));
      context := context.(cellName := GetOr(circuit.entries, "name", Null));
      context := context.(designUri := GetOr(circuit.entries, "design_uri", Null));
      var _ := TransitionTo(SchematicCreated, []);
      outcome := Ok(());
    }

    function GetPlan(): Json
      reads this
    {
      context.planData
    }

    method SetDesignUri(uri: Json)
      modifies this
      ensures context == old(context).(designUri := uri)
    {
      context := context.(designUri := uri);
    }

    method IncrementComponentsAdded(count: int)
      modifies this
      ensures context == Counted(old(context), count)
    {
      context := context.(componentsAdded := context.componentsAdded + count);
    }

    /** `get_allowed_tools()`: the row of the current phase, the global tools never adding any. */
    function AllowedTools(): (r: set<string>)
      reads this
      ensures r == ToolsByState(context.state)
      ensures "reset_workflow" in r <==> context.state != Idle
    {
      if context.state != Idle then GlobalToolsAlreadyListed(context.state); AllowedToolsIn(context.state)
      else AllowedToolsIn(context.state)
    }

    /** `is_tool_allowed(name)`: membership in the allowed set, so it depends on the phase alone. */
    predicate IsToolAllowed(name: string)
      reads this
      ensures IsToolAllowed(name) <==> name in ToolsByState(context.state)
    {
      name in AllowedTools()
    }

    /** `get_state_prompt()` of the current context, naming its plan id when there is one. */
    function StatePrompt(): (p: string)
      reads this
      ensures IsPrefix(BasePrompt(context.state), p)
      ensures Truthy(context.planId) ==> Contains(p, PlanIdLine(context.planId))
    {
      if Truthy(context.planId) then StatePromptMentionsPlanId(context); PromptOf(context)
      else PromptOf(context)
    }

    /** `get_full_system_context()`: the phase, its tools and the context's design fields. */
    function FullSystemContext(): (r: SystemContext)
      reads this
      ensures ParseState(r.state) == Ok(context.state)
      ensures "reset_workflow" in r.allowedTools <==> context.state != Idle
      ensures r.planId == context.planId && r.designUri == context.designUri
      ensures r.library == context.libraryName && r.cell == context.cellName
    {
      SystemContextOf(context)
    }
  }
}
