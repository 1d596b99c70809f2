/**
 * Prompt injection for tool descriptions (app/agents/adapter_layer.py): each
 * tool named in one of the configuration tables has the matching constraint
 * lines appended to its description, in a fixed order, and after a call some
 * tools produce a system instruction for the model.
 */
module AdapterLayer {
  import opened Strings

  // ---------------------------------------------------------------------
  // AdapterLayerConfig

  // Each table is a dict from tool name to text: its keys are a set, its
  // lookup a function defined on those keys.

  const SingleUseTools: set<string> := {"plan_circuit", "execute_circuit_plan", "add_components_from_plan"}

  function SingleUseText(tool: string): string
    requires tool in SingleUseTools
  {
    if tool == "plan_circuit" then
      "Only call this ONCE per design. CRITICAL: Call get_current_design FIRST - if user already has a design open, DO NOT call this tool. Only use when creating a NEW schematic."
    else if tool == "execute_circuit_plan" then
      "Only call this ONCE per plan. CRITICAL: Call get_current_design FIRST - if user already has a design open, DO NOT call this tool. Only use when creating a NEW schematic."
    else "Only call this ONCE per plan. After components added, task is complete."
  }

  const PreconditionTools: set<string> := {"add_component", "add_components_from_plan", "check_cell_exists"}

  function PreconditionText(tool: string): string
    requires tool in PreconditionTools
  {
    if tool == "add_component" then
      "ONLY use when user explicitly asks to add a single component. For batch adding, use add_components_from_plan."
    else if tool == "add_components_from_plan" then
      "ONLY use after execute_circuit_plan has completed AND user has confirmed design is open in ADS."
    else "ONLY call AFTER get_project_structure has been called to verify available libraries. DO NOT guess library names."
  }

  const CompletionTools: set<string> := {"add_components_from_plan", "save_current_design"}

  function CompletionText(tool: string): string
    requires tool in CompletionTools
  {
    if tool == "add_components_from_plan" then "This completes the circuit design task. STOP after calling this tool."
    else "This completes the save operation. STOP after calling this tool."
  }

  const DiscoveryTools: set<string> := {"get_project_structure", "get_current_design", "list_cells"}

  function DiscoveryText(tool: string): string
    requires tool in DiscoveryTools
  {
    if tool == "get_project_structure" then
      "RECOMMENDED FIRST STEP: Call this before any design operations to understand available libraries and cells."
    else if tool == "get_current_design" then
      "CRITICAL: Call this to check if user already has a schematic open. If open, you can design directly WITHOUT creating new cells."
    else "Call AFTER get_project_structure to see all cells in a specific library."
  }

  /** `DECISION_GUIDANCE["workflow_selection"]`; the table's other entry is never read. */
  const WorkflowSelection: string :=
    "WORKFLOW DECISION: 1) Call get_current_design first. 2) If design is open → design directly. "
    + "3) If no design open → ask user if they want to create new cell or use existing one."

  /** The tools that get the workflow decision guidance. */
  const WorkflowTools: set<string> := {"plan_circuit", "execute_circuit_plan", "add_component"}

  // ---------------------------------------------------------------------
  // inject_constraints

  /** The five kinds of constraint, declared in the order they are appended. */
  datatype Kind = Workflow | Discovery | SingleUse | Precondition | Completion {
    function Rank(): nat {
      match this
      case Workflow => 0
      case Discovery => 1
      case SingleUse => 2
      case Precondition => 3
      case Completion => 4
    }
  }

  const Order: seq<Kind> := [Workflow, Discovery, SingleUse, Precondition, Completion]

  /** Whether a constraint of this kind applies to the tool. */
  predicate Applies(kind: Kind, tool: string) {
    match kind
    case Workflow => tool in WorkflowTools
    case Discovery => tool in DiscoveryTools
    case SingleUse => tool in SingleUseTools
    case Precondition => tool in PreconditionTools
    case Completion => tool in CompletionTools
  }

  /** The constraint text of an applicable kind, with its marker. */
  function ConstraintText(kind: Kind, tool: string): string
    requires Applies(kind, tool)
  {
    match kind
    case Workflow => "🎯 " + WorkflowSelection
    case Discovery => "💡 RECOMMENDATION: " + DiscoveryText(tool)
    case SingleUse => "⚠️ WARNING: " + SingleUseText(tool)
    case Precondition => "⚠️ PRECONDITION: " + PreconditionText(tool)
    case Completion => "✅ COMPLETION: " + CompletionText(tool)
  }

  /** The kinds of `kinds` that apply to the tool, keeping their order. */
  function Applicable(kinds: seq<Kind>, tool: string): (r: seq<Kind>)
    ensures forall k :: k in r <==> k in kinds && Applies(k, tool)
    ensures forall i :: 0 <= i < |r| ==> Applies(r[i], tool)
  {
    if kinds == [] then []
    else if Applies(kinds[0], tool) then [kinds[0]] + Applicable(kinds[1..], tool)
    else Applicable(kinds[1..], tool)
  }

  /** The kinds that apply to a tool, in the order `inject_constraints` appends them. */
  function Kinds(tool: string): seq<Kind> {
    Applicable(Order, tool)
  }

  /** Ranks strictly increase along a sequence of kinds. */
  predicate InOrder(kinds: seq<Kind>) {
    forall i, j :: 0 <= i < j < |kinds| ==> kinds[i].Rank() < kinds[j].Rank()
  }

  lemma {:induction false} ApplicableInOrder(kinds: seq<Kind>, tool: string)
    requires InOrder(kinds)
    ensures InOrder(Applicable(kinds, tool))
  {
    if kinds != [] {
      ApplicableInOrder(kinds[1..], tool);
      var rest := Applicable(kinds[1..], tool);
      assert forall i :: 0 <= i < |rest| ==> rest[i] in kinds[1..];
      assert forall k :: k in kinds[1..] ==> kinds[0].Rank() < k.Rank();
    }
  }

  /**
   * The applicable kinds are exactly the kinds that apply, each once, in the
   * fixed order workflow, discovery, single-use, precondition, completion.
   */
  lemma KindsAreOrdered(tool: string)
    ensures forall k :: k in Kinds(tool) <==> Applies(k, tool)
    ensures InOrder(Kinds(tool))
  {
    forall k: Kind
      ensures k in Order
    {
      assert Order[k.Rank()] == k;
    }
    ApplicableInOrder(Order, tool);
  }

  /** The constraint lines, one per applicable kind. */
  function Constraints(tool: string): (cs: seq<string>)
    ensures |cs| == |Kinds(tool)|
    ensures forall i :: 0 <= i < |cs| ==> cs[i] == ConstraintText(Kinds(tool)[i], tool)
  {
    var kinds := Kinds(tool);
    seq(|kinds|, i requires 0 <= i < |kinds| => ConstraintText(kinds[i], tool))
  }

  const Heading: string := "│ ⚠️ IMPORTANT CONSTRAINTS:\n"

  /** One `"│ • <constraint>\n"` line per constraint. */
  function Bullets(cs: seq<string>): string {
    if cs == [] then "" else "│ • " + cs[0] + "\n" + Bullets(cs[1..])
  }

  /** `inject_constraints`. */
  function InjectConstraints(tool: string, original: string): (r: string)
    ensures Kinds(tool) == [] ==> r == original
    ensures Kinds(tool) != [] ==> r == original + "\n\n" + Heading + Bullets(Constraints(tool))
  {
    var cs := Constraints(tool);
    if cs == [] then original
    else original + "\n\n" + Heading + Bullets(cs)
  }

  /** A tool in no table, and not a workflow tool, keeps its description unchanged. */
  lemma UnlistedToolUnchanged(tool: string, original: string)
    requires tool !in WorkflowTools && tool !in DiscoveryTools && tool !in SingleUseTools
    requires tool !in PreconditionTools && tool !in CompletionTools
    ensures InjectConstraints(tool, original) == original
  {
    KindsAreOrdered(tool);
  }

  /** A listed tool's description is kept as the prefix of the enhanced one. */
  lemma ListedToolExtended(tool: string, original: string)
    requires Applies(Workflow, tool) || Applies(Discovery, tool) || Applies(SingleUse, tool)
             || Applies(Precondition, tool) || Applies(Completion, tool)
    ensures var r := InjectConstraints(tool, original);
            r != original && IsPrefix(original + "\n\n" + Heading, r)
  {
    KindsAreOrdered(tool);
    var r := InjectConstraints(tool, original);
    assert Kinds(tool) != [] by {
      var k :| Applies(k, tool);
      assert k in Kinds(tool);
    }
    assert r == (original + "\n\n" + Heading) + Bullets(Constraints(tool));
    assert |r| > |original|;
  }

  /** Applicable, one kind at a time. */
  lemma ApplicableStep(kinds: seq<Kind>, tool: string)
    requires kinds != []
    ensures Applicable(kinds, tool) == (if Applies(kinds[0], tool) then [kinds[0]] else []) + Applicable(kinds[1..], tool)
  {
  }

  /** add_components_from_plan is neither a workflow tool nor a discovery tool. */
  lemma AddComponentsFromPlanUnguided()
    ensures !Applies(Workflow, "add_components_from_plan") && !Applies(Discovery, "add_components_from_plan")
  {
  }

  /** Proof step of `AddComponentsFromPlanConstraints`: the last three kinds all apply to add_components_from_plan. */
  lemma AddComponentsFromPlanTail()
    ensures Applicable(Order[2..], "add_components_from_plan") == [SingleUse, Precondition, Completion]
  {
    var t := "add_components_from_plan";
    assert Order[4..] == [Completion] && Order[4..][1..] == [];
    assert Applies(Completion, t) && Applies(Precondition, t) && Applies(SingleUse, t);
    ApplicableStep(Order[4..], t);
    var r4 := Applicable(Order[4..], t);
    assert r4 == [Completion];
    var r3 := Applicable(Order[3..], t);
    assert r3 == [Precondition] + r4;
  }

  /** add_components_from_plan gets the single-use, precondition and completion constraints, in that order. */
  lemma AddComponentsFromPlanConstraints()
    ensures Kinds("add_components_from_plan") == [SingleUse, Precondition, Completion]
  {
    var t := "add_components_from_plan";
    AddComponentsFromPlanTail();
    AddComponentsFromPlanUnguided();
    ApplicableStep(Order, t);
    ApplicableStep(Order[1..], t);
    assert Order[1..][1..] == Order[2..];
  }

  /** plan_circuit gets the workflow and single-use constraints, in that order. */
  lemma PlanCircuitConstraints()
    ensures Kinds("plan_circuit") == [Workflow, SingleUse]
  {
    var t := "plan_circuit";
    assert Order[4..] == [Completion] && Order[4..][1..] == [];
    assert !Applies(Precondition, t) && !Applies(Completion, t);
    ApplicableStep(Order[4..], t);
    ApplicableStep(Order[3..], t);
    assert Order[3..][1..] == Order[4..];
    var r3 := Applicable(Order[3..], t);
    assert r3 == [];
    var r2 := Applicable(Order[2..], t);
    assert r2 == [SingleUse];
    var r1 := Applicable(Order[1..], t);
    assert r1 == [SingleUse];
    ApplicableStep(Order, t);
  }

  // ---------------------------------------------------------------------
  // inject_system_instruction

  const SingleUseTail: string := "' has been called. Do NOT call this tool again in this session."

  function SingleUseNotice(tool: string): string {
    "CRITICAL: Tool '" + (tool + SingleUseTail)
  }

  const CompletionTail: string := "' has finished the current task. Wait for user's next instruction before calling more tools."

  function CompletionNotice(tool: string): string {
    "TASK COMPLETED: '" + (tool + CompletionTail)
  }

  /**
   * `inject_system_instruction`. The tool result is accepted and ignored, so it
   * is no parameter here.
   */
  function InjectSystemInstruction(tool: string): (r: string)
    ensures r != "" <==> tool in SingleUseTools || tool in CompletionTools
    ensures tool in SingleUseTools ==> IsPrefix("CRITICAL: Tool '", r)
    ensures tool !in SingleUseTools && tool in CompletionTools ==> IsPrefix("TASK COMPLETED: '", r)
  {
    if tool in SingleUseTools then
      PrefixConcat("CRITICAL: Tool '", tool + SingleUseTail);
      SingleUseNotice(tool)
    else if tool in CompletionTools then
      PrefixConcat("TASK COMPLETED: '", tool + CompletionTail);
      CompletionNotice(tool)
    else ""
  }

  /** A tool that is both single-use and completing gets the single-use notice. */
  lemma SingleUseWinsOverCompletion()
    ensures InjectSystemInstruction("add_components_from_plan") == SingleUseNotice("add_components_from_plan")
  {
  }

  /** save_current_design, which only completes, gets the completion notice. */
  lemma CompletionOnlyTool()
    ensures InjectSystemInstruction("save_current_design") == CompletionNotice("save_current_design")
  {
    assert "save_current_design" !in SingleUseTools;
  }
}
