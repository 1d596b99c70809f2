# ADS agent execution control, modelled in Dafny

This project models the deterministic core of an LLM agent that drives
Keysight ADS (Advanced Design System) through MCP tool servers. It covers:

- the **design workflow**: a six-phase state machine (IDLE, PLANNING,
  SCHEMATIC_CREATED, WAITING_USER, COMPONENT_ADDING, COMPLETED). The model
  holds the phase-to-tool table, the workflow context and its dict form, and
  the manager object that changes the context in place (`Workflow`,
  `workflow_manager.dfy`);
- the **ADS server handlers**, as far as they read and change that workflow:
  - the tool gate and the response envelope;
  - the argument guards of `check_cell_exists`;
  - `reset_workflow`, `open_existing_design`, `plan_circuit`,
    `execute_circuit_plan`, `confirm_design_open`, `add_component`,
    `add_components_from_plan` (library mapping and counters) and
    `finish_design`.

  The ADS client is an oracle parameter (`AdsServer`, `ads_server.dfy`);
- the **loop guard**: the per-session call record, with its consecutive-repeat
  counter and call signatures, and the classifier that decides after each tool
  call whether the agent stops and why (`LoopControl`, `control_layer.dfy`);
- the **session registry**: message histories, expiry, and eviction of the
  least recently active session at capacity (`Sessions`,
  `session_manager.dfy`);
- the **tool-result wrapper**: the dual-view status, summary and instruction
  made from a raw tool result (`ToolWrapper`, `tool_wrapper.dfy`). Beside it,
  the prompt-constraint injector (`AdapterLayer`);
- the **tool registry** (`Registry`), the **MCP message protocol** and request
  handler (`Protocol`), and the MCP-to-OpenAI and MCP-to-Qwen schema converters
  (`McpConverter`, `QwenAdapter`);
- **smaller pieces**:
  - the message validators (`Validators`);
  - the argument guards of the local mouse, keyboard and process server
    (`ControlGuards`);
  - the three laser tools (`CloudLaser`, `ServerLaser`, `MockLaser`);
  - the stub web search (`SearchServer`).

Python values are modelled as the `Json` datatype (`json.dfy`): None, bool,
int, str, list and dict. A dict is an association list in insertion order,
with `dict.get`, truthiness, `str()` and `repr()` written out. Its keys are
taken to be distinct, as in a Python dict. The datatype does not enforce
this, so what the model states about walking a dict's entries (a schema's
properties, for one) describes real dicts only when the keys are distinct. `Strings`
supplies the str methods the core uses. `Wrappers` supplies `Option` and
`Result`. A Python call that may raise returns a `Result`, whose `Raised` case
carries the exception text.

Objects whose methods update fields in place are Dafny classes:
`WorkflowManager`, `LoopState`, `ControlLayer`, `Session`, `SessionManager`,
`ToolRegistry`, and the two laser controllers. Each method states the object's whole
new state in terms of the old one. `ToolRegistry` and `SessionManager` also
keep a `Valid()` invariant: the registry's key order matches its maps, and
the sessions never exceed capacity. Everything else is a function over
values.

## Model

| member | source | states |
|---|---|---|
| AdapterLayer.Applicable | app/agents/adapter_layer.py:69-89 | keeps a kind exactly when it is in the list and its table (or the workflow tool list) names the tool, and keeps only such kinds |
| AdapterLayer.ApplicableInOrder | app/agents/adapter_layer.py:69-89 | checking the tables one after another keeps the fixed order of the kinds |
| AdapterLayer.KindsAreOrdered | app/agents/adapter_layer.py:71-89 | the constraints of a tool are exactly the kinds that apply to it, each once, in the order workflow, discovery, single-use, precondition, completion |
| AdapterLayer.Constraints | app/agents/adapter_layer.py:71-89 | one constraint per applicable kind, each being the kind's prefix followed by the table's text for the tool |
| AdapterLayer.InjectConstraints | app/agents/adapter_layer.py:91-100 | with no constraint the description is returned unchanged; otherwise it is the description, a blank line, the heading and one `│ • ` line per constraint in order |
| AdapterLayer.UnlistedToolUnchanged | app/agents/adapter_layer.py:72-92 | a tool in no table and not one of the three workflow tools keeps its description unchanged |
| AdapterLayer.ListedToolExtended | app/agents/adapter_layer.py:94-100 | a tool with at least one constraint gets a different description that starts with the original, a blank line and the heading |
| AdapterLayer.AddComponentsFromPlanConstraints | app/agents/adapter_layer.py:15-31 | add_components_from_plan gets exactly the single-use, precondition and completion constraints, in that order |
| AdapterLayer.PlanCircuitConstraints | app/agents/adapter_layer.py:15-19 | plan_circuit gets exactly the workflow and single-use constraints, in that order |
| AdapterLayer.InjectSystemInstruction | app/agents/adapter_layer.py:102-132 | the instruction is non-empty exactly for single-use and completion tools; a single-use tool gets the "CRITICAL: Tool '…'" notice and a completion-only tool the "TASK COMPLETED" notice |
| AdapterLayer.SingleUseWinsOverCompletion | app/agents/adapter_layer.py:118-123 | a tool that is both single-use and completing (add_components_from_plan) gets the single-use notice |
| AdapterLayer.CompletionOnlyTool | app/agents/adapter_layer.py:125-130 | save_current_design, which only completes, gets the completion notice |
| Validators.ValidateMessageStructure | app/utils/validators.py:22-45 | true exactly for a dict whose role and content are both strings and whose role is user, assistant or system |
| Validators.ToolRoleRejected | app/utils/validators.py:41-43 | a message with role "tool" is rejected whatever else it holds |
| Validators.ValidateMessageList | app/utils/validators.py:48-65 | true exactly for a list every message of which is valid |
| Validators.RemoveNul | app/utils/validators.py:79 | the result has no NUL character and every other character occurs as often as in the input; text without NUL is unchanged |
| Validators.RemoveNulConcat | app/utils/validators.py:79 | removing NUL characters from a concatenation removes them from each part and keeps the parts in order |
| Validators.RemoveNulChar | app/utils/validators.py:79 | a single character is dropped exactly when it is NUL and kept otherwise, so with the concatenation lemma every other character survives in its original order |
| Validators.SanitizeInput | app/utils/validators.py:68-82 | the result has no NUL, does not start or end with white space, and holds only characters of the input |
| Validators.SanitizeIdempotent | app/utils/validators.py:68-82 | sanitising twice gives the same text as sanitising once |
| CloudLaser.Execute | servers_cloud/laser.py:26-43 | only "set_power" can change the power and only "on" and "off" the switch; an unknown command changes nothing and is answered as invalid |
| CloudLaser.SwitchKeepsPower | servers_cloud/laser.py:28-33 | "on" and "off" set the on flag to true and false and leave the power unchanged |
| CloudLaser.SetPowerSetsPower | servers_cloud/laser.py:34-38 | "set_power" with a value stores that value and reports it; without a value nothing changes and the missing-value text is returned |
| CloudLaser.OtherCommandsChangeNothing | servers_cloud/laser.py:39-43 | every other command leaves both fields unchanged; "status" reports them and anything else is answered as invalid |
| CloudLaser.StatusReplyInjective | servers_cloud/laser.py:39-41 | the status text determines both the on flag and the power |
| CloudLaser.LaserController.constructor | servers_cloud/laser.py:22-24 | a new controller is off with power 0 |
| CloudLaser.LaserController.ExecuteCommand | servers_cloud/laser.py:26-43 | the fields and the reply are those of the command's branch, applied to the fields before the call |
| ServerLaser.Execute | servers/laser_server.py:27-42 | the command is read with default ""; only "set_power" changes the stored power and only "on" and "off" the switch; any other command, "status" included, changes nothing and is answered as invalid |
| ServerLaser.ToolParams | servers/laser_server.py:61-63 | the params hold the command, and the value exactly when one was given |
| ServerLaser.SwitchSetsFlag | servers/laser_server.py:31-36 | "on" and "off" set and clear the on flag and keep the power |
| ServerLaser.SetPowerStoresValue | servers/laser_server.py:37-40 | "set_power" stores and reports the given value, or 0 when the tool was called without one |
| ServerLaser.OtherCommandsInvalid | servers/laser_server.py:41-42 | every other command, "status" included, changes nothing and is answered as invalid |
| ServerLaser.LaserController.constructor | servers/laser_server.py:23-25 | a new controller is off with power 0 |
| ServerLaser.LaserController.ExecuteCommand | servers/laser_server.py:27-42 | the fields and the reply are those of the command's branch; the command defaults to "" and the value to 0 |
| MockLaser.ParseParams | app/tools/base_tool.py:42-57 | a dict is used as it is; a string gives its parsed value, or the ValueError naming the text when it does not parse; None and other values raise the TypeError of `json.loads` |
| MockLaser.Call | app/tools/mock_laser_control.py:34-51 | text that does not parse is answered with the parameter-format error; a dict of params always gets a reply, the one `MockLaser.CommandReplies` states per command |
| MockLaser.CommandReplies | app/tools/mock_laser_control.py:41-51 | "on" and "off" get their fixed replies, "set_power" reports the given value or 0, and any other command, a missing one included, is named in the invalid reply |
| MockLaser.SetPowerDefaultsToZero | app/tools/mock_laser_control.py:47-49 | "set_power" without a value reports 0 mW |
| MockLaser.MissingCommandInvalid | app/tools/mock_laser_control.py:41-51 | a call without a command is answered as invalid, naming None |
| MockLaser.TextLikeDict | app/tools/mock_laser_control.py:36-37 | a JSON string is answered as the dict it parses to |
| McpConverter.SchemaToOpenAI | app/tools/mcp_converter.py:11-40 | type defaults to "object" and properties to an empty dict; required, additionalProperties and description are copied exactly when present; no other key appears |
| McpConverter.SchemaToOpenAIIdempotent | app/tools/mcp_converter.py:26-40 | converting a converted schema gives it back unchanged |
| McpConverter.ToolToOpenAI | app/tools/mcp_converter.py:43-62 | a definition converts exactly when it and its input schema are dicts, to a function tool whose name and description default to "" and whose parameters are the converted schema |
| McpConverter.ToolsToOpenAI | app/tools/mcp_converter.py:65-75 | the list converts exactly when every definition does, to one converted tool per definition in the same order |
| McpConverter.ProxyFor | app/tools/mcp_converter.py:95-110 | a proxy carries the name and description (default ""), the server (default "unknown") and the converted input schema |
| McpConverter.CreateMcpProxyTools | app/tools/mcp_converter.py:78-115 | the loop yields the proxy of each definition in order, and stops with the error of the first definition that raises |
| McpConverter.ProxiesFollowDefinitions | app/tools/mcp_converter.py:94-115 | there are as many proxies as definitions, and the proxy at each position has that definition's name, server and converted schema |
| QwenAdapter.PyIn | app/agents/adapters/qwen_adapter.py:52 | `name in required` is list membership, a dict key test or a substring test, and raises for any other value |
| QwenAdapter.Param | app/agents/adapters/qwen_adapter.py:48-59 | a property converts exactly when its details are a dict and the required test does not raise; the record holds the name, the type (default "string"), the description (default ""), the required flag, and enum and default exactly when present, and no other key |
| QwenAdapter.SchemaParams | app/agents/adapters/qwen_adapter.py:32-63 | a schema that is not a dict raises the `.get` error; properties that are not a dict raise the `.items` error; otherwise the conversion raises exactly when some property raises |
| QwenAdapter.ConvertInputSchema | app/agents/adapters/qwen_adapter.py:32-63 | the loop gives one record per property in order, or the error of the first property that raises |
| QwenAdapter.ParamsFollowProperties | app/agents/adapters/qwen_adapter.py:45-63 | exactly one parameter per property and in the same order; each names its property, is required exactly when the name is in the required list, and gets the type and description defaults and the copied enum and default |
| QwenAdapter.RequiredIffListed | app/agents/adapters/qwen_adapter.py:43 | with a required list, a parameter is required exactly when its name is listed (also line 52) |
| QwenAdapter.NoPropertiesNoParams | app/agents/adapters/qwen_adapter.py:42-47 | a schema without properties gives no parameters, whatever its required list |
| QwenAdapter.ParamList | app/agents/adapters/qwen_adapter.py:28 | the parameter list holds the records in order |
| QwenAdapter.McpToolToQwenTool | app/agents/adapters/qwen_adapter.py:7-29 | the tool converts exactly when it is a dict and its input schema converts, to name and description (default "") and the converted parameters |
| QwenAdapter.MissingSchemaNoParams | app/agents/adapters/qwen_adapter.py:22-23 | a definition without an input schema gets an empty parameter list |
| Protocol.NewMessage | app/mcp/protocol.py:25-29 | a falsy params value is stored as an empty dict and any other as given; the id starts as None |
| Protocol.ToDict | app/mcp/protocol.py:31-41 | the dict always holds method and params, holds id exactly when the id is not None, and has no other key |
| Protocol.FromDict | app/mcp/protocol.py:43-54 | the message is a request whose method defaults to "", params to an empty dict and id to None |
| Protocol.FromDictToDict | app/mcp/protocol.py:31-54 | reading back a message's dict restores its method, params and id, as a request |
| Protocol.CallToolRequest | app/mcp/protocol.py:57-65 | a "tools/call" request whose params hold the tool's name and its arguments |
| Protocol.CallToolResponse | app/mcp/protocol.py:68-73 | a response whose params are `{"result": result}` |
| Protocol.ListToolsRequest | app/mcp/protocol.py:76-81 | a "tools/list" request with empty params |
| Protocol.ListToolsResponse | app/mcp/protocol.py:84-89 | a response whose params are `{"tools": tools}` |
| Protocol.ErrorResponse | app/mcp/protocol.py:92-103 | an error whose params are `{"error": {code, message, data}}`, a falsy data being replaced by an empty dict |
| Protocol.ErrorResponseCode | app/mcp/protocol.py:96-101 | the code stored in an error response reads back as the given code |
| Protocol.HandleCallTool | app/mcp/protocol.py:127-151 | the answer always carries the request's id |
| Protocol.CallToolOutcomes | app/mcp/protocol.py:127-151 | 400 exactly for params without a truthy name; 404 exactly when the lookup raised KeyError; 500 exactly when params are not a dict or the tool raised anything else; a response holding the tool's result exactly when the tool returned |
| Protocol.HandleRequest | app/mcp/protocol.py:112-125 | the answer always carries the request's id |
| Protocol.UnknownMethodIff | app/mcp/protocol.py:115-122 | the "Unknown method" 400 happens exactly when the method is none of tools/call, tools/list and health/check |
| Protocol.HandleHealthCheck | app/mcp/protocol.py:158-160 | the reply is a response, not an error, to the request's id, whose params are the result `{"status": "healthy"}` |
| Protocol.HealthCheckHealthy | app/mcp/protocol.py:119-120 | a health check answers `{"result": {"status": "healthy"}}` under the request's id (also lines 158-160) |
| Protocol.MissingNameIs400 | app/mcp/protocol.py:133-137 | a tool call without a name, or with an empty one, is answered 400 |
| SearchServer.StubHits | servers/search_server.py:36-39 | the stub always has exactly two results |
| SearchServer.Truncate | servers/search_server.py:49 | `body[:200]` is a prefix of the body of at most 200 characters, and the whole body when it is short enough |
| SearchServer.AllHitLines | servers/search_server.py:46-49 | three lines per result |
| SearchServer.FormatResults | servers/search_server.py:42-52 | the loop collects the header lines, three lines per result in order, and the closing lines |
| SearchServer.HitLinesAt | servers/search_server.py:46-49 | the lines of result i are the (i+1)-th group of three, numbered i + 1 |
| SearchServer.SearchOutcome | servers/search_server.py:26-58 | the search raises exactly when the query is not a string, and a query that strips to nothing gets the empty-query error text |
| SearchServer.ExecuteSearch | servers/search_server.py:26-58 | a query that is not a string raises when stripped; an empty stripped query gives the empty-query error; otherwise the joined lines for the stripped query |
| SearchServer.WebSearch | servers/search_server.py:68-90 | the tool passes query and max_results and turns an exception into the search-failed text |
| SearchServer.BlankQueryRejected | servers/search_server.py:28-31 | a query made only of white space gets the empty-query error |
| SearchServer.QueryAnswered | servers/search_server.py:28-55 | a query with text is answered with the joined lines for its stripped form |
| SearchServer.SearchLayout | servers/search_server.py:42-52 | the header names the query first, result i contributes its numbered title line and its URL line at fixed positions, and the NOTE line comes last |
| SearchServer.StubLayout | servers/search_server.py:36-52 | the stub reply has eleven lines, titled "Result 1 for" and "Result 2 for" the query |
| SearchServer.BodiesTruncated | servers/search_server.py:49 | every body line holds at most 200 characters of the body's start between "   " and "..." |
| SearchServer.MaxResultsIgnored | servers/search_server.py:26-58 | max_results never changes the reply (also lines 76-79) |
| ControlGuards.ClickGuard | servers_local/control.py:142-151 | a click proceeds exactly when the point is on screen (strict upper bounds), the button is left, right or middle and the count is 1 to 3; the first failing check, in that order, chooses the error text |
| ControlGuards.MoveGuard | servers_local/control.py:384-385 | a move proceeds exactly when the point is on screen |
| ControlGuards.FirstDangerous | servers_local/control.py:188-193 | the pattern found is one of the list and occurs in the text; none is found exactly when no pattern occurs |
| ControlGuards.TypeGuard | servers_local/control.py:183-193 | typing proceeds exactly when the text has at most 1000 characters and its lower-cased form holds none of the five dangerous patterns; a short text that does not proceed gets the security-block text |
| ControlGuards.TypeLengthBoundary | servers_local/control.py:184 | a harmless text of exactly 1000 characters passes |
| ControlGuards.NormalizeProcess | servers_local/control.py:236-239 | the normalised name always ends in ".exe" |
| ControlGuards.NormalizeIdempotent | servers_local/control.py:236-239 | normalising a normalised name changes nothing |
| ControlGuards.KillGuard | servers_local/control.py:230-243 | a kill proceeds exactly when the normalised name is one of the seven allowed processes |
| ControlGuards.NormalizeCaseInsensitive | servers_local/control.py:237 | normalisation ignores letter case |
| ControlGuards.KillCaseInsensitive | servers_local/control.py:237-243 | the kill guard gives the same verdict for a name and its lower-case form |
| ControlGuards.NormalizeSuffixOptional | servers_local/control.py:238-239 | a name without ".exe" normalises as the name with it |
| ControlGuards.KillSuffixOptional | servers_local/control.py:238-243 | the kill guard gives the same verdict with and without the ".exe" suffix |
| ControlGuards.OpenAppGuard | servers_local/control.py:281-285 | an app opens exactly when its lower-cased, stripped name is one of the four launchers |
| LoopControl.InsertByKey | app/agents/control_layer.py:63 | inserting into a key-sorted argument list keeps it sorted and adds exactly that entry |
| LoopControl.SortByKey | app/agents/control_layer.py:63 | the key-sorted arguments are sorted and are a permutation of the arguments |
| LoopControl.SignatureOf | app/agents/control_layer.py:63 | the signature names the tool and holds the arguments sorted by key, as the same multiset of entries |
| LoopControl.SignatureEquality | app/agents/control_layer.py:63 | two calls have the same signature exactly when they name the same tool with the same argument entries, whatever the key order |
| LoopControl.RecordCall | app/agents/control_layer.py:61-72 | a recorded call appends its tool and its signature, becomes the last signature, and raises the repeat counter by one when the signature equals the previous one and resets it to 0 otherwise |
| LoopControl.ControlRecordWellFormed | app/agents/control_layer.py:61-72 | recording through the control layer keeps the tool list, the signature list and the turn count equally long, and the repeat counter one less than the trailing run of equal signatures (also lines 147-150) |
| LoopControl.ReplayWellFormed | app/agents/control_layer.py:147-150 | any sequence of recorded calls keeps that invariant and adds one turn per call |
| LoopControl.RepeatedCalls | app/agents/control_layer.py:65-68 | after k identical calls following a different one, the repeat counter is k - 1 |
| LoopControl.SuccessfulResultCases | app/agents/control_layer.py:129-145 | a string that parses to a dict is judged by that dict's status alone; any other string succeeds when it says "success" in any case or carries a check mark (U+2713 or U+2705); None never succeeds |
| LoopControl.Decide | app/agents/control_layer.py:82-127 | the decision terminates exactly when it has a reason, and a decision that does not terminate has an empty message |
| LoopControl.DecidePriority | app/agents/control_layer.py:97-127 | each reason is chosen exactly when its check holds and every earlier check fails: successful termination action, confirmation tool, repeat threshold, total limit; the task-completed and error reasons are never chosen |
| LoopControl.PlanCircuitAlwaysConfirms | app/agents/control_layer.py:38-41 | plan_circuit always stops for user confirmation, whatever its result and even on its first call (also lines 106-111) |
| LoopControl.FailedTerminationActionFallsThrough | app/agents/control_layer.py:98-104 | a termination action whose result is not a success is judged by the later checks like any other tool |
| LoopControl.LoopGuardAfterRepeats | app/agents/control_layer.py:48 | from a fresh control layer, repeating an ordinary call trips the loop guard exactly from the fourth call on, and nothing fires before it (also lines 113-118) |
| LoopControl.TerminationMessage | app/agents/control_layer.py:194-196 | reasons with no table entry (task completed, error) fall back to the result's own text |
| LoopControl.TerminationMessageWithoutSummary | app/agents/control_layer.py:176-184 | without a usable summary a termination action starts with the default text and a confirmation repeats the raw result |
| LoopControl.TerminationMessageUsesSummary | app/agents/control_layer.py:162-184 | a JSON-object result's non-empty summary leads the termination and confirmation messages |
| LoopControl.WarningLeads | app/agents/control_layer.py:185-193 | the texts for a loop stop and for the call limit start with the warning sign |
| LoopControl.LoopState.constructor | app/agents/control_layer.py:54-59 | a new loop state has no turn, no call, no signature and a zero repeat counter |
| LoopControl.LoopState.RecordToolCall | app/agents/control_layer.py:61-72 | the fields become those of recording the call on the old fields |
| LoopControl.ControlLayer.constructor | app/agents/control_layer.py:78-80 | a missing config means the default tables, with a fresh loop state |
| LoopControl.ControlLayer.RecordToolCall | app/agents/control_layer.py:147-150 | the loop state records the call and counts one more turn |
| LoopControl.ControlLayer.ShouldTerminateAfterTool | app/agents/control_layer.py:82-127 | on the live counters: it stops exactly when it names a reason; a successful termination action is the only way to get that reason; a confirmation tool always stops; the loop and limit reasons need their thresholds reached; it goes on exactly when no check fires |
| LoopControl.ControlLayer.GetTerminationMessage | app/agents/control_layer.py:162-196 | a completed task or an error repeats the raw result; loop and limit stops lead with the warning sign; without a usable summary a termination action starts with the default completion text and a confirmation with the raw result |
| Sessions.ChatMessage | app/agents/services/session_manager.py:45-49 | the appended message is a dict whose role and content are the arguments unless an extra keyword overrides them |
| Sessions.Session.constructor | app/agents/services/session_manager.py:22-43 | a new session has the given id and metadata, no messages, creation and activity time now, and a fresh control layer in its initial state with the default tables |
| Sessions.Session.AddMessage | app/agents/services/session_manager.py:45-50 | appends exactly the role/content message (extras merged in) and sets the activity time; creation time, control layer and metadata are kept |
| Sessions.Session.AddToolCallMessage | app/agents/services/session_manager.py:52-55 | appends the given message unchanged and sets the activity time; the rest is kept |
| Sessions.Session.AddToolResult | app/agents/services/session_manager.py:57-65 | appends the tool-role message with the call id, name and content and sets the activity time; the rest is kept |
| Sessions.Session.GetMessages | app/agents/services/session_manager.py:67-69 | returns a value copy of the history |
| Sessions.Session.ClearMessages | app/agents/services/session_manager.py:71-75 | empties the history and replaces the control layer by a fresh default one in its initial state, updating only the activity time besides |
| Sessions.Session.ToInfo | app/agents/services/session_manager.py:77-95 | the summary names the session, counts its messages and gives its age and idle time at `now` |
| Sessions.LiveOnly | app/agents/services/session_manager.py:238-241 | keeps exactly the entries that are not idle for longer than the expiration, with their sessions unchanged |
| Sessions.EffectiveExpiration | app/agents/services/session_manager.py:120 | a missing or zero expiration falls back to 30 minutes; any other value is used as given |
| Sessions.SessionManager.constructor | app/agents/services/session_manager.py:111-120 | starts with no sessions and the effective expiration |
| Sessions.SessionManager.CleanupExpired | app/agents/services/session_manager.py:231-249 | afterwards exactly the unexpired sessions remain, and the count returned is the number of ids removed |
| Sessions.SessionManager.OldestId | app/agents/services/session_manager.py:139-140 | returns a registered id whose activity time is no later than that of any other session |
| Sessions.SessionManager.MakeRoom | app/agents/services/session_manager.py:133-141 | after expiring, fewer than 100 sessions remain; one least recently active live session is removed exactly when 100 or more were live, and nothing else |
| Sessions.SessionManager.EvictIfFull | app/agents/services/session_manager.py:136-141 | at 100 or more sessions removes exactly one, a least recently active one; below that changes nothing |
| Sessions.SessionManager.CreateSession | app/agents/services/session_manager.py:122-155 | keeps at most 100 sessions; the new registry is the live sessions, less the evicted one when full, plus a fresh empty session `session_<token>` with the given metadata |
| Sessions.SessionManager.GetSession | app/agents/services/session_manager.py:157-179 | an unknown id gives None and changes nothing; an expired one gives None and is dropped; a live one is returned with the registry unchanged |
| Sessions.SessionManager.GetOrCreateSession | app/agents/services/session_manager.py:181-201 | a non-empty id of a live session returns that session and changes nothing; otherwise the result is what `create_session` gives: a fresh, empty session with the metadata and both times `now`, registered after expiry and, at capacity, the eviction of one least recently active session |
| Sessions.SessionManager.DeleteSession | app/agents/services/session_manager.py:203-218 | reports True exactly when the id was registered, and removes just that id |
| Sessions.SessionManager.ListSessions | app/agents/services/session_manager.py:220-229 | expires first, then returns one summary per remaining session, each describing a distinct registered session and covering all of them |
| Registry.InsertKeepsTable | app/tools/registry.py:40 | assigning a key of a dict keeps the insertion-order list a duplicate-free listing of exactly its keys |
| Registry.RegisteringKeepsTable | app/tools/registry.py:60-68 | registering instances one after another keeps the instance table well formed and every tool stored under its own name |
| Registry.LastRegistrationWins | app/tools/registry.py:57 | after registering a list, each name is bound to the last tool in the list carrying it (also lines 67-68) |
| Registry.UnregisteredNameKept | app/tools/registry.py:57 | a name that no registered tool carries keeps its previous binding, or stays absent (also lines 67-68) |
| Registry.FirstUnnamed | app/tools/registry.py:54-55 | gives the position of the first tool without a non-empty name, every tool before it being named (also lines 67-68) |
| Registry.Missing | app/tools/registry.py:103-105 | lists exactly the class names that have no instance, in order and without repeats |
| Registry.Values | app/tools/registry.py:107 | the values of the instance dict in insertion order, one per key |
| Registry.DistinctCount | app/tools/registry.py:116-118 | a list without repeats has as many elements as the set built from it |
| Registry.SameElementsSameLength | app/tools/registry.py:107 | two repeat-free lists of the same names have the same length (also lines 116-118) |
| Registry.ToolRegistry.constructor | app/tools/registry.py:21-24 | both tables start empty |
| Registry.ToolRegistry.RegisterClass | app/tools/registry.py:26-41 | raises the must-have-a-name ValueError exactly for a class without a non-empty name, changing nothing; otherwise stores the class under its name (replacing, position kept) and returns it |
| Registry.ToolRegistry.RegisterInstance | app/tools/registry.py:43-58 | raises the must-have-a-name ValueError exactly for an unnamed instance, changing nothing; otherwise stores it under its name and returns it; classes untouched |
| Registry.ToolRegistry.RegisterTools | app/tools/registry.py:60-68 | raises exactly when some tool is unnamed, and the instance table then holds the registration of every tool before the first unnamed one |
| Registry.ToolRegistry.GetTool | app/tools/registry.py:70-93 | returns a tool exactly when the name is registered; an instance is returned as stored; a class without an instance is instantiated once and cached at the end of the instance order |
| Registry.ToolRegistry.Instantiate | app/tools/registry.py:88-91 | the new instance, with the next identity, is stored under the class name and appended to the instance order |
| Registry.ToolRegistry.ListToolNames | app/tools/registry.py:109-118 | every class or instance name exactly once |
| Registry.ToolRegistry.FillStep | app/tools/registry.py:103-105 | one pass of the loop instantiates class `i` exactly when it has no instance, keeping the partial-fill invariant |
| Registry.ToolRegistry.ListTools | app/tools/registry.py:95-107 | the classes without an instance are instantiated in class order with consecutive identities and appended; existing instances are kept; the result is all instances in insertion order |
| Registry.ToolRegistry.CallTool | app/tools/registry.py:149-167 | an unregistered name gives the not-found text and changes nothing; a registered instance answers unchanged; a class-only name is first instantiated and cached as `get_tool` does, and that new instance answers; the answer is the tool's text, or the execution-error text when it raises |
| Registry.ToolRegistry.Clear | app/tools/registry.py:169-172 | both tables become empty |
| Registry.ListToolsCoversNames | app/tools/registry.py:95-118 | after listing, every class has an instance and there are as many tools as names |
| Registry.GetToolTwice | app/tools/registry.py:70-93 | two lookups of one name return the same tool object |
| ToolWrapper.StatusValueInjective | app/agents/tool_wrapper.py:15-22 | distinct statuses have distinct values |
| ToolWrapper.ToolResult.ToDict | app/agents/tool_wrapper.py:42-58 | status value and summary always; data exactly when non-empty; instruction exactly when a non-empty string; raw result exactly when not None; no other key |
| ToolWrapper.Serialised | app/agents/tool_wrapper.py:44-58 | the dict built in `to_dict`'s order holds each of the five keys exactly under its condition, with its value, and nothing else |
| ToolWrapper.MessagesAreSummary | app/agents/tool_wrapper.py:64-81 | the user view and the model view are both the summary alone |
| ToolWrapper.WrapToolResult | app/agents/tool_wrapper.py:84-132 | the wrapped result carries the raw result after JSON-object strings are parsed, and asks for confirmation exactly when the tool is plan_circuit |
| ToolWrapper.WrapperTable | app/agents/tool_wrapper.py:109-132 | each of the seven dedicated tools is sent to its own wrapper, and exactly the other names get the generic one |
| ToolWrapper.UnknownToolsUseGeneric | app/agents/tool_wrapper.py:100-132 | any other tool name is wrapped by the generic wrapper on the result after a JSON-object string is parsed |
| ToolWrapper.LowerText | app/agents/tool_wrapper.py:310 | `.lower()` succeeds exactly on a string and gives its lower-case form |
| ToolWrapper.Length | app/agents/tool_wrapper.py:147 | `len()` succeeds exactly on a value that has a length, and gives it |
| ToolWrapper.WrapAddComponents | app/agents/tool_wrapper.py:135-179 | the result keeps the raw result and is FAILED exactly for a dict reporting `success` false, SUCCESS otherwise; it can raise only for a successful dict |
| ToolWrapper.WrapExecutePlan | app/agents/tool_wrapper.py:180-222 | the result keeps the raw result and is FAILED exactly for a dict reporting `success` false; a successful dict always carries an instruction |
| ToolWrapper.PlanToolsStatus | app/agents/tool_wrapper.py:135-220 | for the two plan-driven tools a dict result is SUCCESS exactly when its "success" entry is missing or truthy and FAILED otherwise, other results SUCCESS; only add_components_from_plan raises, when the context's components have no length |
| ToolWrapper.AddComponentsOutcome | app/agents/tool_wrapper.py:135-177 | the add-components wrapper's status follows the success flag, and it raises exactly on a successful dict with a length-less components entry |
| ToolWrapper.ComponentCountReported | app/agents/tool_wrapper.py:140-162 | a successful add reports the number of components in the context, in the summary and in the data with the design URI |
| ToolWrapper.AddedReport | app/agents/tool_wrapper.py:140-162 | the whole result of a successful add: summary, design URI and count, the saved-to instruction and the raw result |
| ToolWrapper.WrapPlanCircuit | app/agents/tool_wrapper.py:223-252 | every result asks for confirmation, keeps the raw result and carries an instruction; only a string can raise |
| ToolWrapper.PlanCircuitRequiresConfirmation | app/agents/tool_wrapper.py:223-250 | a plan_circuit result always asks for confirmation with an instruction; it raises exactly for a "PLAN_ID:" text whose first line has no ": " |
| ToolWrapper.PlanIdFromText | app/agents/tool_wrapper.py:229-249 | from "PLAN_ID: <id>" followed by a new line the id is read and stored as plan_id, and the instruction begins by naming it |
| ToolWrapper.PlanLineSplit | app/agents/tool_wrapper.py:231 | the first line of such a text is "PLAN_ID: <id>" |
| ToolWrapper.PlanIdSplit | app/agents/tool_wrapper.py:231 | the second ": "-separated field of "PLAN_ID: <id>" is the id |
| ToolWrapper.WrapAddComponent | app/agents/tool_wrapper.py:253-287 | the result keeps the raw result, has no instruction, and is FAILED exactly for a dict whose status is not "success" |
| ToolWrapper.AddComponentStatus | app/agents/tool_wrapper.py:253-285 | add_component never raises; a dict result is SUCCESS exactly when its status is "success" and FAILED otherwise; other results SUCCESS |
| ToolWrapper.WrapCheckCellExists | app/agents/tool_wrapper.py:288-379 | a result keeps the raw result and is ERROR exactly when the nested data reports an error, SUCCESS otherwise |
| ToolWrapper.CellExistenceWrapped | app/agents/tool_wrapper.py:288-360 | an answered existence check is SUCCESS and says whether the cell is present or absent as the reply says, naming library and cell from the call's arguments |
| ToolWrapper.LibraryNames | app/agents/tool_wrapper.py:406 | succeeds exactly when every library is a dict, giving each one's name or "unknown" in order |
| ToolWrapper.Texts | app/agents/tool_wrapper.py:407 | `str.join` succeeds exactly when every item is a string, and joins those strings |
| ToolWrapper.WrapProjectStructure | app/agents/tool_wrapper.py:380-434 | a result keeps the raw result and is ERROR exactly when the nested data reports an error; a result that is not a dict never raises |
| ToolWrapper.ProjectStructureCount | app/agents/tool_wrapper.py:380-426 | a successful structure reply is summarised with the number of libraries (0 when not a list), and never raises when that number is 0 |
| ToolWrapper.ProjectStructureSummary | app/agents/tool_wrapper.py:397-426 | the same, for the wrapper's report |
| ToolWrapper.WrapCurrentDesign | app/agents/tool_wrapper.py:435-484 | a result keeps the raw result and is ERROR exactly when the nested data reports an error; a result that is not a dict never raises |
| ToolWrapper.QueryToolsStatus | app/agents/tool_wrapper.py:288-482 | the three query wrappers report ERROR exactly when the nested data says status "error", and SUCCESS otherwise |
| ToolWrapper.CurrentDesignScenario | app/agents/tool_wrapper.py:435-475 | get_current_design reports the existing-design scenario exactly when the data names a truthy URI other than "None" |
| ToolWrapper.WrapGeneric | app/agents/tool_wrapper.py:485-577 | the result keeps the raw result and never asks for confirmation; only a dict can be FAILED or raise; a result that is neither a dict nor a string is SUCCESS |
| ToolWrapper.GenericDictClassification | app/agents/tool_wrapper.py:494-541 | a generic dict result is ERROR for a top-level "error" status, else FAILED for `success == False`, else ERROR for a "data" dict with an "error" status or a truthy "error", else SUCCESS; it raises only when the error found is not a string or the context's arguments are not a dict |
| ToolWrapper.GenericTextClassification | app/agents/tool_wrapper.py:557-570 | a generic text result never raises, is ERROR exactly when it mentions "error" in any case, and outside the two ADS patterns has the text itself as summary and no instruction |
| ToolWrapper.GenericReportRaises | app/agents/tool_wrapper.py:516-541 | the generic report raises only on a truthy error that is not a string or that needs arguments which are not a dict |
| Workflow.ParseState | servers_local/workflow_manager.py:35-52 | `WorkflowState(v)` gives the member whose value is `v`, and raises exactly when no member has that value (also line 206) |
| Workflow.ParseStateName | servers_local/workflow_manager.py:35-52 | parsing a state's value gives the state back (also lines 199, 206) |
| Workflow.AllowedToolsShape | servers_local/workflow_manager.py:59-115 | IDLE allows exactly its row, every other phase its row plus the global tools; reset_workflow is allowed exactly outside IDLE, plan_circuit exactly in IDLE, PLANNING and COMPLETED, add_component, execute_circuit_plan and confirm_design_open each in one phase only (also lines 359-370) |
| Workflow.GlobalToolsAlreadyListed | servers_local/workflow_manager.py:70-115 | every non-IDLE row already holds the three global tools, so the union adds nothing (also lines 367-368) |
| Workflow.ValidTransitions | servers_local/workflow_manager.py:303-313 | no phase lists itself and every phase lists somewhere to go |
| Workflow.ValidTransitionsShape | servers_local/workflow_manager.py:303-313 | the advisory table walks the six phases in order, lets every phase but IDLE go back to IDLE, and lists neither IDLE to SCHEMATIC_CREATED nor IDLE to COMPONENT_ADDING |
| Workflow.CountedTwice | servers_local/workflow_manager.py:352-355 | adding `a` and then `b` components adds `a + b` |
| Workflow.FieldsDetermine | servers_local/workflow_manager.py:179-194 | two contexts with the same value under every attribute name are equal |
| Workflow.PlanFieldsDetermine | servers_local/workflow_manager.py:185-187 | the same attribute values give the same state, plan id and plan data |
| Workflow.DesignFieldsDetermine | servers_local/workflow_manager.py:188-190 | the same attribute values give the same design URI, library and cell |
| Workflow.CountFieldsDetermine | servers_local/workflow_manager.py:191-194 | the same attribute values give the same counters and error message |
| Workflow.SetField | servers_local/workflow_manager.py:295-297 | `setattr` of an existing attribute with a value of its kind changes that attribute alone; any other name changes nothing |
| Workflow.LastAccepted | servers_local/workflow_manager.py:295-297 | the last keyword value given for a name is one the attribute accepts |
| Workflow.ApplyKwargsFields | servers_local/workflow_manager.py:295-297 | after the keyword loop each attribute holds the last accepted value given for it, or its old value |
| Workflow.ApplyKwargsUnknownNames | servers_local/workflow_manager.py:295-297 | keywords naming no attribute leave the context unchanged |
| Workflow.LastAcceptedNone | servers_local/workflow_manager.py:295-297 | such keywords give no accepted value for any name |
| Workflow.TransitionTakesTarget | servers_local/workflow_manager.py:283-292 | the target state is taken whether or not the advisory table lists it, unless a `state` keyword overrides it |
| Workflow.TransitionWithoutKwargs | servers_local/workflow_manager.py:283-301 | with no keywords a transition changes the state and nothing else |
| Workflow.ToDict | servers_local/workflow_manager.py:196-200 | the saved dict has distinct keys, all of them field names, and the state as its string value |
| Workflow.FromDict | servers_local/workflow_manager.py:202-207 | loading succeeds only for dicts whose keys are field names; a present state is parsed from its value, a missing one is IDLE |
| Workflow.FromDictToDict | servers_local/workflow_manager.py:196-207 | reloading a saved context gives it back |
| Workflow.ToDictScalarsRead | servers_local/workflow_manager.py:196-207 | the saved state and both counters read back as they were |
| Workflow.ToDictJsonRead | servers_local/workflow_manager.py:196-207 | the saved plan id, plan data, design URI, library, cell and error message read back as they were |
| Workflow.FromDictEmpty | servers_local/workflow_manager.py:185-194 | an empty dict loads as the default context (also lines 202-207) |
| Workflow.SetPlanStep | servers_local/workflow_manager.py:330-341 | plan id and plan data are always stored; it completes exactly when the components have a length and the circuit is a dict, ending in SCHEMATIC_CREATED, and otherwise leaves the state as it was |
| Workflow.SetPlanStores | servers_local/workflow_manager.py:330-341 | a well-formed plan sets the component count and the circuit's library, name and URI, in SCHEMATIC_CREATED, and nothing else |
| Workflow.PromptOf | servers_local/workflow_manager.py:378-397 | the prompt starts with the phase's fixed text, and is exactly that text when there is no plan id, no design URI and no positive component total |
| Workflow.StatePromptMentionsPlanId | servers_local/workflow_manager.py:387-395 | a non-empty plan id is quoted in the prompt |
| Workflow.IdlePromptWording | servers_local/workflow_manager.py:121-128 | the idle prompt names IDLE and plan_circuit |
| Workflow.WaitingPromptNamesState | servers_local/workflow_manager.py:142-154 | the waiting prompt names WAITING |
| Workflow.WaitingPromptForbids | servers_local/workflow_manager.py:142-154 | the waiting prompt says the agent CANNOT act before the user confirms |
| Workflow.WorkflowManager.StatePrompt | servers_local/workflow_manager.py:378-397 | the manager's prompt starts with its phase's fixed text and quotes the plan id when there is one |
| Workflow.WorkflowManager.FullSystemContext | servers_local/workflow_manager.py:399-413 | the full context names the current phase, hands on the plan id, design URI, library and cell, and grants reset_workflow exactly outside IDLE |
| Workflow.SystemContextOf | servers_local/workflow_manager.py:399-413 | the full context carries the state's value, the prompt and the allowed tools, with reset_workflow among them exactly outside IDLE |
| Workflow.WorkflowManager.constructor | servers_local/workflow_manager.py:223-240 | the manager starts from the saved context when it loads, and from the default otherwise |
| Workflow.WorkflowManager.TransitionTo | servers_local/workflow_manager.py:272-301 | always returns True; the new context is the transition to the target with the keyword updates, applied in order |
| Workflow.WorkflowManager.Reset | servers_local/workflow_manager.py:315-326 | the context becomes the default one, and the report gives the previous state's value and IDLE |
| Workflow.WorkflowManager.SetPlan | servers_local/workflow_manager.py:330-341 | the new context and the outcome are those of setting the plan on the old context |
| Workflow.WorkflowManager.SetDesignUri | servers_local/workflow_manager.py:347-350 | only the design URI changes |
| Workflow.WorkflowManager.IncrementComponentsAdded | servers_local/workflow_manager.py:352-355 | the added-components counter rises by exactly `count`, and nothing else changes |
| Workflow.WorkflowManager.AllowedTools | servers_local/workflow_manager.py:359-370 | the allowed set is the phase's own row, holding reset_workflow exactly outside IDLE |
| Workflow.WorkflowManager.IsToolAllowed | servers_local/workflow_manager.py:372-374 | a tool is allowed exactly when the current phase's row lists it |
| AdsServer.FormatHumanResponse | servers_local/ads_server.py:118-135 | the envelope always has status "success" and the message, and a data entry exactly when the data is truthy |
| AdsServer.EnvelopeAlwaysSucceeds | servers_local/ads_server.py:118-135 | every envelope, as text or as a dict, counts as a successful result for the loop guard, so add_components_from_plan always ends the run even when every add failed |
| AdsServer.AllowedListingEnumerates | servers_local/ads_server.py:145 | the listing in a denial names every tool allowed in the phase exactly once |
| AdsServer.ListingIdle | servers_local/ads_server.py:145 | the same, for IDLE |
| AdsServer.ListingPlanning | servers_local/ads_server.py:145 | the same, for PLANNING |
| AdsServer.ListingSchematicCreated | servers_local/ads_server.py:145 | the same, for SCHEMATIC_CREATED |
| AdsServer.ListingWaitingUser | servers_local/ads_server.py:145 | the same, for WAITING_USER |
| AdsServer.ListingComponentAdding | servers_local/ads_server.py:145 | the same, for COMPONENT_ADDING |
| AdsServer.ListingCompleted | servers_local/ads_server.py:145 | the same, for COMPLETED |
| AdsServer.CheckToolAllowed | servers_local/ads_server.py:138-151 | no denial exactly when the tool is allowed in the current phase; a denial names the tool and the phase |
| AdsServer.DenialNames | servers_local/ads_server.py:144-149 | the denial text contains the tool's name and the phase's value |
| AdsServer.ResetWorkflow | servers_local/ads_server.py:243-266 | in IDLE nothing changes and the already-idle message is returned; elsewhere the context becomes the default one and the response carries the reset report |
| AdsServer.CellArgumentGuard | servers_local/ads_server.py:415-431 | no guard fires exactly when the library is not a component library and differs from the cell; a component library is refused first, then a library named like the cell, each with its error details |
| AdsServer.CheckCellExists | servers_local/ads_server.py:394-460 | the gate first, then the two guards, then the missing client, then a client exception reported as failure; the workflow is never touched |
| AdsServer.CellGuardsPrecedeClient | servers_local/ads_server.py:410-437 | when a guard applies the response does not depend on the client at all, and, once allowed, carries data |
| AdsServer.CheckCellGuarded | servers_local/ads_server.py:410-431 | when a guard applies the response is the gate's denial or that guard's |
| AdsServer.GuardReportsData | servers_local/ads_server.py:415-431 | a firing guard reports its error details as data |
| AdsServer.CheckCellReportsExistence | servers_local/ads_server.py:434-446 | a returned reply with a dict `data` gives the present or absent message by the truthiness of `exists`, with the reply as data |
| AdsServer.CheckCellReachesClient | servers_local/ads_server.py:433-446 | once allowed and unguarded, a returned reply yields the existence report |
| AdsServer.ExistenceReportFields | servers_local/ads_server.py:439-446 | the existence report's message and data |
| AdsServer.OpenedContextShape | servers_local/ads_server.py:493-506 | an opened design is in a phase that allows add_component and finish_design, has no plan, a design URI and both counters at zero |
| AdsServer.OpenExistingDesign | servers_local/ads_server.py:464-543 | only an allowed call with a client whose check finds the cell changes the workflow, to the opened context; every other path leaves it unchanged; a refused call returns the denial |
| AdsServer.AvailableLibraries | servers_local/ads_server.py:639-647 | not connected, or a listing that throws, gives no libraries |
| AdsServer.FirstItem | servers_local/ads_server.py:652 | `v[0]` of a non-empty list is its first item |
| AdsServer.CircuitEntries | servers_local/ads_server.py:659-665 | the plan's circuit holds the name, the target library and the planned URI |
| AdsServer.PlanDictEntries | servers_local/ads_server.py:655-669 | the stored plan holds the component list and the circuit dict |
| AdsServer.TargetLibraryChoice | servers_local/ads_server.py:650-652 | the given library if truthy, else the first of a non-empty list, else the given value; the planned URI exists exactly for a truthy target and is "lib:name:schematic" (also line 664) |
| AdsServer.PlanCircuit | servers_local/ads_server.py:597-685 | a refused call changes nothing; otherwise the plan is stored with its count, library, cell and URI and the phase becomes SCHEMATIC_CREATED, and it raises, changing nothing, exactly when the target cannot be taken |
| AdsServer.PlanCell | servers_local/ads_server.py:726-728 | reading library and name succeeds only on a plan whose circuit is a dict |
| AdsServer.CreatedUriFallback | servers_local/ads_server.py:741-743 | a reply without data gives the URI "lib:cell:schematic" |
| AdsServer.ExecuteCircuitPlan | servers_local/ads_server.py:691-770 | a completed run records the created URI and moves to WAITING_USER; a create the client rejects records the reply as the error message; every other path leaves the workflow alone; without a plan the no-plan message is returned |
| AdsServer.ConfirmDesignOpen | servers_local/ads_server.py:776-823 | a refused call changes nothing; an allowed one always moves to COMPONENT_ADDING, keeping the rest, and reports the state and URI |
| AdsServer.LibraryFor | servers_local/ads_server.py:969-981 | a component is placed from one of the three component libraries, keeping its own cell or becoming GROUND |
| AdsServer.LibraryForTable | servers_local/ads_server.py:969-981 | sources go to ads_sources, the three ground spellings to GROUND, simulation controls to ads_simulation, and every other type to ads_rflib |
| AdsServer.MappedLibrariesAreGuarded | servers_local/ads_server.py:415-422 | every library a plan component is placed from is refused as a project library by check_cell_exists (also lines 969-981) |
| AdsServer.ComponentPayloadShape | servers_local/ads_server.py:963-992 | the payload sends the design URI, mapped library and cell and the component's name (default ""), and an angle exactly when the component has a non-None one |
| AdsServer.PayloadBaseShape | servers_local/ads_server.py:983-990 | the six base entries are found under their keys, with no angle |
| AdsServer.PayloadBaseKeys | servers_local/ads_server.py:983-990 | the base keys are distinct and none is "angle" |
| AdsServer.PayloadWithAngle | servers_local/ads_server.py:991-992 | adding the angle keeps every other entry |
| AdsServer.AddStep | servers_local/ads_server.py:962-1001 | one component is counted once, as a success exactly when the reply says so; a non-dict component or a client exception stops the loop with the tally unchanged |
| AdsServer.AddRunCounts | servers_local/ads_server.py:958-1001 | every component the loop gets through is counted once, and there is one detail line per failure |
| AdsServer.AddRunSuccesses | servers_local/ads_server.py:962-998 | when every component is a dict and every reply returns, the successes are exactly the successful replies |
| AdsServer.AddRunStops | servers_local/ads_server.py:962-1001 | once the loop has stopped, later components change nothing |
| AdsServer.AddRunNext | servers_local/ads_server.py:962-1001 | one more component applies one step to the running tally, and a stopping step is final |
| AdsServer.AddComponentsFromPlan | servers_local/ads_server.py:927-1022 | before the loop nothing changes; in it `components_added` rises by the number of successes (kept if it raises part-way) and nothing else changes; it returns exactly when the loop and the save complete, with the counts and URI |
| AdsServer.AddEach | servers_local/ads_server.py:962-1001 | the loop's tally is the run over all components, and `components_added` rises by its successes |
| AdsServer.AddOne | servers_local/ads_server.py:962-1001 | one pass advances the run by one component and raises the counter by its success |
| AdsServer.AddComponent | servers_local/ads_server.py:829-883 | `components_added` rises by one exactly when an allowed call with a client gets a successful reply; it raises exactly on a client exception |
| AdsServer.FinishDesign | servers_local/ads_server.py:1057-1095 | a refused call changes nothing; otherwise it moves to COMPLETED and reports the URI and count, and only a throwing save (with client and URI) stops it, changing nothing |
| AdsServer.HandlerPathAllowed | servers_local/ads_server.py:625 | each handler on the plan path is allowed in the phase the previous one leaves, and plan_circuit is not allowed once the schematic is created (also lines 705, 787, 940, 1067) |

## Left out

- Network, sockets, files and the ADS API are not modelled. Each ADS command
  an ADS handler would send is a `CommandOutcome` parameter: either the reply
  dict or the exception text. Whether a client exists is a boolean parameter.
- These ADS handlers are not modelled, because they only read state or pass a
  command through to the client: `check_connection`, `get_workflow_status`,
  `get_project_structure`, `list_cells`, `get_current_design`, `add_wire`,
  `save_current_design`, the `ads://` resources, `check_ads_connection`, and
  the logging.
- ADS handlers return the envelope as a dict. The `json.dumps(…, indent=2)`
  text around it is not modelled.
- Time is an explicit `now` in whole seconds. The uuid that names a new plan
  or session is a parameter. The session model stores times as numbers, not
  ISO-formatted strings.
- `json.loads` is not modelled. Wherever the code parses a string, the parse
  outcome is given together with the text.
- Strings.Lower: maps only ASCII letters, not the full Unicode case mapping of
  `str.lower()`.
- Strings.Strip: strips only the ASCII white space of `Strings.IsSpace`, not
  every Unicode space that `str.isspace()` accepts.
- Json.Repr: does not escape quotes or control characters inside strings.
- LoopControl.SignatureOf: the signature is the tool name plus the key-sorted
  argument entries, not the JSON text of `json.dumps(…, sort_keys=True)`.
  Only top-level keys are sorted, and nested values are compared as they are.
- `asyncio`, the MCP client manager, and the proxy tools' `call` are not
  modelled. `create_mcp_proxy_tools` is modelled as the list of proxy
  descriptions it builds.
- In the registry, `to_openai_tools`, `to_openai_functions` and
  `get_tool_schemas` (app/tools/registry.py:120-147) are not modelled,
  because they depend on each tool's `BaseTool` schema methods.
- In the registry, the module-level `registry` and `register_tool`
  (app/tools/registry.py:175-189) are not modelled. A tool's behaviour when
  called is a function parameter.
- Protocol.HandleCallTool: app/mcp/protocol.py:140 calls
  `registry.get_tool_instance`, which `ToolRegistry` does not define. The
  lookup and the call are therefore one abstract `ToolOutcome` parameter:
  the result, a KeyError, or another exception.
- AdsServer.AllowedListingEnumerates: `list(set)` lists the allowed tools in
  hash order. The model lists them in table order, and the lemma states only
  that the listing contains every allowed tool, each once.
- AdapterLayer.InjectSystemInstruction: takes no `tool_result`, because the
  code accepts that argument and never reads it.
- `get_tool_schema_for_prompt` (app/tools/mcp_converter.py:118) is not
  modelled. It formats `BaseTool` schemas for a prompt, and nothing in the
  core depends on it.
- The side effects in servers_local/control.py are not modelled: the mouse,
  keyboard, process and application calls. Only the argument guards before
  them are. The screen size is a parameter.
- For the mock laser, `BaseTool.parse_params` (app/tools/base_tool.py:42)
  is modelled by its outcomes: a dict is used as it is, text parses or raises
  the invalid-JSON ValueError, and anything else raises. Which texts parse is
  given with the text.
- The workflow manager's `_load_state` and `_save_state` read and write a
  file, and are not modelled. The constructor takes the loaded document as an
  `Option<Json>`. `last_updated` is not kept.
- The workflow manager's `get_state_info` (servers_local/workflow_manager.py:259-268) and
  the module-level singleton accessors are not modelled.
- For sessions, the `RLock`, `print`, `get_session_count` and the module-level
  `get_session_manager` are not modelled.
- Sessions.SessionManager.OldestId: the sessions are a map, so on a tie in
  last activity the model may evict any of the tied sessions, where `min()`
  over the dict picks the one inserted first.
- Sessions.SessionManager.ListSessions: lists the live sessions in no fixed
  order, where the code lists them in dict insertion order. The contract
  states which sessions are listed and what each entry holds, not their order.
- Workflow.SetField: the context's fields are typed, so a value of the wrong
  kind for a field is dropped. Python's `setattr` would store it as it is.
- Workflow.FromDict: the counters are typed integers, so a saved counter
  that is not an integer makes the load fail. The dataclass constructor
  would store it as it is.
- Json numbers are integers. Floating-point values, such as the x, y and
  angle of a component in `AdsServer.AddComponent`, and Python's float
  formatting (`10.0`), are not modelled.
- The `print` calls in app/tools/mcp_converter.py are console output and are
  not modelled.
- `MAX_TOOL_CALLS_PER_TOOL` (app/agents/control_layer.py:45) is never read
  by the code, so the model enforces no per-tool quota.

## Notes on the code

The model follows the code where it departs from the project's documentation
or tests:

- `format_human_response` (servers_local/ads_server.py:118-135) always writes
  status "success" and has no top-level "success" key. So the loop guard and
  the tool wrapper treat every ADS handler reply as successful. This includes
  an `add_components_from_plan` run in which every add failed
  (`AdsServer.EnvelopeAlwaysSucceeds`).
- For an unknown command, `MockLaserControl.call` replies
  "【硬件反馈】指令无效: <cmd>". For unparseable params it replies
  "参数格式错误: …". tests/test_tools.py:27-40 expects texts without these
  suffixes.
- There is one workflow, a module-level singleton, shared by every session.
  It is not kept per session.
- The loop guard is checked after the call is recorded. So the fourth
  identical call in a row is flagged as soon as it is recorded
  (`LoopControl.LoopGuardAfterRepeats`). The code has no turn-loop
  orchestrator: app/agents/services/agent_service.py echoes its input.
- `reset_workflow` is not allowed in IDLE, because the global tools are added
  only outside IDLE.
- `transition_to` accepts any target, whether or not
  `_get_valid_transitions` lists it.
- `plan_circuit` moves straight to SCHEMATIC_CREATED and never passes
  through PLANNING.
- `open_existing_design` resets the component counters, so the count of
  added components does not grow monotonically over a session.
