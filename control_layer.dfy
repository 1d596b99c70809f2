/**
 * The agent's execution guard: a per-session loop state with a
 * consecutive-repeat counter, and the post-call termination classifier.
 */
module LoopControl {
  import opened Wrappers
  import opened Strings
  import opened Json

  datatype TerminationReason =
    | TerminationActionCalled
    | UserConfirmationRequired
    | ToolCallLimitReached
    | InfiniteLoopDetected
    | TaskCompleted
    | ErrorOccurred

  function ReasonValue(r: TerminationReason): string {
    match r
    case TerminationActionCalled => "termination_action"
    case UserConfirmationRequired => "user_confirmation_required"
    case ToolCallLimitReached => "tool_call_limit"
    case InfiniteLoopDetected => "infinite_loop"
    case TaskCompleted => "task_completed"
    case ErrorOccurred => "error"
  }

  /**
   * `ControlLayerConfig`. `maxToolCallsPerTool` is declared by the source but
   * read nowhere, and nothing below reads it either.
   */
  datatype Config = Config(
    terminationActions: set<string>,
    confirmationRequiredActions: set<string>,
    maxToolCallsTotal: int,
    maxToolCallsPerTool: int,
    maxSameToolCalls: int)

  const DefaultConfig := Config(
    {"add_components_from_plan", "execute_circuit_plan", "save_current_design"},
    {"plan_circuit"},
    15, 5, 3)

  // ---------------------------------------------------------------------
  // Call signatures

  /** Keys in non-decreasing string order, as `json.dumps(sort_keys=True)` writes them. */
  predicate SortedByKey(d: Dict) {
    forall i, j :: 0 <= i < j < |d| ==> StrLe(d[i].0, d[j].0)
  }

  function InsertByKey(e: (string, Json), d: Dict): (r: Dict)
    requires SortedByKey(d)
    ensures SortedByKey(r)
    ensures multiset(r) == multiset(d) + multiset{e}
  {
    if d == [] then [e]
    else if StrLe(e.0, d[0].0) then
      FirstBoundsAll(e.0, d);
      ConsSorted(e, d);
      [e] + d
    else
      var tail := InsertByKey(e, d[1..]);
      StrLtAsymmetric(d[0].0, e.0);
      FirstBoundsAll(d[0].0, d[1..]);
      BoundKept(d[0].0, e, d[1..], tail);
      ConsSorted(d[0], tail);
      assert d == [d[0]] + d[1..];
      [d[0]] + tail
  }

  /** A key at or below the first key of a key-sorted dict is at or below all of them. */
  lemma FirstBoundsAll(k: string, d: Dict)
    requires SortedByKey(d) && (d != [] ==> StrLe(k, d[0].0))
    ensures forall j :: 0 <= j < |d| ==> StrLe(k, d[j].0)
  {
    forall j | 0 <= j < |d| ensures StrLe(k, d[j].0) {
      if j > 0 { StrLeTransitive(k, d[0].0, d[j].0); }
    }
  }

  /** An entry whose key bounds the rest keeps a key-sorted dict sorted in front. */
  lemma ConsSorted(x: (string, Json), d: Dict)
    requires SortedByKey(d) && forall j :: 0 <= j < |d| ==> StrLe(x.0, d[j].0)
    ensures SortedByKey([x] + d)
  {
    var r := [x] + d;
    forall i, j | 0 <= i < j < |r| ensures StrLe(r[i].0, r[j].0) {
      assert r[j] == d[j - 1];
      if i > 0 { assert r[i] == d[i - 1]; }
    }
  }

  /** A lower bound of the keys of `d` and of `e` bounds the keys of any permutation of `d` plus `e`. */
  lemma BoundKept(k: string, e: (string, Json), d: Dict, tail: Dict)
    requires StrLe(k, e.0) && forall j :: 0 <= j < |d| ==> StrLe(k, d[j].0)
    requires multiset(tail) == multiset(d) + multiset{e}
    ensures forall j :: 0 <= j < |tail| ==> StrLe(k, tail[j].0)
  {
    forall j | 0 <= j < |tail| ensures StrLe(k, tail[j].0) {
      assert tail[j] in multiset(tail);
      if tail[j] != e {
        assert tail[j] in multiset(d);
        var m :| 0 <= m < |d| && d[m] == tail[j];
      }
    }
  }

  /** The argument entries in key order (stable insertion sort). */
  function SortByKey(d: Dict): (r: Dict)
    ensures SortedByKey(r)
    ensures multiset(r) == multiset(d)
  {
    if d == [] then [] else
      assert d == [d[0]] + d[1..];
      InsertByKey(d[0], SortByKey(d[1..]))
  }

  predicate StrictlySortedByKey(d: Dict) {
    forall i, j :: 0 <= i < j < |d| ==> StrLt(d[i].0, d[j].0)
  }

  lemma DistinctSortedIsStrict(d: Dict)
    requires SortedByKey(d) && DistinctKeys(d)
    ensures StrictlySortedByKey(d)
  {
    forall i, j | 0 <= i < j < |d| ensures StrLt(d[i].0, d[j].0) {
      StrLtTotal(d[i].0, d[j].0);
    }
  }

  /** In a dict with distinct keys every entry occurs at most once. */
  lemma {:induction false} DistinctCountAtMostOne(a: Dict, e: (string, Json))
    requires DistinctKeys(a)
    ensures multiset(a)[e] <= 1
    decreases |a|
  {
    if a != [] {
      assert a == [a[0]] + a[1..];
      DistinctCountAtMostOne(a[1..], e);
      if a[0] == e {
        assert e !in a[1..] by {
          forall k | 0 <= k < |a[1..]| ensures a[1..][k] != e {
            assert a[1..][k] == a[k + 1];
          }
        }
      }
    }
  }

  lemma TwoPositions(b: Dict, i: int, j: int)
    requires 0 <= i < j < |b| && b[i] == b[j]
    ensures multiset(b)[b[i]] >= 2
  {
    assert b == b[..j] + [b[j]] + b[j + 1..];
    assert b[..j][i] == b[i];
    assert b[i] in multiset(b[..j]);
  }

  /** Permutations keep the keys distinct. */
  lemma DistinctKeysPermutation(a: Dict, b: Dict)
    requires DistinctKeys(a) && multiset(a) == multiset(b)
    ensures DistinctKeys(b)
  {
    forall i, j | 0 <= i < j < |b| ensures b[i].0 != b[j].0 {
      if b[i].0 == b[j].0 {
        assert b[i] in multiset(a) && b[j] in multiset(a);
        var p :| 0 <= p < |a| && a[p] == b[i];
        var q :| 0 <= q < |a| && a[q] == b[j];
        if p == q {
          TwoPositions(b, i, j);
          DistinctCountAtMostOne(a, b[i]);
        }
      }
    }
  }

  /** Two strictly key-sorted dicts with the same entries are the same sequence. */
  lemma {:induction false} StrictlySortedUnique(x: Dict, y: Dict)
    requires StrictlySortedByKey(x) && StrictlySortedByKey(y)
    requires multiset(x) == multiset(y)
    ensures x == y
    decreases |x|
  {
    if x == [] {
      assert |y| == |multiset(y)| == 0;
    } else {
      SortedHeadsAgree(x, y);
      TailsSameEntries(x, y);
      StrictTail(x);
      StrictTail(y);
      StrictlySortedUnique(x[1..], y[1..]);
      assert x == [x[0]] + x[1..] && y == [y[0]] + y[1..];
    }
  }

  /** The least entry of two strictly key-sorted dicts with the same entries is the same. */
  lemma SortedHeadsAgree(x: Dict, y: Dict)
    requires StrictlySortedByKey(x) && StrictlySortedByKey(y)
    requires multiset(x) == multiset(y) && x != []
    ensures y != [] && y[0] == x[0]
  {
    assert |y| == |multiset(y)| == |multiset(x)| == |x|;
    assert x[0] in multiset(y);
    var k :| 0 <= k < |y| && y[k] == x[0];
    assert y[0] in multiset(x);
    var m :| 0 <= m < |x| && x[m] == y[0];
    if k > 0 {
      if m > 0 {
        StrLtAsymmetric(x[0].0, x[m].0);
      } else {
        StrLtIrreflexive(x[0].0);
      }
    }
  }

  /** Removing the same first entry from two dicts with the same entries leaves the same entries. */
  lemma TailsSameEntries(x: Dict, y: Dict)
    requires x != [] && y != [] && x[0] == y[0] && multiset(x) == multiset(y)
    ensures multiset(x[1..]) == multiset(y[1..])
  {
    assert x == [x[0]] + x[1..] && y == [y[0]] + y[1..];
    assert multiset(x[1..]) == multiset(x) - multiset{x[0]};
    assert multiset(y[1..]) == multiset(y) - multiset{y[0]};
  }

  lemma StrictTail(x: Dict)
    requires StrictlySortedByKey(x) && x != []
    ensures StrictlySortedByKey(x[1..])
  {
    forall i, j | 0 <= i < j < |x[1..]| ensures StrLt(x[1..][i].0, x[1..][j].0) {
      assert x[1..][i] == x[i + 1] && x[1..][j] == x[j + 1];
    }
  }

  /**
   * The signature `f"{tool_name}:{json.dumps(tool_args, sort_keys=True)}"`,
   * represented by the tool name and the key-sorted argument entries (an
   * injective stand-in for the JSON text). `NoSignature` is the initial "".
   */
  datatype Signature = NoSignature | Sig(tool: string, sortedArgs: Dict)

  function SignatureOf(tool: string, args: Dict): (s: Signature)
    ensures s.Sig? && s.tool == tool
    ensures SortedByKey(s.sortedArgs) && multiset(s.sortedArgs) == multiset(args)
  {
    Sig(tool, SortByKey(args))
  }

  /**
   * Two calls have the same signature exactly when they name the same tool
   * with the same argument entries, whatever the order of the keys.
   */
  lemma SignatureEquality(t1: string, a1: Dict, t2: string, a2: Dict)
    requires DistinctKeys(a1) && DistinctKeys(a2)
    ensures SignatureOf(t1, a1) == SignatureOf(t2, a2) <==> t1 == t2 && multiset(a1) == multiset(a2)
  {
    var s1, s2 := SortByKey(a1), SortByKey(a2);
    if t1 == t2 && multiset(a1) == multiset(a2) {
      DistinctKeysPermutation(a1, s1);
      DistinctKeysPermutation(a2, s2);
      DistinctSortedIsStrict(s1);
      DistinctSortedIsStrict(s2);
      StrictlySortedUnique(s1, s2);
    }
  }

  // ---------------------------------------------------------------------
  // Loop state

  /** The fields of `LoopState`. */
  datatype LoopSnapshot = LoopSnapshot(
    turnCount: int,
    toolsCalled: seq<string>,
    signatures: seq<Signature>,
    lastSignature: Signature,
    consecutive: int)

  const InitialLoop := LoopSnapshot(0, [], [], NoSignature, 0)

  /** `LoopState.record_tool_call` on the fields. */
  function RecordCall(s: LoopSnapshot, tool: string, args: Dict): (r: LoopSnapshot)
    ensures r.toolsCalled == s.toolsCalled + [tool]
    ensures r.signatures == s.signatures + [SignatureOf(tool, args)]
    ensures r.lastSignature == SignatureOf(tool, args)
    ensures r.consecutive == if SignatureOf(tool, args) == s.lastSignature then s.consecutive + 1 else 0
    ensures r.turnCount == s.turnCount
  {
    var sig := SignatureOf(tool, args);
    s.(consecutive := if sig == s.lastSignature then s.consecutive + 1 else 0,
       lastSignature := sig,
       signatures := s.signatures + [sig],
       toolsCalled := s.toolsCalled + [tool])
  }

  /** `ControlLayer.record_tool_call`: the loop-state update plus one turn. */
  function ControlRecord(s: LoopSnapshot, tool: string, args: Dict): LoopSnapshot {
    var r := RecordCall(s, tool, args);
    r.(turnCount := r.turnCount + 1)
  }

  /** Number of equal entries at the end of `sigs`. */
  function TrailingRun(sigs: seq<Signature>): nat
    decreases |sigs|
  {
    if |sigs| <= 1 then |sigs|
    else if sigs[|sigs| - 1] == sigs[|sigs| - 2] then 1 + TrailingRun(sigs[..|sigs| - 1])
    else 1
  }

  /** What recording through the control layer keeps true of the fields. */
  predicate WellFormed(s: LoopSnapshot) {
    && |s.toolsCalled| == |s.signatures| == s.turnCount
    && (forall i :: 0 <= i < |s.signatures| ==> s.signatures[i].Sig? && s.signatures[i].tool == s.toolsCalled[i])
    && s.lastSignature == (if s.signatures == [] then NoSignature else s.signatures[|s.signatures| - 1])
    && s.consecutive == (if s.signatures == [] then 0 else TrailingRun(s.signatures) - 1)
  }

  /**
   * Every call recorded through the control layer appends one tool and one
   * signature and adds one turn; the repeat counter stays one less than the
   * length of the trailing run of identical signatures.
   */
  lemma ControlRecordWellFormed(s: LoopSnapshot, tool: string, args: Dict)
    requires WellFormed(s)
    ensures WellFormed(ControlRecord(s, tool, args))
  {
    var sigs := s.signatures + [SignatureOf(tool, args)];
    assert sigs[..|sigs| - 1] == s.signatures;
  }

  /** Recording a sequence of calls, in order, through the control layer. */
  function ReplayCalls(s: LoopSnapshot, calls: seq<(string, Dict)>): LoopSnapshot
    decreases |calls|
  {
    if calls == [] then s else ReplayCalls(ControlRecord(s, calls[0].0, calls[0].1), calls[1..])
  }

  lemma {:induction false} ReplayWellFormed(s: LoopSnapshot, calls: seq<(string, Dict)>)
    requires WellFormed(s)
    ensures WellFormed(ReplayCalls(s, calls))
    ensures ReplayCalls(s, calls).turnCount == s.turnCount + |calls|
    decreases |calls|
  {
    if calls != [] {
      ControlRecordWellFormed(s, calls[0].0, calls[0].1);
      ReplayWellFormed(ControlRecord(s, calls[0].0, calls[0].1), calls[1..]);
    }
  }

  /** `k` copies of the same call. */
  function Repeat(call: (string, Dict), k: nat): (r: seq<(string, Dict)>)
    ensures |r| == k && forall i :: 0 <= i < k ==> r[i] == call
  {
    if k == 0 then [] else [call] + Repeat(call, k - 1)
  }

  /**
   * After `k` identical calls following a different one (or none), the
   * repeat counter is `k - 1` and `k` more entries were recorded.
   */
  lemma {:induction false} RepeatedCalls(s: LoopSnapshot, call: (string, Dict), k: nat)
    requires WellFormed(s) && s.lastSignature != SignatureOf(call.0, call.1)
    requires k >= 1
    ensures ReplayCalls(s, Repeat(call, k)).consecutive == k - 1
    ensures |ReplayCalls(s, Repeat(call, k)).toolsCalled| == |s.toolsCalled| + k
    ensures ReplayCalls(s, Repeat(call, k)).lastSignature == SignatureOf(call.0, call.1)
    decreases k
  {
    if k == 1 {
      assert Repeat(call, 1)[1..] == [];
    } else {
      var s1 := ReplayCalls(s, Repeat(call, k - 1));
      RepeatedCalls(s, call, k - 1);
      ReplaySplit(s, Repeat(call, k - 1), [call]);
      assert Repeat(call, k - 1) + [call] == Repeat(call, k);
    }
  }

  lemma {:induction false} ReplaySplit(s: LoopSnapshot, a: seq<(string, Dict)>, b: seq<(string, Dict)>)
    ensures ReplayCalls(s, a + b) == ReplayCalls(ReplayCalls(s, a), b)
    decreases |a|
  {
    if a != [] {
      var s1 := ControlRecord(s, a[0].0, a[0].1);
      assert (a + b)[0] == a[0];
      assert (a + b)[1..] == a[1..] + b;
      assert ReplayCalls(s, a + b) == ReplayCalls(s1, a[1..] + b);
      assert ReplayCalls(s, a) == ReplayCalls(s1, a[1..]);
      ReplaySplit(s1, a[1..], b);
    } else {
      assert a + b == b;
    }
  }

  // ---------------------------------------------------------------------
  // Termination decisions

  /**
   * `_is_successful_result`: a dict (or a string whose JSON is a dict)
   * succeeds iff its status is "success"; any other string iff it mentions
   * success (case-insensitively), a check mark or a white heavy check mark.
   */
  predicate IsSuccessfulResult(raw: RawResult) {
    match raw
    case RawText(text, parsed) =>
      if parsed.Some? && parsed.value.Obj? then Get(parsed.value.entries, "status") == Some(Str("success"))
      else Contains(Lower(text), "success") || Contains(text, "\U{2713}") || Contains(text, "\U{2705}")
    case RawDict(d) => Get(d, "status") == Some(Str("success"))
    case _ => false
  }

  /**
   * A string that parses to a dict is judged by that dict's status alone,
   * whatever its text says; any other string succeeds when it says
   * "success" in any case or carries either check mark; None never succeeds.
   */
  lemma SuccessfulResultCases(a: string, b: string, parsed: Option<Json>)
    ensures parsed.Some? && parsed.value.Obj? ==>
              (IsSuccessfulResult(RawText(a + b, parsed)) <==> IsSuccessfulResult(RawDict(parsed.value.entries)))
    ensures !(parsed.Some? && parsed.value.Obj?) ==>
              IsSuccessfulResult(RawText(a + "Success" + b, parsed))
              && IsSuccessfulResult(RawText(a + "\U{2713}" + b, parsed))
              && IsSuccessfulResult(RawText(a + "\U{2705}" + b, parsed))
    ensures !IsSuccessfulResult(RawNone)
  {
    if !(parsed.Some? && parsed.value.Obj?) {
      SuccessWordFound(a, b);
      ContainsInfix(a, "\U{2713}", b);
      ContainsInfix(a, "\U{2705}", b);
    }
  }

  /** "Success" inside any text is found once the text is lowered. */
  lemma SuccessWordFound(a: string, b: string)
    ensures Contains(Lower(a + "Success" + b), "success")
  {
    LowerConcat(a, "Success");
    LowerConcat(a + "Success", b);
    assert Lower("Success") == "success";
    ContainsInfix(Lower(a), "success", Lower(b));
  }

  datatype Decision = Decision(terminate: bool, reason: Option<TerminationReason>, message: string)

  /** `should_terminate_after_tool` on the loop counters. */
  function Decide(config: Config, consecutive: int, callsRecorded: int, tool: string, raw: RawResult): (r: Decision)
    ensures r.terminate <==> r.reason.Some?
    ensures !r.terminate ==> r.message == ""
  {
    if tool in config.terminationActions && IsSuccessfulResult(raw) then
      Decision(true, Some(TerminationActionCalled),
               "\U{2713} Task completed by '" + tool + "'. Execution stopped to prevent redundant actions.")
    else if tool in config.confirmationRequiredActions then
      Decision(true, Some(UserConfirmationRequired),
               "\U{23F8}\U{FE0F} Tool '" + tool + "' requires user confirmation. Waiting for user input before proceeding.")
    else if consecutive >= config.maxSameToolCalls then
      Decision(true, Some(InfiniteLoopDetected),
               "\U{26A0}\U{FE0F} Detected infinite loop on '" + tool + "'. Execution stopped after "
               + IntToString(consecutive) + " identical calls.")
    else if callsRecorded >= config.maxToolCallsTotal then
      Decision(true, Some(ToolCallLimitReached),
               "\U{26A0}\U{FE0F} Reached maximum tool calls (" + IntToString(config.maxToolCallsTotal)
               + "). Please confirm before continuing.")
    else
      Decision(false, None, "")
  }

  /**
   * The checks in priority order: a successful termination action, then a
   * confirmation tool, then the repeat threshold, then the total limit.
   */
  lemma DecidePriority(config: Config, consecutive: int, calls: int, tool: string, raw: RawResult)
    ensures var r := Decide(config, consecutive, calls, tool, raw);
      && (r.reason == Some(TerminationActionCalled) <==> tool in config.terminationActions && IsSuccessfulResult(raw))
      && (r.reason == Some(UserConfirmationRequired)
          <==> !(tool in config.terminationActions && IsSuccessfulResult(raw)) && tool in config.confirmationRequiredActions)
      && (r.reason == Some(InfiniteLoopDetected)
          <==> !(tool in config.terminationActions && IsSuccessfulResult(raw))
               && tool !in config.confirmationRequiredActions && consecutive >= config.maxSameToolCalls)
      && (r.reason == Some(ToolCallLimitReached)
          <==> !(tool in config.terminationActions && IsSuccessfulResult(raw))
               && tool !in config.confirmationRequiredActions && consecutive < config.maxSameToolCalls
               && calls >= config.maxToolCallsTotal)
      && (r.reason.None?
          <==> (!(tool in config.terminationActions && IsSuccessfulResult(raw))
                && tool !in config.confirmationRequiredActions && consecutive < config.maxSameToolCalls
                && calls < config.maxToolCallsTotal))
      && r.reason != Some(TaskCompleted) && r.reason != Some(ErrorOccurred)
  {
  }

  /** `plan_circuit` always stops for confirmation, even on its first call. */
  lemma PlanCircuitAlwaysConfirms(consecutive: int, calls: int, raw: RawResult)
    ensures Decide(DefaultConfig, consecutive, calls, "plan_circuit", raw).reason == Some(UserConfirmationRequired)
  {
  }

  /** A failed termination action falls through to the later checks. */
  lemma FailedTerminationActionFallsThrough(tool: string, consecutive: int, calls: int, raw: RawResult)
    requires tool in DefaultConfig.terminationActions && !IsSuccessfulResult(raw)
    ensures Decide(DefaultConfig, consecutive, calls, tool, raw)
            == Decide(DefaultConfig, consecutive, calls, "", raw).(message := Decide(DefaultConfig, consecutive, calls, tool, raw).message)
  {
  }

  /**
   * From a fresh control layer, `k` identical calls of an ordinary tool trip
   * the repeat guard exactly from the fourth call on, and no earlier check or
   * the total limit fires before it.
   */
  lemma LoopGuardAfterRepeats(tool: string, args: Dict, k: nat, raw: RawResult)
    requires tool !in DefaultConfig.terminationActions && tool !in DefaultConfig.confirmationRequiredActions
    requires 1 <= k
    ensures var s := ReplayCalls(InitialLoop, Repeat((tool, args), k));
            var r := Decide(DefaultConfig, s.consecutive, |s.toolsCalled|, tool, raw);
            (r.reason == Some(InfiniteLoopDetected) <==> k >= 4) && (r.reason.None? <==> k <= 3)
  {
    assert WellFormed(InitialLoop);
    RepeatedCalls(InitialLoop, (tool, args), k);
  }

  /**
   * `get_termination_message`'s summary: a JSON-object string's "summary",
   * joined with its "instruction" when that is non-empty; "" otherwise.
   */
  function SummaryOf(raw: RawResult): Json {
    if raw.RawText? && raw.parsed.Some? && raw.parsed.value.Obj? then
      var d := raw.parsed.value.entries;
      var summary := GetOr(d, "summary", Str(""));
      var instruction := GetOr(d, "instruction", Str(""));
      if Truthy(instruction) then
        (if Truthy(summary) then Str(PyStr(summary) + "\n\n" + PyStr(instruction)) else instruction)
      else summary
    else Str("")
  }

  /** The f-string rendering of `value or fallback`. */
  function OrText(value: Json, fallback: string): string {
    if Truthy(value) then PyStr(value) else fallback
  }

  function TerminationMessage(reason: TerminationReason, raw: RawResult): (m: string)
    ensures reason in {TaskCompleted, ErrorOccurred} ==> m == RawStr(raw)
  {
    var summary := SummaryOf(raw);
    match reason
    case TerminationActionCalled =>
      OrText(summary, "Task completed successfully.")
      + "\n\n\U{2139}\U{FE0F} Execution terminated automatically to prevent redundant actions."
    case UserConfirmationRequired =>
      OrText(summary, RawStr(raw)) + "\n\n\U{23F8}\U{FE0F} Paused for user confirmation. Reply '继续执行' to proceed."
    case InfiniteLoopDetected =>
      "\U{26A0}\U{FE0F} " + OrText(summary, "Detected repetitive tool calling pattern.")
      + "\n\n\U{2139}\U{FE0F} Execution stopped to prevent infinite loop. "
      + "Please provide clearer instructions or try a different approach."
    case ToolCallLimitReached =>
      "\U{26A0}\U{FE0F} " + OrText(summary, "Reached tool call limit.")
      + "\n\n\U{2139}\U{FE0F} Reply '继续执行' to continue with a new session."
    case _ => RawStr(raw)
  }

  /**
   * A result with no usable summary (not a JSON-object string, or one
   * without non-empty summary and instruction) gets each reason's default
   * text; a confirmation then repeats the raw result itself.
   */
  lemma TerminationMessageWithoutSummary(reason: TerminationReason, raw: RawResult)
    requires !Truthy(SummaryOf(raw))
    ensures reason == TerminationActionCalled ==> IsPrefix("Task completed successfully.", TerminationMessage(reason, raw))
    ensures reason == UserConfirmationRequired ==> IsPrefix(RawStr(raw), TerminationMessage(reason, raw))
  {
    var m := TerminationMessage(reason, raw);
    if reason == TerminationActionCalled {
      assert m[..|"Task completed successfully."|] == "Task completed successfully.";
    }
    if reason == UserConfirmationRequired {
      assert m[..|RawStr(raw)|] == RawStr(raw);
    }
  }

  /** A JSON-object string's non-empty summary leads the message when there is no instruction. */
  lemma TerminationMessageUsesSummary(raw: RawResult, summary: string)
    requires raw.RawText? && raw.parsed.Some? && raw.parsed.value.Obj?
    requires Get(raw.parsed.value.entries, "summary") == Some(Str(summary)) && summary != ""
    requires !HasKey(raw.parsed.value.entries, "instruction")
    ensures IsPrefix(summary, TerminationMessage(TerminationActionCalled, raw))
    ensures IsPrefix(summary, TerminationMessage(UserConfirmationRequired, raw))
  {
    assert SummaryOf(raw) == Str(summary);
    var m1 := TerminationMessage(TerminationActionCalled, raw);
    var m2 := TerminationMessage(UserConfirmationRequired, raw);
    assert m1[..|summary|] == summary;
    assert m2[..|summary|] == summary;
  }

  /** A stop on the loop guard or the call limit leads with a warning sign. */
  lemma WarningLeads(reason: TerminationReason, raw: RawResult)
    ensures reason == InfiniteLoopDetected || reason == ToolCallLimitReached ==>
              IsPrefix("\U{26A0}\U{FE0F} ", TerminationMessage(reason, raw))
  {
    var m := TerminationMessage(reason, raw);
    if reason == InfiniteLoopDetected || reason == ToolCallLimitReached {
      assert m[..3] == "\U{26A0}\U{FE0F} ";
    }
  }

  // ---------------------------------------------------------------------
  // The mutable objects

  class LoopState {
    var turnCount: int
    var toolsCalled: seq<string>
    var signatures: seq<Signature>
    var lastSignature: Signature
    var consecutive: int

    function Snapshot(): LoopSnapshot
      reads this
    {
      LoopSnapshot(turnCount, toolsCalled, signatures, lastSignature, consecutive)
    }

    constructor ()
      ensures Snapshot() == InitialLoop
    {
      turnCount := 0;
      toolsCalled := [];
      signatures := [];
      lastSignature := NoSignature;
      consecutive := 0;
    }

    method RecordToolCall(tool: string, args: Dict)
      modifies this
      ensures Snapshot() == RecordCall(old(Snapshot()), tool, args)
    {
      var sig := SignatureOf(tool, args);
      if sig == lastSignature {
        consecutive := consecutive + 1;
      } else {
        consecutive := 0;
      }
      lastSignature := sig;
      signatures := signatures + [sig];
      toolsCalled := toolsCalled + [tool];
    }
  }

  class ControlLayer {
    const config: Config
    const state: LoopState

    /** `ControlLayer(config)`: a missing config means the default tables. */
    constructor (config: Option<Config>)
      ensures this.config == config.GetOr(DefaultConfig)
      ensures fresh(state) && state.Snapshot() == InitialLoop
    {
      this.config := config.GetOr(DefaultConfig);
      state := new LoopState();
    }

    method RecordToolCall(tool: string, args: Dict)
      modifies state
      ensures state.Snapshot() == ControlRecord(old(state.Snapshot()), tool, args)
    {
      state.RecordToolCall(tool, args);
      state.turnCount := state.turnCount + 1;
    }

    /**
     * `should_terminate_after_tool`: the checks read the live counters, so
     * a successful termination action stops, a confirmation tool always
     * stops, and the two limits stop only once reached.
     */
    function ShouldTerminateAfterTool(tool: string, raw: RawResult): (r: Decision)
      reads state
      ensures r.terminate <==> r.reason.Some?
      ensures r.reason == Some(TerminationActionCalled) <==> tool in config.terminationActions && IsSuccessfulResult(raw)
      ensures tool in config.confirmationRequiredActions ==> r.terminate
      ensures r.reason == Some(InfiniteLoopDetected) ==> state.consecutive >= config.maxSameToolCalls
      ensures r.reason == Some(ToolCallLimitReached) ==> |state.toolsCalled| >= config.maxToolCallsTotal
      ensures !r.terminate <==>
                !(tool in config.terminationActions && IsSuccessfulResult(raw)) && tool !in config.confirmationRequiredActions
                && state.consecutive < config.maxSameToolCalls && |state.toolsCalled| < config.maxToolCallsTotal
    {
      DecidePriority(config, state.consecutive, |state.toolsCalled|, tool, raw);
      Decide(config, state.consecutive, |state.toolsCalled|, tool, raw)
    }

    /**
     * `get_termination_message`: a completed task or an error repeats the raw
     * result; a loop or limit stop is flagged with a warning sign; a result
     * without a usable summary falls back to each reason's default text.
     */
    function GetTerminationMessage(reason: TerminationReason, raw: RawResult): (m: string)
      ensures reason == TaskCompleted || reason == ErrorOccurred ==> m == RawStr(raw)
      ensures reason == InfiniteLoopDetected || reason == ToolCallLimitReached ==> IsPrefix("\U{26A0}\U{FE0F} ", m)
      ensures !Truthy(SummaryOf(raw)) && reason == TerminationActionCalled ==> IsPrefix("Task completed successfully.", m)
      ensures !Truthy(SummaryOf(raw)) && reason == UserConfirmationRequired ==> IsPrefix(RawStr(raw), m)
    {
      WarningLeads(reason, raw);
      if Truthy(SummaryOf(raw)) then TerminationMessage(reason, raw)
      else TerminationMessageWithoutSummary(reason, raw); TerminationMessage(reason, raw)
    }
  }
}
