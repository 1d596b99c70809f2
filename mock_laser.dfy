/**
 * The mock laser tool (app/tools/mock_laser_control.py): a stateless
 * reply for each command. Params are a dict, or a JSON string whose
 * `json.loads` outcome is given with it.
 */
module MockLaser {
  import opened Wrappers
  import opened Json

  const OnReply := "【硬件反馈】激光器已开启，预热中..."
  const OffReply := "【硬件反馈】激光器已关闭"

  function PowerReply(value: Json): string {
    "【硬件反馈】功率已调节至 " + PyStr(value) + " mW"
  }

  function InvalidReply(command: Json): string {
    "【硬件反馈】指令无效: " + PyStr(command)
  }

  /** The ValueError `parse_params` raises for text that does not parse. */
  function InvalidJson(text: string): string {
    "Invalid JSON format in parameters: " + text
  }

  function FormatError(error: string): string {
    "参数格式错误: " + error
  }

  /**
   * `parse_params`: a dict is used as it is, a string is parsed and a string
   * that does not parse raises ValueError; `json.loads` raises TypeError on
   * any other value.
   */
  function ParseParams(params: RawResult): (r: Result<Json>)
    ensures params.RawDict? ==> r == Ok(Obj(params.entries))
    ensures params.RawText? ==> (r.Ok? <==> params.parsed.Some?)
    ensures params.RawText? && params.parsed.Some? ==> r.value == params.parsed.value
    ensures params.RawText? && params.parsed.None? ==> r.error == InvalidJson(params.text)
    ensures params.RawNone? || params.RawValue? ==> r.Raised?
  {
    match params
    case RawDict(d) => Ok(Obj(d))
    case RawText(t, parsed) =>
      if parsed.Some? then Ok(parsed.value) else Raised(InvalidJson(t))
    case RawNone => Raised("the JSON object must be str, bytes or bytearray, not NoneType")
    case RawValue(v) => Raised("the JSON object must be str, bytes or bytearray, not " + TypeName(v))
  }

  /**
   * `MockLaserControl.call`: the ValueError of unparseable text becomes a
   * reply; parsed params that are not a dict make `.get` raise.
   */
  function Call(params: RawResult): (r: Result<string>)
    ensures params.RawText? && params.parsed.None? ==> r == Ok(FormatError(InvalidJson(params.text)))
    ensures params.RawDict? ==> r.Ok?
  {
    match ParseParams(params)
    case Raised(e) =>
      if params.RawText? then Ok(FormatError(e)) else Raised(e)
    case Ok(args) =>
      if !args.Obj? then Raised(NoGet(args))
      else
        var command := GetOr(args.entries, "command", Null);
        if command == Str("on") then Ok(OnReply)
        else if command == Str("off") then Ok(OffReply)
        else if command == Str("set_power") then Ok(PowerReply(GetOr(args.entries, "value", Num(0))))
        else Ok(InvalidReply(command))
  }

  /**
   * The dispatch on the command: "on" and "off" get their fixed replies,
   * "set_power" reports the value (0 when absent), and any other command,
   * a missing one included, is named in the invalid reply.
   */
  lemma CommandReplies(d: Dict)
    ensures GetOr(d, "command", Null) == Str("on") ==> Call(RawDict(d)) == Ok(OnReply)
    ensures GetOr(d, "command", Null) == Str("off") ==> Call(RawDict(d)) == Ok(OffReply)
    ensures GetOr(d, "command", Null) == Str("set_power") ==>
              Call(RawDict(d)) == Ok(PowerReply(GetOr(d, "value", Num(0))))
    ensures !(GetOr(d, "command", Null) in {Str("on"), Str("off"), Str("set_power")}) ==>
              Call(RawDict(d)) == Ok(InvalidReply(GetOr(d, "command", Null)))
  {
  }

  /** "set_power" without a value reports 0 mW. */
  lemma SetPowerDefaultsToZero(d: Dict)
    requires Get(d, "command") == Some(Str("set_power")) && !HasKey(d, "value")
    ensures Call(RawDict(d)) == Ok("【硬件反馈】功率已调节至 0 mW")
  {
    assert Call(RawDict(d)) == Ok(PowerReply(Num(0)));
    PowerReplyZero();
  }

  lemma PowerReplyZero()
    ensures PowerReply(Num(0)) == "【硬件反馈】功率已调节至 0 mW"
  {
    assert PyStr(Num(0)) == "0";
  }

  /** A call without a command names None in the invalid reply. */
  lemma MissingCommandInvalid(d: Dict)
    requires !HasKey(d, "command")
    ensures Call(RawDict(d)) == Ok("【硬件反馈】指令无效: None")
  {
    assert InvalidReply(Null) == "【硬件反馈】指令无效: None";
  }

  /** A JSON string parses to the same reply as the dict it encodes. */
  lemma TextLikeDict(text: string, d: Dict)
    ensures Call(RawText(text, Some(Obj(d)))) == Call(RawDict(d))
  {
  }
}
