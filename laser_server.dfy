/**
 * The laser controller of the standard MCP server (servers/laser_server.py):
 * commands arrive as a params dict; the power is whatever value was given.
 */
module ServerLaser {
  import opened Wrappers
  import opened Json

  /** The controller's fields as a value; the power is stored as given. */
  datatype Laser = Laser(isOn: bool, power: Json)

  const Initial := Laser(false, Num(0))

  const OnReply := "【硬件反馈】激光器已开启，预热中..."
  const OffReply := "【硬件反馈】激光器已关闭"
  const InvalidReply := "【硬件反馈】指令无效"

  function PowerReply(value: Json): string {
    "【硬件反馈】功率已调节至 " + PyStr(value) + " mW"
  }

  /** `execute_command(params)`: the new fields and the reply; command defaults to "" and value to 0. */
  function Execute(s: Laser, params: Dict): (r: (Laser, string))
    ensures GetOr(params, "command", Str("")) != Str("set_power") ==> r.0.power == s.power
    ensures GetOr(params, "command", Str("")) != Str("on") && GetOr(params, "command", Str("")) != Str("off") ==>
              r.0.isOn == s.isOn
    ensures !(GetOr(params, "command", Str("")) in {Str("on"), Str("off"), Str("set_power")}) ==> r == (s, InvalidReply)
  {
    var command := GetOr(params, "command", Str(""));
    if command == Str("on") then (s.(isOn := true), OnReply)
    else if command == Str("off") then (s.(isOn := false), OffReply)
    else if command == Str("set_power") then
      var value := GetOr(params, "value", Num(0));
      (s.(power := value), PowerReply(value))
    else (s, InvalidReply)
  }

  /** The params `mock_laser_control(command, value)` passes: value only when it is not None. */
  function ToolParams(command: string, value: Option<int>): (d: Dict)
    ensures Get(d, "command") == Some(Str(command))
    ensures Get(d, "value") == if value.Some? then Some(Num(value.value)) else None
  {
    match value
    case Some(v) => [("command", Str(command)), ("value", Num(v))]
    case None => [("command", Str(command))]
  }

  /** "on" and "off" set and clear the on flag and keep the power. */
  lemma SwitchSetsFlag(s: Laser, command: string, value: Option<int>)
    requires command == "on" || command == "off"
    ensures Execute(s, ToolParams(command, value)).0 == Laser(command == "on", s.power)
  {
  }

  /** "set_power" stores the given value, or 0 when the tool was called without one. */
  lemma SetPowerStoresValue(s: Laser, value: Option<int>)
    ensures var (t, reply) := Execute(s, ToolParams("set_power", value));
            var p := if value.Some? then Num(value.value) else Num(0);
            t == Laser(s.isOn, p) && reply == PowerReply(p)
  {
  }

  /** Every other command, "status" included, changes nothing and is answered as invalid. */
  lemma OtherCommandsInvalid(s: Laser, command: string, value: Option<int>)
    requires command != "on" && command != "off" && command != "set_power"
    ensures Execute(s, ToolParams(command, value)) == (s, InvalidReply)
  {
  }

  class LaserController {
    var isOn: bool
    var powerLevel: Json

    function State(): Laser
      reads this
    {
      Laser(isOn, powerLevel)
    }

    constructor ()
      ensures State() == Initial
    {
      isOn := false;
      powerLevel := Num(0);
    }

    /** `execute_command`: updates the fields and returns the reply. */
    method ExecuteCommand(params: Dict) returns (reply: string)
      modifies this
      ensures State() == Execute(old(State()), params).0
      ensures reply == Execute(old(State()), params).1
    {
      var command := GetOr(params, "command", Str(""));
      if command == Str("on") {
        isOn := true;
        return OnReply;
      } else if command == Str("off") {
        isOn := false;
        return OffReply;
      } else if command == Str("set_power") {
        var value := GetOr(params, "value", Num(0));
        powerLevel := value;
        return PowerReply(value);
      }
      return InvalidReply;
    }
  }
}
