/**
 * The laser controller of the cloud MCP server (servers_cloud/laser.py): a
 * long-lived object holding whether the laser is on and its power in mW.
 */
module CloudLaser {
  import opened Wrappers
  import opened Strings

  /** The controller's fields as a value. */
  datatype Laser = Laser(isOn: bool, power: int)

  const Initial := Laser(false, 0)

  const OnReply := "【硬件反馈】激光器已开启，预热中..."
  const OffReply := "【硬件反馈】激光器已关闭"
  const NeedsValueReply := "【硬件反馈】set_power 指令需要 value 参数"
  const InvalidReply := "【硬件反馈】指令无效"

  function PowerReply(value: int): string {
    "【硬件反馈】功率已调节至 " + IntToString(value) + " mW"
  }

  function StatusReply(s: Laser): string {
    "【硬件反馈】激光器状态: " + (if s.isOn then "开启" else "关闭") + ", 功率: " + IntToString(s.power) + " mW"
  }

  /** `execute_command(command, value)`: the new fields and the reply. */
  function Execute(s: Laser, command: string, value: Option<int>): (r: (Laser, string))
    ensures command != "set_power" ==> r.0.power == s.power
    ensures command != "on" && command != "off" ==> r.0.isOn == s.isOn
    ensures command != "on" && command != "off" && command != "set_power" && command != "status" ==> r == (s, InvalidReply)
  {
    if command == "on" then (s.(isOn := true), OnReply)
    else if command == "off" then (s.(isOn := false), OffReply)
    else if command == "set_power" then
      if value.Some? then (s.(power := value.value), PowerReply(value.value)) else (s, NeedsValueReply)
    else if command == "status" then (s, StatusReply(s))
    else (s, InvalidReply)
  }

  /** "on" and "off" switch the laser and leave the power alone. */
  lemma SwitchKeepsPower(s: Laser, command: string, value: Option<int>)
    requires command == "on" || command == "off"
    ensures Execute(s, command, value).0 == Laser(command == "on", s.power)
  {
  }

  /** "set_power" with a value sets exactly the power; without one it changes nothing. */
  lemma SetPowerSetsPower(s: Laser, value: Option<int>)
    ensures value.Some? ==> Execute(s, "set_power", value) == (Laser(s.isOn, value.value), PowerReply(value.value))
    ensures value.None? ==> Execute(s, "set_power", value) == (s, NeedsValueReply)
  {
  }

  /** Only "on", "off" and "set_power" can change the fields. */
  lemma OtherCommandsChangeNothing(s: Laser, command: string, value: Option<int>)
    requires command != "on" && command != "off" && command != "set_power"
    ensures Execute(s, command, value).0 == s
    ensures command == "status" ==> Execute(s, command, value).1 == StatusReply(s)
    ensures command != "status" ==> Execute(s, command, value).1 == InvalidReply
  {
  }

  /** The status reply tells the state apart: it determines both fields. */
  lemma {:induction false} StatusReplyInjective(s: Laser, t: Laser)
    requires StatusReply(s) == StatusReply(t)
    ensures s == t
  {
    var prefix := "【硬件反馈】激光器状态: ";
    var a := prefix + (if s.isOn then "开启" else "关闭") + ", 功率: ";
    var b := prefix + (if t.isOn then "开启" else "关闭") + ", 功率: ";
    assert |a| == |b|;
    assert StatusReply(s)[..|a|] == a;
    assert StatusReply(t)[..|b|] == b;
    assert a[|prefix|] == (if s.isOn then '开' else '关');
    assert b[|prefix|] == (if t.isOn then '开' else '关');
    assert s.isOn == t.isOn;
    var ps, pt := IntToString(s.power), IntToString(t.power);
    assert StatusReply(s) == a + ps + " mW";
    assert StatusReply(t) == a + pt + " mW";
    assert ps == StatusReply(s)[|a|..|StatusReply(s)| - 3];
    assert pt == StatusReply(t)[|a|..|StatusReply(t)| - 3];
    IntToStringInjective(s.power, t.power);
  }

  class LaserController {
    var isOn: bool
    var powerLevel: int

    function State(): Laser
      reads this
    {
      Laser(isOn, powerLevel)
    }

    constructor ()
      ensures State() == Initial
    {
      isOn := false;
      powerLevel := 0;
    }

    /** `execute_command`: updates the fields and returns the reply. */
    method ExecuteCommand(command: string, value: Option<int>) returns (reply: string)
      modifies this
      ensures State() == Execute(old(State()), command, value).0
      ensures reply == Execute(old(State()), command, value).1
    {
      if command == "on" {
        isOn := true;
        return OnReply;
      } else if command == "off" {
        isOn := false;
        return OffReply;
      } else if command == "set_power" {
        if value.Some? {
          powerLevel := value.value;
          return PowerReply(value.value);
        }
        return NeedsValueReply;
      } else if command == "status" {
        return StatusReply(State());
      }
      return InvalidReply;
    }
  }
}
