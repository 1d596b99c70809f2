/**
 * The argument guards the local control server applies before any mouse,
 * keyboard or process side effect (servers_local/control.py). The screen size
 * that `pyautogui.size()` reports is a parameter; the side effects themselves
 * are not modelled.
 */
module ControlGuards {
  import opened Wrappers
  import opened Strings

  /** A guard either lets the action proceed or returns the rejection text. */
  datatype Guard = Proceed | Rejected(message: string)

  predicate OnScreen(x: int, y: int, width: int, height: int) {
    0 <= x < width && 0 <= y < height
  }

  const MouseButtons: seq<string> := ["left", "right", "middle"]

  function OffScreenClick(x: int, y: int, width: int, height: int): string {
    "【错误】坐标超出屏幕范围。屏幕尺寸: " + IntToString(width) + "x" + IntToString(height)
    + "，请求坐标: (" + IntToString(x) + ", " + IntToString(y) + ")"
  }

  function BadButton(button: string): string {
    "【错误】无效的鼠标按钮: " + button + "。允许值: left, right, middle"
  }

  function BadClicks(clicks: int): string {
    "【错误】点击次数必须在1-3之间，当前: " + IntToString(clicks)
  }

  /** `click_at`: screen bounds first, then the button, then the click count. */
  function ClickGuard(x: int, y: int, button: string, clicks: int, width: int, height: int): (g: Guard)
    ensures g.Proceed? <==> OnScreen(x, y, width, height) && button in MouseButtons && 1 <= clicks <= 3
    ensures !OnScreen(x, y, width, height) ==> g == Rejected(OffScreenClick(x, y, width, height))
    ensures OnScreen(x, y, width, height) && button !in MouseButtons ==> g == Rejected(BadButton(button))
    ensures OnScreen(x, y, width, height) && button in MouseButtons && !(1 <= clicks <= 3) ==> g == Rejected(BadClicks(clicks))
  {
    if x < 0 || x >= width || y < 0 || y >= height then Rejected(OffScreenClick(x, y, width, height))
    else if button !in MouseButtons then Rejected(BadButton(button))
    else if clicks < 1 || clicks > 3 then Rejected(BadClicks(clicks))
    else Proceed
  }

  /** `move_mouse`: the same strict screen bounds, and nothing else. */
  function MoveGuard(x: int, y: int, width: int, height: int): (g: Guard)
    ensures g.Proceed? <==> OnScreen(x, y, width, height)
  {
    if x < 0 || x >= width || y < 0 || y >= height then
      Rejected("【错误】坐标超出屏幕范围。屏幕尺寸: " + IntToString(width) + "x" + IntToString(height))
    else Proceed
  }

  const MaxTextLength: nat := 1000

  const DangerousPatterns: seq<string> := ["rm -rf", "format", "del /", "shutdown", "reboot"]

  /** The first dangerous pattern the lower-cased text contains, checked in list order. */
  function FirstDangerous(lower: string, patterns: seq<string>): (r: Option<string>)
    ensures r.Some? ==> r.value in patterns && Contains(lower, r.value)
    ensures r.None? <==> forall p :: p in patterns ==> !Contains(lower, p)
  {
    if patterns == [] then None
    else if Contains(lower, patterns[0]) then Some(patterns[0])
    else FirstDangerous(lower, patterns[1..])
  }

  const Blocked: string := "【安全拦截】检测到潜在危险命令模式，已阻止输入"

  /** `type_string`: at most 1000 characters, and none of the dangerous patterns in any case. */
  function TypeGuard(text: string): (g: Guard)
    ensures g.Proceed? <==> |text| <= MaxTextLength && forall p :: p in DangerousPatterns ==> !Contains(Lower(text), p)
    ensures |text| <= MaxTextLength && !g.Proceed? ==> g == Rejected(Blocked)
  {
    if |text| > MaxTextLength then
      Rejected("【错误】文本过长，最大允许 " + NatToString(MaxTextLength) + " 字符，当前: " + NatToString(|text|))
    else if FirstDangerous(Lower(text), DangerousPatterns).Some? then Rejected(Blocked)
    else Proceed
  }

  /** A text of exactly the maximum length passes the length check. */
  lemma TypeLengthBoundary(text: string)
    requires |text| == MaxTextLength && forall p :: p in DangerousPatterns ==> !Contains(Lower(text), p)
    ensures TypeGuard(text).Proceed?
  {
  }

  predicate IsSuffix(p: string, s: string) {
    |p| <= |s| && s[|s| - |p|..] == p
  }

  /** The process name lower-cased, with ".exe" appended unless it is already there. */
  function NormalizeProcess(name: string): (r: string)
    ensures IsSuffix(".exe", r)
  {
    var lower := Lower(name);
    if IsSuffix(".exe", lower) then lower
    else
      assert (lower + ".exe")[|lower|..] == ".exe";
      lower + ".exe"
  }

  /** Lower-casing is idempotent. */
  lemma LowerIdempotent(s: string)
    ensures Lower(Lower(s)) == Lower(s)
  {
  }

  lemma LowerExe()
    ensures Lower(".exe") == ".exe"
  {
    var e := ".exe";
    assert forall i :: 0 <= i < 4 ==> LowerChar(e[i]) == e[i];
  }

  /** Normalising a normalised name changes nothing. */
  lemma NormalizeIdempotent(name: string)
    ensures NormalizeProcess(NormalizeProcess(name)) == NormalizeProcess(name)
  {
    var lower := Lower(name);
    LowerIdempotent(name);
    if !IsSuffix(".exe", lower) {
      LowerConcat(lower, ".exe");
      LowerExe();
    }
  }

  /** `ALLOWED_TO_KILL`, which is already lower case. */
  const AllowedToKill: seq<string> := ["notepad.exe", "calc.exe", "mspaint.exe", "python.exe", "pythonw.exe", "cmd.exe", "powershell.exe"]

  /** `kill_process`: only a name that normalises to one of the seven allowed processes passes. */
  function KillGuard(name: string): (g: Guard)
    ensures g.Proceed? <==> NormalizeProcess(name) in AllowedToKill
  {
    if NormalizeProcess(name) !in AllowedToKill then
      Rejected("【安全拦截】不允许终止进程: " + name
               + "。允许终止的进程: notepad.exe, calc.exe, mspaint.exe, python.exe, pythonw.exe, cmd.exe, powershell.exe")
    else Proceed
  }

  /** Normalisation ignores letter case. */
  lemma NormalizeCaseInsensitive(name: string)
    ensures NormalizeProcess(Lower(name)) == NormalizeProcess(name)
  {
    LowerIdempotent(name);
  }

  /** The kill guard ignores letter case. */
  lemma KillCaseInsensitive(name: string)
    ensures KillGuard(Lower(name)).Proceed? <==> KillGuard(name).Proceed?
  {
    NormalizeCaseInsensitive(name);
  }

  /** Normalisation of a name without ".exe" is that of the name with it. */
  lemma NormalizeSuffixOptional(name: string)
    requires !IsSuffix(".exe", Lower(name))
    ensures NormalizeProcess(name + ".exe") == NormalizeProcess(name)
  {
    LowerConcat(name, ".exe");
    LowerExe();
    var lower := Lower(name) + ".exe";
    assert lower[|lower| - 4..] == ".exe";
  }

  /** A name without its ".exe" is judged as the name with it. */
  lemma KillSuffixOptional(name: string)
    requires !IsSuffix(".exe", Lower(name))
    ensures KillGuard(name + ".exe").Proceed? <==> KillGuard(name).Proceed?
  {
    NormalizeSuffixOptional(name);
  }

  /** `APP_LAUNCHERS` keys. */
  const AppLaunchers: set<string> := {"notepad", "calc", "mspaint", "explorer"}

  /** `open_app`: the launcher key, when the lower-cased, stripped name is one. */
  function OpenAppGuard(name: string): (g: Guard)
    ensures g.Proceed? <==> Strip(Lower(name)) in AppLaunchers
  {
    if Strip(Lower(name)) !in AppLaunchers then
      Rejected("【错误】不支持的应用: " + name + "。可用应用: notepad(记事本), calc(计算器), mspaint(画图), explorer(文件资源管理器)")
    else Proceed
  }
}
