/**
 * The simple GUI factory: the platform name is lower-cased once, and each
 * `makeButton` call maps it to a button kind.
 */
module SimpleFactory {
  import opened Wrappers

  datatype ButtonKind = WindowsButton | LinuxButton

  /** `makeButton` falls off its switch and returns nothing where a ButtonInterface is declared. */
  datatype TypeError = NoButtonReturned

  /** `strtolower` on one character: ASCII upper-case letters only. */
  function LowerChar(c: char): char
  {
    if 'A' <= c <= 'Z' then (c as int + 32) as char else c
  }

  /** `strtolower`: every character lower-cased, nothing else changed. */
  function ToLower(s: string): (r: string)
    ensures |r| == |s|
    ensures forall i :: 0 <= i < |s| ==> r[i] == LowerChar(s[i])
  {
    if s == [] then [] else [LowerChar(s[0])] + ToLower(s[1..])
  }

  /** Lower-casing twice is lower-casing once. */
  lemma ToLowerIdempotent(s: string)
    ensures ToLower(ToLower(s)) == ToLower(s)
  {
  }

  datatype GuiFactory = GuiFactory(platform: string)

  /** The constructor: keeps the platform name lower-cased. */
  function NewGuiFactory(platform: string): (f: GuiFactory)
    ensures ToLower(f.platform) == f.platform
    ensures |f.platform| == |platform|
    ensures forall i :: 0 <= i < |platform| ==> f.platform[i] == LowerChar(platform[i])
  {
    ToLowerIdempotent(platform);
    GuiFactory(ToLower(platform))
  }

  /** `makeButton`: the stored platform name decides the kind. */
  function MakeButton(f: GuiFactory): (r: Result<ButtonKind, TypeError>)
    ensures r == Success(WindowsButton) <==> f.platform == "windows"
    ensures r == Success(LinuxButton) <==> f.platform == "linux"
    ensures r.Failure? <==> f.platform != "windows" && f.platform != "linux"
  {
    match f.platform
    case "windows" => Success(WindowsButton)
    case "linux" => Success(LinuxButton)
    case _ => Failure(NoButtonReturned)
  }

  /** Two platform names that agree up to ASCII case give the same result. */
  lemma MakeButtonIgnoresCase(p: string, q: string)
    requires |p| == |q|
    requires forall i :: 0 <= i < |p| ==> LowerChar(p[i]) == LowerChar(q[i])
    ensures MakeButton(NewGuiFactory(p)) == MakeButton(NewGuiFactory(q))
  {
  }

  /**
   * A platform name gives a Windows button exactly when it spells "windows" in
   * any mix of cases, and a Linux button exactly when it spells "linux".
   */
  lemma MakeButtonAccepts(p: string)
    ensures MakeButton(NewGuiFactory(p)) == Success(WindowsButton) <==>
      |p| == 7 && forall i :: 0 <= i < 7 ==> LowerChar(p[i]) == "windows"[i]
    ensures MakeButton(NewGuiFactory(p)) == Success(LinuxButton) <==>
      |p| == 5 && forall i :: 0 <= i < 5 ==> LowerChar(p[i]) == "linux"[i]
  {
  }

  /** The spellings "Windows", "WINDOWS" and "windows" all give a Windows button; "macos" fails. */
  lemma PlatformSpellings()
    ensures MakeButton(NewGuiFactory("Windows")) == Success(WindowsButton)
    ensures MakeButton(NewGuiFactory("WINDOWS")) == Success(WindowsButton)
    ensures MakeButton(NewGuiFactory("windows")) == Success(WindowsButton)
    ensures MakeButton(NewGuiFactory("Linux")) == Success(LinuxButton)
    ensures MakeButton(NewGuiFactory("macos")).Failure?
  {
    assert ToLower("Windows") == ToLower("WINDOWS") == "windows";
    assert ToLower("Linux") == "linux";
    assert ToLower("macos")[0] == 'm';
  }
}
