/** `VpnConnection`: quoting and escaping of the VPN parameters before they
    are handed to a shell, and the dispatch on the platform name. */
module Vpn {
  import opened Wrappers
  import opened PyStr

  /** The Python values a parameter list holds. */
  datatype PyValue = Str(s: string) | Int(i: int) | Bool(b: bool) | NoneValue

  /** `str(v)`. */
  function Stringify(v: PyValue): string
  {
    match v
    case Str(s) => s
    case Int(i) => IntToString(i)
    case Bool(b) => if b then "True" else "False"
    case NoneValue => "None"
  }

  /** The options after the `str` conversion loop of `attempt_windows_vpn`. */
  function Converted(vs: seq<PyValue>): seq<PyValue>
  {
    if vs == [] then [] else [Str(Stringify(vs[0]))] + Converted(vs[1..])
  }

  /** The conversion turns each value into the string `str` makes of it, in
      place and in order. */
  lemma {:induction false} ConvertedElements(vs: seq<PyValue>)
    ensures |Converted(vs)| == |vs|
    ensures forall i :: 0 <= i < |vs| ==> Converted(vs)[i] == Str(Stringify(vs[i]))
  {
    if vs != [] {
      ConvertedElements(vs[1..]);
      assert forall i :: 1 <= i < |vs| ==> Converted(vs)[i] == Converted(vs[1..])[i - 1];
    }
  }

  /** Converting already converted options changes nothing: a second Windows
      attempt hands the script the same options as the first. */
  lemma {:induction false} ConversionIdempotent(vs: seq<PyValue>)
    ensures Converted(Converted(vs)) == Converted(vs)
  {
    if vs != [] {
      ConversionIdempotent(vs[1..]);
      assert Converted(vs)[1..] == Converted(vs[1..]);
    }
  }

  /** Index 0 is Windows, whose PowerShell escapes with a backtick; every
      other index means a bash-like shell, which escapes with a backslash. */
  function EscapeChar(osIndex: int): (e: char)
    ensures e != '$' && e != '"'
    ensures e == '`' <==> osIndex == 0
    ensures e == '\\' <==> osIndex != 0
  {
    if osIndex == 0 then '`' else '\\'
  }

  /** One sanitized parameter: stringified, every `$` escaped, wrapped in
      double quotes. */
  function Sanitize(v: PyValue, osIndex: int): (r: string)
    ensures |r| >= 2 && r[0] == '"' && r[|r| - 1] == '"'
  {
    "\"" + EscapeDollars(Stringify(v), EscapeChar(osIndex)) + "\""
  }

  /** Nothing is lost: dropping the quotes and undoing the escape gives back
      `str(v)`. */
  lemma SanitizeRoundTrip(v: PyValue, osIndex: int)
    ensures var r := Sanitize(v, osIndex);
      UnescapeDollars(r[1..|r| - 1], EscapeChar(osIndex)) == Stringify(v)
  {
    var r := Sanitize(v, osIndex);
    assert r[1..|r| - 1] == EscapeDollars(Stringify(v), EscapeChar(osIndex));
    UnescapeEscape(Stringify(v), EscapeChar(osIndex));
  }

  /** Inside the quotes no `$` is left bare: each one follows the escape
      character the shell expects. */
  lemma SanitizeEscapesEveryDollar(v: PyValue, osIndex: int)
    ensures var r := Sanitize(v, osIndex);
      forall j :: 1 <= j < |r| - 1 && r[j] == '$' ==> j > 1 && r[j - 1] == EscapeChar(osIndex)
  {
    var e := EscapeChar(osIndex);
    var body := EscapeDollars(Stringify(v), e);
    var r := Sanitize(v, osIndex);
    EscapedDollarIsPreceded(Stringify(v), e);
    forall j | 1 <= j < |r| - 1 && r[j] == '$'
      ensures j > 1 && r[j - 1] == e
    {
      assert r[j] == body[j - 1];
    }
  }

  /** A `$` in a password comes out differently for the two shells. */
  lemma SanitizeBothShells()
    ensures Sanitize(Str("pa$s"), 0) == "\"pa`$s\""
    ensures Sanitize(Str("pa$s"), 3) == "\"pa\\$s\""
  {
    assert EscapeDollars("s", '`') == "s";
    assert EscapeDollars("$s", '`') == "`$s";
    assert EscapeDollars("a$s", '`') == "a`$s";
    assert EscapeDollars("s", '\\') == "s";
    assert EscapeDollars("$s", '\\') == "\\$s";
    assert EscapeDollars("a$s", '\\') == "a\\$s";
  }

  /** The index `attempt_vpn` records for a `sys.platform` value, or None
      for an unknown platform. */
  function PlatformIndex(platform: string): Option<int>
  {
    if platform == "win32" then Some(0)
    else if platform == "darwin" then Some(1)
    else if "linux" <= platform then Some(2)
    else None
  }

  /** Each known platform gets its own index, and every platform whose name
      starts with `linux` counts as Linux. */
  lemma PlatformIndexIff(platform: string)
    ensures PlatformIndex(platform) == Some(0) <==> platform == "win32"
    ensures PlatformIndex(platform) == Some(1) <==> platform == "darwin"
    ensures PlatformIndex(platform) == Some(2) <==> "linux" <= platform
    ensures PlatformIndex(platform).None? <==>
      platform != "win32" && platform != "darwin" && !("linux" <= platform)
  {
    if "linux" <= platform {
      assert platform[0] == 'l';
    }
  }

  /** The exit code `attempt_vpn` returns for an unknown platform. */
  const UnknownPlatformExit := 255

  class VpnConnection {
    /** The required parameters (name, address, pre-shared key, user name,
        password), as a list the object shares with its caller. */
    var vpnData: array<PyValue>
    /** The platform specific options, shared with the caller as well. */
    var vpnOptions: array<PyValue>
    var vpnName: string
    var vpnUuid: string
    /** 0 Windows, 1 macOS, 2 Linux, 3 unknown. */
    var osIndex: int

    /** Construction sanitizes the data while the platform is still unknown,
        so the data is always escaped for a bash-like shell. */
    constructor(vpnData: array<PyValue>, vpnOptions: array<PyValue>)
      modifies vpnData
      ensures this.vpnData == vpnData && this.vpnOptions == vpnOptions
      ensures vpnName == "" && vpnUuid == "" && osIndex == 3
      ensures forall i :: 0 <= i < vpnData.Length ==>
        vpnData[i] == Str("\"" + EscapeDollars(Stringify(old(vpnData[i])), '\\') + "\"")
    {
      this.vpnData := vpnData;
      this.vpnOptions := vpnOptions;
      vpnName := "";
      vpnUuid := "";
      osIndex := 3;
      new;
      SanitizeVariables();
    }

    /** `sanitize_variables()`: rewrites every data element in place. The
        options change only when the caller passed the same list twice. */
    method SanitizeVariables()
      modifies vpnData
      ensures forall i :: 0 <= i < vpnData.Length ==> vpnData[i] == Str(Sanitize(old(vpnData[i]), osIndex))
      ensures vpnOptions != vpnData ==> vpnOptions[..] == old(vpnOptions[..])
    {
      for i := 0 to vpnData.Length
        invariant forall j :: 0 <= j < i ==> vpnData[j] == Str(Sanitize(old(vpnData[j]), osIndex))
        invariant forall j :: i <= j < vpnData.Length ==> vpnData[j] == old(vpnData[j])
      {
        vpnData[i] := Str(Stringify(vpnData[i]));
        var escChar: char;
        if osIndex == 0 {
          escChar := '`';
        } else {
          escChar := '\\';
        }
        vpnData[i] := Str(Replace(Stringify(vpnData[i]), "$", [escChar, '$']));
        vpnData[i] := Str("\"" + Stringify(vpnData[i]) + "\"");
      }
    }

    /** The conversion loop of `attempt_windows_vpn()`; `scriptStatus` stands
        for the exit status of the PowerShell script it then launches. */
    method AttemptWindowsVpn(scriptStatus: int) returns (exitCode: int)
      modifies vpnOptions
      ensures exitCode == scriptStatus
      ensures vpnOptions[..] == Converted(old(vpnOptions[..]))
      ensures vpnData != vpnOptions ==> vpnData[..] == old(vpnData[..])
    {
      for i := 0 to vpnOptions.Length
        invariant forall j :: 0 <= j < i ==> vpnOptions[j] == Str(Stringify(old(vpnOptions[j])))
        invariant forall j :: i <= j < vpnOptions.Length ==> vpnOptions[j] == old(vpnOptions[j])
      {
        vpnOptions[i] := Str(Stringify(vpnOptions[i]));
      }
      ConvertedElements(old(vpnOptions[..]));
      exitCode := scriptStatus;
    }

    /** `attempt_vpn()` for the platform name `platform`; `scriptStatus` is
        what the platform's connect script returns. */
    method AttemptVpn(platform: string, scriptStatus: int) returns (exitCode: int)
      modifies this, vpnOptions
      ensures vpnData == old(vpnData) && vpnOptions == old(vpnOptions)
      ensures vpnName == old(vpnName) && vpnUuid == old(vpnUuid)
      ensures PlatformIndex(platform).Some? ==>
        osIndex == PlatformIndex(platform).value && exitCode == scriptStatus
      ensures PlatformIndex(platform).None? ==>
        osIndex == old(osIndex) && exitCode == UnknownPlatformExit
      ensures platform == "win32" ==> vpnOptions[..] == Converted(old(vpnOptions[..]))
      ensures platform != "win32" ==> vpnOptions[..] == old(vpnOptions[..])
      ensures vpnData[..] == old(vpnData[..]) || (platform == "win32" && vpnData == vpnOptions)
    {
      if platform == "win32" {
        osIndex := 0;
        exitCode := AttemptWindowsVpn(scriptStatus);
      } else if platform == "darwin" {
        osIndex := 1;
        exitCode := scriptStatus;
      } else if "linux" <= platform {
        osIndex := 2;
        exitCode := scriptStatus;
      } else {
        exitCode := UnknownPlatformExit;
      }
    }
  }
}
