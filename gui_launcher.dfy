/**
 * The windowed launcher's PEP 397 engine, an older and smaller variant of
 * the console one: two virtual path prefixes and no aliases in
 * `parse_shebang`, defaults from `PY_DEFAULT_PYTHON[<major>]` only, and a
 * version qualifier recognised by its length.
 */
module GuiLauncher {
  import opened Wrappers
  import opened Wide
  import opened Encoding
  import opened Config
  import opened Catalog
  import opened Launch
  import opened CliShebang
  import opened CliLauncher

  // ---------------------------------------------------------------- parse_shebang

  const EnvPath: WString := UsrBinEnv
  const BinPath: WString := UsrBin

  /** virtual_paths, in the order they are tried. */
  const VirtualPaths: seq<WString> := [EnvPath, BinPath]

  /** The first virtual path, from the `i`-th on, that `text` starts with. */
  function FirstVirtualPath(text: WString, i: nat): (r: Option<nat>)
    requires i <= |VirtualPaths|
    ensures r.Some? ==> i <= r.value < |VirtualPaths| && StartsWith(text, VirtualPaths[r.value])
    ensures r.Some? ==> forall j | i <= j < r.value :: !StartsWith(text, VirtualPaths[j])
    ensures r.None? <==> forall j | i <= j < |VirtualPaths| :: !StartsWith(text, VirtualPaths[j])
    decreases |VirtualPaths| - i
  {
    if i == |VirtualPaths| then None
    else if StartsWith(text, VirtualPaths[i]) then Some(i)
    else FirstVirtualPath(text, i + 1)
  }

  /**
   * What the windowed `parse_shebang` reports: whether the command is
   * virtual, where the command starts in the line, and the line buffer as
   * it leaves it.
   */
  datatype GuiParsed = GuiParsed(isVirtual: bool, command: Option<nat>, line: WString)

  /**
   * `parse_shebang` of the windowed launcher: after `#!` and white space, a
   * text starting with a virtual path is virtual and its command follows
   * the path; any other text is the command itself; trailing white space
   * is cut off.
   */
  function GuiParseShebangSpec(line: WString): (p: GuiParsed)
    requires Terminated(line)
    ensures |p.line| == |line| && Terminated(p.line)
    ensures p.command.None? ==> !p.isVirtual && p.line == line
    ensures p.command.Some? ==> 2 <= p.command.value < |line|
  {
    if line[0] != '#' as int || line[1] != '!' as int then GuiParsed(false, None, line)
    else
      var s := SkipWs(line, 2);
      if line[s] == Nul then GuiParsed(false, None, line)
      else
        var path := FirstVirtualPath(CStrAt(line, s), 0);
        var command := if path.Some? then s + |VirtualPaths[path.value]| else s;
        GuiParsed(path.Some?, Some(command), TrimEnd(line, s, |line| - 2))
  }

  /** `parse_shebang` on the line buffer, which it trims in place. */
  method GuiParseShebang(line: array<WChar>, nchars: nat) returns (isVirtual: bool, command: Option<nat>)
    requires nchars + 1 == line.Length && line[nchars] == Nul
    modifies line
    ensures var p := GuiParseShebangSpec(old(line[..]));
      isVirtual == p.isVirtual && command == p.command && line[..] == p.line
  {
    isVirtual, command := false, None;
    if line[0] != '#' as int || line[1] != '!' as int {
      return;
    }
    var s := SkipWhitespace(line[..], 2);
    if line[s] == Nul {
      return;
    }
    command := Some(s);
    var text := CStrAt(line[..], s);
    var i := 0;
    while i < |VirtualPaths|
      invariant 0 <= i <= |VirtualPaths|
      invariant FirstVirtualPath(text, i) == FirstVirtualPath(text, 0)
    {
      if StartsWith(text, VirtualPaths[i]) {
        isVirtual := true;
        command := Some(s + |VirtualPaths[i]|);
        break;
      }
      i := i + 1;
    }
    TrimTrailing(line, s, nchars - 1);
  }

  /**
   * A line is virtual exactly when it starts with `#!` and the text after
   * the white space that follows starts with a virtual path; the command
   * then starts right after that path, inside the text.
   */
  lemma GuiVirtualIff(line: WString)
    requires Terminated(line)
    ensures GuiParseShebangSpec(line).isVirtual <==>
      |line| > 2 && line[0] == '#' as int && line[1] == '!' as int &&
      exists j | 0 <= j < |VirtualPaths| :: StartsWith(CStrAt(line, SkipWs(line, 2)), VirtualPaths[j])
    ensures var p := GuiParseShebangSpec(line);
      p.isVirtual ==> var s := SkipWs(line, 2);
        s < p.command.value <= s + |CStrAt(line, s)|
  {
    var p := GuiParseShebangSpec(line);
    if |line| > 2 && line[0] == '#' as int && line[1] == '!' as int {
      var s := SkipWs(line, 2);
      var text := CStrAt(line, s);
      if exists j | 0 <= j < |VirtualPaths| :: StartsWith(text, VirtualPaths[j]) {
        assert line[s] != Nul by {
          var j :| 0 <= j < |VirtualPaths| && StartsWith(text, VirtualPaths[j]);
          assert text[0] == VirtualPaths[j][0];
        }
      }
    }
  }

  // ---------------------------------------------------------------- locate_python

  /** "PY_DEFAULT_PYTHON", the name `env_key` holds before its last unit. */
  const DefaultVariable: WString :=
    ['P' as int, 'Y' as int, '_' as int, 'D' as int, 'E' as int, 'F' as int, 'A' as int, 'U' as int, 'L' as int,
     'T' as int, '_' as int, 'P' as int, 'Y' as int, 'T' as int, 'H' as int, 'O' as int, 'N' as int]

  /** The overall default: `PY_DEFAULT_PYTHON`, then "2", then "3". */
  function GuiLocatePythonSpec(cat: seq<Installed>, env: Environment, wanted: WString): (r: Option<nat>)
    ensures r.Some? ==> r.value < |cat|
  {
    var w := if |wanted| == 1 then GetEnv(env, DefaultVariable + [wanted[0]]).GetOr(wanted) else wanted;
    if |w| > 0 then FirstAgreeing(cat, w, 0)
    else DefaultPython(cat, GetEnv(env, DefaultVariable))
  }

  /**
   * The state the windowed `locate_python` keeps between calls: the static
   * `env_key` buffer "PY_DEFAULT_PYTHONX" whose last unit each call
   * overwrites.
   */
  class EnvKeyLocator {
    const envKey: array<WChar>

    ghost predicate Valid()
      reads this, envKey
    {
      envKey.Length == 19 && envKey[..17] == DefaultVariable && envKey[18] == Nul
    }

    constructor ()
      ensures Valid() && envKey[17] == 'X' as int && fresh(envKey)
    {
      envKey := new WChar[19](i requires 0 <= i < 19 =>
        if i < 17 then DefaultVariable[i] else if i == 17 then 'X' as int else Nul);
      new;
      assert envKey[..17] == DefaultVariable;
    }

    /** The variable name the buffer holds, read as a C string. */
    function Key(): (k: WString)
      requires Valid()
      reads this, envKey
      ensures envKey[17] == Nul ==> k == DefaultVariable
      ensures envKey[17] != Nul ==> k == DefaultVariable + [envKey[17]]
    {
      var buf := envKey[..];
      if buf[17] == Nul then
        CStrAtIs(buf, 0, 17);
        assert buf[0..17] == DefaultVariable;
        CStrAt(buf, 0)
      else
        CStrAtIs(buf, 0, 18);
        assert buf[0..18] == DefaultVariable + [buf[17]];
        CStrAt(buf, 0)
    }

    /**
     * The windowed `locate_python`: the catalog entry chosen for `wanted`,
     * the key's last unit left as the major version asked for, as NUL after
     * a search for the overall default, and untouched otherwise.
     */
    method LocatePython(cat: seq<Installed>, env: Environment, wanted: WString) returns (r: Option<nat>)
      requires Valid() && NoNul(wanted)
      modifies envKey
      ensures Valid() && r == GuiLocatePythonSpec(cat, env, wanted)
      ensures envKey[17] == if |wanted| == 1 then wanted[0] else if |wanted| == 0 then Nul else old(envKey[17])
    {
      var w := wanted;
      if |wanted| == 1 {
        envKey[17] := wanted[0];
        assert envKey[..17] == old(envKey[..17]);
        var value := GetEnv(env, Key());
        if value.Some? {
          w := value.value;
        }
      }
      if |w| > 0 {
        r := FindPythonByVersion(cat, w);
      } else {
        envKey[17] := Nul;
        assert envKey[..17] == old(envKey[..17]);
        var value := GetEnv(env, Key());
        r := None;
        if value.Some? {
          r := FindPythonByVersion(cat, value.value);
        }
        if r.None? {
          r := FindPythonByVersion(cat, Two);
        }
        if r.None? {
          r := FindPythonByVersion(cat, Three);
        }
      }
    }
  }

  /**
   * A one-unit tag is replaced by a non-blank `PY_DEFAULT_PYTHON<major>`;
   * no configuration file is read.
   */
  lemma GuiLocateMajorVersion(cat: seq<Installed>, env: Environment, major: WChar)
    ensures var value := GetEnv(env, DefaultVariable + [major]);
      GuiLocatePythonSpec(cat, env, [major]) ==
        if value.Some? then FirstAgreeing(cat, value.value, 0) else FirstAgreeing(cat, [major], 0)
  {
  }

  /**
   * With no tag and no usable `PY_DEFAULT_PYTHON`, the windowed launcher
   * too prefers a 2.x to a higher 3.x.
   */
  lemma GuiLocateDefaultPrefersTwo(cat: seq<Installed>, env: Environment, two: nat)
    requires GetEnv(env, DefaultVariable).None?
    requires two < |cat| && Agrees(cat[two].version, Two)
    ensures var r := GuiLocatePythonSpec(cat, env, []);
      r.Some? && Agrees(cat[r.value].version, Two) && r.value <= two
  {
  }

  /** A `PY_DEFAULT_PYTHON` holding only white space counts as unset. */
  lemma GuiBlankDefaultIsIgnored(cat: seq<Installed>, env: Environment)
    requires Fold(DefaultVariable) in env && Blank(CStrAt(env[Fold(DefaultVariable)], 0))
    ensures GuiLocatePythonSpec(cat, env, []) == DefaultPython(cat, None)
  {
  }

  // ---------------------------------------------------------------- maybe_handle_shebang

  /**
   * The windowed dispatch of the line buffer: a command that is not
   * virtual runs without a suffix; a virtual one is split at its first
   * space, must start with "python", and names the version wanted.
   */
  function GuiDispatchLine(cat: seq<Installed>, env: Environment, line: WString, cmdline: WString)
    : (o: Option<Outcome>)
    requires Terminated(line)
  {
    var p := GuiParseShebangSpec(line);
    match p.command
    case None => None
    case Some(at) =>
      if !p.isVirtual then Some(Spawn(ChildCommand(CStrAt(p.line, at), None, cmdline), false))
      else
        var split := SplitCommand(p.line, at);
        Some(GuiRunVirtual(cat, env, split.0, split.1, cmdline))
  }

  /** A virtual command: RC_BAD_VIRTUAL_PATH unless it starts with "python", RC_NO_PYTHON when the version is missing. */
  function GuiRunVirtual(cat: seq<Installed>, env: Environment, name: WString, suffix: Option<WString>,
                         cmdline: WString): (o: Outcome)
    requires NoNul(name)
  {
    if !StartsWith(name, Python) then Fail(RcBadVirtualPath)
    else match GuiLocatePythonSpec(cat, env, name[|Python|..])
      case None => Fail(RcNoPython)
      case Some(i) => Spawn(ChildCommand(cat[i].executable, suffix, cmdline), false)
  }

  /** The windowed `maybe_handle_shebang` on the script `path`. */
  function GuiHandleShebangSpec(h: Host, path: WString, cmdline: WString): (o: Option<Outcome>)
  {
    if path !in h.scripts then None
    else match FirstLine(h.scripts[path])
      case NoLine => None
      case Garbage => Some(Undefined)
      case Line(u) => GuiDispatchLine(h.installed, h.env, u[|u| - 1 := Nul], cmdline)
  }

  /** The windowed `maybe_handle_shebang` on the buffers. */
  method GuiHandleShebang(h: Host, locator: EnvKeyLocator, path: WString, cmdline: WString)
    returns (o: Option<Outcome>)
    requires locator.Valid()
    modifies locator.envKey
    ensures locator.Valid() && o == GuiHandleShebangSpec(h, path, cmdline)
  {
    if path !in h.scripts {
      return None;
    }
    var header, line := DecodeFirstLine(h.scripts[path]);
    if header.NoLine? {
      return None;
    }
    if header.Garbage? {
      return Some(Undefined);
    }
    var nchars := line.Length - 1;
    line[nchars] := Nul;
    assert line[..] == header.units[nchars := Nul];
    o := GuiDispatchBuffer(h, locator, line, cmdline);
  }

  /** The dispatch on the line buffer: `parse_shebang`, then the command run or the virtual one dispatched. */
  method GuiDispatchBuffer(h: Host, locator: EnvKeyLocator, line: array<WChar>, cmdline: WString)
    returns (o: Option<Outcome>)
    requires locator.Valid() && line != locator.envKey && Terminated(line[..])
    modifies line, locator.envKey
    ensures locator.Valid()
    ensures o == GuiDispatchLine(h.installed, h.env, old(line[..]), cmdline)
  {
    var isVirtual, command := GuiParseShebang(line, line.Length - 1);
    if command.None? {
      return None;
    }
    if !isVirtual {
      return Some(Spawn(ChildCommand(CStrAt(line[..], command.value), None, cmdline), false));
    }
    var at := SplitAtSpace(line, command.value);
    var name := CStrAt(line[..], command.value);
    var suffixText := if at.Some? then Some(CStrAt(line[..], at.value)) else None;
    var outcome := GuiVirtualCommand(h, locator, name, suffixText, cmdline);
    return Some(outcome);
  }

  /** The virtual command, split at its space: it must start with "python", then the Python is located. */
  method GuiVirtualCommand(h: Host, locator: EnvKeyLocator, name: WString, suffix: Option<WString>, cmdline: WString)
    returns (o: Outcome)
    requires locator.Valid() && NoNul(name)
    modifies locator.envKey
    ensures locator.Valid() && o == GuiRunVirtual(h.installed, h.env, name, suffix, cmdline)
  {
    if !StartsWith(name, Python) {
      return Fail(RcBadVirtualPath);
    }
    var ip := locator.LocatePython(h.installed, h.env, name[|Python|..]);
    if ip.None? {
      return Fail(RcNoPython);
    }
    return Spawn(ChildCommand(h.installed[ip.value].executable, suffix, cmdline), false);
  }

  // ---------------------------------------------------------------- process

  /** The windowed qualifier test: two units with a digit second, or four reading `?d.d`. */
  predicate GuiQualifier(p: WString) {
    if |p| == 2 then IsDigit(p[1])
    else if |p| == 4 then IsDigit(p[1]) && p[2] == '.' as int && IsDigit(p[3])
    else false
  }

  /**
   * `process` of the windowed launcher: no configuration files and no
   * usage text; a first argument not starting with `-` is tried as a
   * script; a qualifier selects the version and is cut from the command
   * line; otherwise the overall default runs.
   */
  function GuiProcessSpec(h: Host): (o: Outcome)
  {
    var command := SkipMe(h.commandLine);
    if |h.argv| <= 1 then GuiDefaultRun(h.installed, h.env, command)
    else
      var p := Argument(h, 1);
      var shebang := GuiScriptRun(h, p, command);
      if shebang.Some? then shebang.value
      else GuiArgumentRun(h.installed, h.env, p, command)
  }

  /** The run a script `p` decides, when `p` does not start with `-` and its shebang line decides it. */
  function GuiScriptRun(h: Host, p: WString, command: WString): (o: Option<Outcome>)
  {
    if |p| == 0 || p[0] != '-' as int then GuiHandleShebangSpec(h, p, command) else None
  }

  /** The first argument `p` when no shebang line decided the run: a qualifier, or the overall default. */
  function GuiArgumentRun(cat: seq<Installed>, env: Environment, p: WString, command: WString): (o: Outcome)
    requires NoNul(p)
  {
    if GuiQualifier(p) then GuiQualifiedRun(cat, env, p, command)
    else GuiDefaultRun(cat, env, command)
  }

  /** The run without a qualifier: the overall default, the command line unchanged. */
  function GuiDefaultRun(cat: seq<Installed>, env: Environment, command: WString): (o: Outcome)
  {
    match GuiLocatePythonSpec(cat, env, [])
    case None => Fail(RcNoPython)
    case Some(i) => Spawn(ChildCommand(cat[i].executable, None, command), false)
  }

  /** The run with the qualifier `p`, which is cut, with the white space after it, from the command line. */
  function GuiQualifiedRun(cat: seq<Installed>, env: Environment, p: WString, command: WString): (o: Outcome)
    requires 0 < |p| && NoNul(p)
  {
    match GuiLocatePythonSpec(cat, env, p[1..])
    case None => Fail(RcNoPython)
    case Some(i) =>
      if |command| < |p| then Undefined
      else Spawn(ChildCommand(cat[i].executable, None, command[SkipWs(command, |p|)..]), false)
  }

  /** `process` on the launcher's state: the key buffer and the line buffer. */
  method GuiProcess(h: Host) returns (o: Outcome)
    ensures o == GuiProcessSpec(h)
  {
    var command := SkipMe(h.commandLine);
    var locator := new EnvKeyLocator();
    if |h.argv| <= 1 {
      o := GuiRunDefault(h, locator, command);
      return;
    }
    var p := Argument(h, 1);
    if |p| == 0 || p[0] != '-' as int {
      var handled := GuiHandleShebang(h, locator, p, command);
      if handled.Some? {
        return handled.value;
      }
    }
    o := GuiRunArgument(h, locator, p, command);
  }

  /** The qualifier test on the first argument, then the run it selects. */
  method GuiRunArgument(h: Host, locator: EnvKeyLocator, p: WString, command: WString) returns (o: Outcome)
    requires locator.Valid() && NoNul(p)
    modifies locator.envKey
    ensures o == GuiArgumentRun(h.installed, h.env, p, command)
  {
    var valid := false;
    if |p| == 2 {
      valid := IsDigit(p[1]);
    } else if |p| == 4 {
      valid := IsDigit(p[1]) && p[2] == '.' as int && IsDigit(p[3]);
    }
    if valid {
      var ip := locator.LocatePython(h.installed, h.env, p[1..]);
      if ip.None? {
        return Fail(RcNoPython);
      }
      if |command| < |p| {
        return Undefined;
      }
      var rest := SkipWhitespace(command, |p|);
      return Spawn(ChildCommand(h.installed[ip.value].executable, None, command[rest..]), false);
    }
    o := GuiRunDefault(h, locator, command);
  }

  /** The overall default Python, run on the whole command line. */
  method GuiRunDefault(h: Host, locator: EnvKeyLocator, command: WString) returns (o: Outcome)
    requires locator.Valid()
    modifies locator.envKey
    ensures o == GuiDefaultRun(h.installed, h.env, command)
  {
    var ip := locator.LocatePython(h.installed, h.env, []);
    if ip.None? {
      return Fail(RcNoPython);
    }
    return Spawn(ChildCommand(h.installed[ip.value].executable, None, command), false);
  }

  // ---------------------------------------------------------------- properties

  /**
   * The windowed qualifier is the console one without the word size: a
   * major or major.minor version after any first unit. On arguments of up
   * to four units the two launchers agree.
   */
  lemma GuiQualifierIsVersionTag(p: WString)
    requires NoNul(p)
    ensures GuiQualifier(p) <==> 0 < |p| && VersionTag(p[1..])
    ensures 0 < |p| <= 4 ==> ValidateVersion(p[1..]) == Some(GuiQualifier(p))
  {
    if 0 < |p| && |p| <= 4 {
      ValidateShortTag(p[1..]);
    }
  }

  /** `#!/usr/bin/perl` is virtual in the windowed launcher and ends with RC_BAD_VIRTUAL_PATH. */
  lemma GuiOtherInterpreterIsBadVirtualPath(cat: seq<Installed>, env: Environment, cmdline: WString)
    ensures GuiDispatchLine(cat, env, ShebangLine(Lit("/usr/bin/perl")), cmdline) == Some(Fail(RcBadVirtualPath))
  {
    var text := Lit("/usr/bin/perl");
    var line := ShebangLine(text);
    assert text[9] != EnvPath[9];
    assert StartsWith(text, BinPath) by {
      assert text[..9] == BinPath;
    }
    ShebangLineText(text);
    var e := |text| + 1;
    assert line[e] == text[e - 2];
    TrimEndNothingTrailing(line, 2, e);
    CStrAtFrom(line, 2, 11);
    assert CStrAt(line, 11) == text[9..];
    assert |CStrAt(line, 11)| < |Python|;
  }

  /**
   * `#!/usr/bin/env  python`, with two spaces, is virtual in the windowed
   * launcher; its command is empty before the space, so it ends with
   * RC_BAD_VIRTUAL_PATH.
   */
  lemma GuiEnvWithTwoSpacesIsBadVirtualPath(cat: seq<Installed>, env: Environment, cmdline: WString)
    ensures GuiDispatchLine(cat, env, ShebangLine(Lit("/usr/bin/env  python")), cmdline) ==
      Some(Fail(RcBadVirtualPath))
  {
    EnvWithTwoSpacesSpelled();
    var line := ShebangLine(EnvPath + [Space] + Python);
    GuiEnvWithTwoSpacesParse();
    var split := SplitCommand(line, 15);
    assert split.0 == [];
  }

  /** The literal `/usr/bin/env  python` is the env path, a space and "python". */
  lemma EnvWithTwoSpacesSpelled()
    ensures Lit("/usr/bin/env  python") == EnvPath + [Space] + Python
  {
  }

  /** The windowed parse of `#!/usr/bin/env  python`: virtual, the command at the second space. */
  lemma GuiEnvWithTwoSpacesParse()
    ensures var line := ShebangLine(EnvPath + [Space] + Python);
      |line| > 15 && GuiParseShebangSpec(line) == GuiParsed(true, Some(15), line) &&
      IndexOf(CStrAt(line, 15), ' ' as int) == Some(0)
  {
    var text := EnvPath + [Space] + Python;
    var line := ShebangLine(text);
    assert StartsWith(text, EnvPath) by {
      assert text[..13] == EnvPath;
    }
    ShebangLineText(text);
    var e := |text| + 1;
    assert line[e] == text[e - 2];
    TrimEndNothingTrailing(line, 2, e);
    CStrAtFrom(line, 2, 15);
    assert CStrAt(line, 15) == [Space] + Python;
    IndexOfIs(CStrAt(line, 15), ' ' as int, 0);
  }

  /**
   * `#!python<v>` is not virtual in the windowed launcher: the text is run
   * as a command of its own, with no suffix.
   */
  lemma GuiBarePythonRunsLiterally(cat: seq<Installed>, env: Environment, v: WString, cmdline: WString)
    requires NoNul(v) && forall i | 0 <= i < |v| :: !IsSpace(v[i])
    ensures GuiDispatchLine(cat, env, ShebangLine(Python + v), cmdline) ==
      Some(Spawn(ChildCommand(Python + v, None, cmdline), false))
  {
    var text := Python + v;
    var line := ShebangLine(text);
    assert NoNul(text) && !IsSpace(text[0]) by {
      assert forall i | 0 <= i < |v| :: text[|Python| + i] == v[i];
    }
    assert text[0] != EnvPath[0] && text[0] != BinPath[0];
    ShebangLineText(text);
    var e := |text| + 1;
    assert line[e] == text[e - 2];
    TrimEndNothingTrailing(line, 2, e);
  }

  /** The windowed launcher never reads past the argument: without a script, a qualifier is decided by length alone. */
  lemma GuiQualifierSelectsVersion(h: Host, tag: WString, rest: WString)
    requires VersionTag(tag) && |h.argv| > 1 && Argument(h, 1) == ['-' as int] + tag
    requires SkipMe(h.commandLine) == ['-' as int] + tag + rest
    ensures GuiProcessSpec(h) == match GuiLocatePythonSpec(h.installed, h.env, tag)
      case None => Fail(RcNoPython)
      case Some(i) => Spawn(ChildCommand(h.installed[i].executable, None, TrimStart(rest)), false)
  {
    var p := Argument(h, 1);
    var command := SkipMe(h.commandLine);
    assert p[1..] == tag;
    GuiQualifierIsVersionTag(p);
    assert command[|p|..] == rest;
    SkipWsFrom(command, |p|);
  }

  /** A text that starts with the `j`-th virtual path and "python" is matched by that path, not an earlier one. */
  lemma VirtualPathOfPython(j: nat, rest: WString)
    requires j < |VirtualPaths|
    ensures FirstVirtualPath(VirtualPaths[j] + Python + rest, 0) == Some(j)
  {
    var text := VirtualPaths[j] + Python + rest;
    assert text[..|VirtualPaths[j]|] == VirtualPaths[j];
    if j == 1 {
      assert text[9] == Python[0] != EnvPath[9];
    }
  }

  /**
   * `#!/usr/bin/env python<v>` and `#!/usr/bin/python<v>`, with `v` free
   * of white space, run the Python located for `v`, with no suffix.
   */
  lemma GuiVirtualShebangRunsLocated(cat: seq<Installed>, env: Environment, j: nat, v: WString, w: WString,
                                     cmdline: WString)
    requires j < |VirtualPaths| && NoNul(v) && forall i | 0 <= i < |v| :: !IsSpace(v[i])
    requires forall i | 0 <= i < |w| :: IsSpace(w[i])
    ensures GuiDispatchLine(cat, env, ShebangLine(VirtualPaths[j] + Python + v + w), cmdline) ==
      Some(match GuiLocatePythonSpec(cat, env, v)
           case None => Fail(RcNoPython)
           case Some(i) => Spawn(ChildCommand(cat[i].executable, None, cmdline), false))
  {
    GuiVirtualSplit(j, v, w);
    GuiDispatchPython(cat, env, ShebangLine(VirtualPaths[j] + Python + v + w), v, cmdline);
  }

  /** The virtual command of such a line, cut at its first space, is "python" and the tag, with no suffix. */
  lemma GuiVirtualSplit(j: nat, v: WString, w: WString)
    requires j < |VirtualPaths| && NoNul(v) && forall i | 0 <= i < |v| :: !IsSpace(v[i])
    requires forall i | 0 <= i < |w| :: IsSpace(w[i])
    ensures var p := GuiParseShebangSpec(ShebangLine(VirtualPaths[j] + Python + v + w));
      p.isVirtual && p.command.Some? && SplitsAsPython(p.line, p.command.value, v)
  {
    var b := VirtualPaths[j] + Python;
    var line := ShebangLine(b + v + w);
    var p := GuiParseShebangSpec(line);
    assert p.isVirtual && p.command == Some(2 + |b| - |Python|) && p.line == TrimmedShebang(b + v + w) by {
      GuiVirtualParsed(j, v, w);
    }
    assert EndsWithPython(b) by {
      assert b[|b| - |Python|..] == Python;
    }
    BuiltinLineTrim(b, v, w);
    SplitPythonTail(p.line, p.command.value, v);
  }

  /** A virtual command that reads "python" and a tag, with no suffix, runs the Python located for the tag. */
  lemma GuiDispatchPython(cat: seq<Installed>, env: Environment, line: WString, v: WString, cmdline: WString)
    requires Terminated(line)
    requires GuiParseShebangSpec(line).isVirtual && GuiParseShebangSpec(line).command.Some?
    requires SplitsAsPython(GuiParseShebangSpec(line).line, GuiParseShebangSpec(line).command.value, v)
    ensures GuiDispatchLine(cat, env, line, cmdline) ==
      Some(match GuiLocatePythonSpec(cat, env, v)
           case None => Fail(RcNoPython)
           case Some(i) => Spawn(ChildCommand(cat[i].executable, None, cmdline), false))
  {
    assert (Python + v)[|Python|..] == v;
  }

  /** A `#!` line with a virtual path and "python" is virtual, its command at "python", and trimmed. */
  lemma GuiVirtualParsed(j: nat, v: WString, w: WString)
    requires j < |VirtualPaths| && NoNul(v) && forall i | 0 <= i < |v| :: !IsSpace(v[i])
    requires forall i | 0 <= i < |w| :: IsSpace(w[i])
    ensures var b := VirtualPaths[j] + Python; var line := ShebangLine(b + v + w); var p := GuiParseShebangSpec(line);
      p.isVirtual && p.command == Some(2 + |b| - |Python|) && p.line == TrimmedShebang(b + v + w)
  {
    var b := VirtualPaths[j] + Python;
    var text := b + v + w;
    assert NoNul(text) && !IsSpace(text[0]) by {
      PythonIsPlain();
      assert NoNul(b);
      BuiltinLineText(b, v, w);
    }
    assert FirstVirtualPath(text, 0) == Some(j) by {
      Associative(b, v, w);
      VirtualPathOfPython(j, v + w);
    }
    GuiParsedVirtualText(text, j);
  }

  /** A text that the `k`-th virtual path starts parses as virtual, the command just after that path. */
  lemma GuiParsedVirtualText(text: WString, k: nat)
    requires 0 < |text| && NoNul(text) && !IsSpace(text[0]) && FirstVirtualPath(text, 0) == Some(k)
    ensures k < |VirtualPaths|
    ensures var p := GuiParseShebangSpec(ShebangLine(text));
      p.isVirtual && p.command == Some(2 + |VirtualPaths[k]|) && p.line == TrimmedShebang(text)
  {
    ShebangLineText(text);
    TrimmedShebangIs(text);
  }

  /** The script named by the first argument matters to the windowed launcher only through its first line. */
  lemma GuiProcessSeesFirstLine(h: Host, buf: HeadBuffer)
    requires |h.argv| > 1 && Argument(h, 1) in h.scripts && FirstLine(buf) == FirstLine(h.scripts[Argument(h, 1)])
    ensures GuiProcessSpec(h.(scripts := h.scripts[Argument(h, 1) := buf])) == GuiProcessSpec(h)
  {
    var p, command := Argument(h, 1), SkipMe(h.commandLine);
    var h2 := h.(scripts := h.scripts[p := buf]);
    assert Argument(h2, 1) == p;
    GuiHandleShebangSeesFirstLine(h, p, command, buf);
    assert GuiScriptRun(h2, p, command) == GuiScriptRun(h, p, command);
  }

  /** Only the first line matters: two scripts whose first lines decode alike are handled alike. */
  lemma GuiHandleShebangSeesFirstLine(h: Host, path: WString, cmdline: WString, buf: HeadBuffer)
    requires path in h.scripts && FirstLine(buf) == FirstLine(h.scripts[path])
    ensures GuiHandleShebangSpec(h.(scripts := h.scripts[path := buf]), path, cmdline) ==
            GuiHandleShebangSpec(h, path, cmdline)
  {
    var h2 := h.(scripts := h.scripts[path := buf]);
    assert path in h2.scripts && FirstLine(h2.scripts[path]) == FirstLine(h.scripts[path]);
    assert h2.installed == h.installed && h2.env == h.env;
  }

  /** A UTF-8 byte order mark in front of a script's first line changes nothing for the windowed launcher. */
  lemma GuiByteOrderMarkIsIgnored(h: Host, b: seq<Byte>, plain: HeadBuffer, marked: HeadBuffer)
    requires |h.argv| > 1 && Argument(h, 1) in h.scripts && h.scripts[Argument(h, 1)] == plain
    requires |b| + 4 <= BufSize && forall k | 0 <= k < |b| :: !IsLineEnd(b[k])
    requires plain[..|b| + 1] == b + ['\n' as int] && FirstBomFrom(plain, 0).None?
    requires marked[..|b| + 4] == [0xEF, 0xBB, 0xBF] + b + ['\n' as int]
    ensures GuiProcessSpec(h.(scripts := h.scripts[Argument(h, 1) := marked])) == GuiProcessSpec(h)
  {
    assert FirstLine(marked) == FirstLine(plain) by {
      FirstLineIgnoresUtf8Bom(b, plain, marked);
    }
    GuiProcessSeesFirstLine(h, marked);
  }
}
