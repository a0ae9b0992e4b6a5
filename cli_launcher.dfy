/**
 * The console launcher's choice of interpreter: `locate_python` with its
 * rewritten `config_key`, the version qualifier check `validate_version`,
 * the version text of the usage banner, the dispatch of
 * `maybe_handle_shebang` and the argument handling of `process`.
 */
module CliLauncher {
  import opened Wrappers
  import opened Wide
  import opened Encoding
  import opened Config
  import opened Catalog
  import opened Commands
  import opened Launch
  import opened CliShebang

  // ---------------------------------------------------------------- locate_python

  const Two: WString := ['2' as int]
  const Three: WString := ['3' as int]

  /** The overall default: the configured `python` value, then "2", then "3". */
  function DefaultPython(cat: seq<Installed>, configured: Option<WString>): (r: Option<nat>)
    ensures r.Some? ==> r.value < |cat|
  {
    var c := if configured.Some? then FirstAgreeing(cat, configured.value, 0) else None;
    if c.Some? then c
    else
      var two := FirstAgreeing(cat, Two, 0);
      if two.Some? then two else FirstAgreeing(cat, Three, 0)
  }

  /**
   * `locate_python`: a one-unit tag is first replaced by the configured
   * `python<major>` value, if any; a non-empty tag is then looked up in the
   * catalog, and an empty one falls back to the overall default.
   */
  function LocatePythonSpec(cat: seq<Installed>, env: Environment, inis: Inis, wanted: WString): (r: Option<nat>)
    ensures r.Some? ==> r.value < |cat|
  {
    var w := if |wanted| == 1 then GetConfiguredValue(env, inis, Python + [wanted[0]]).GetOr(wanted) else wanted;
    if |w| > 0 then FirstAgreeing(cat, w, 0)
    else DefaultPython(cat, GetConfiguredValue(env, inis, Python))
  }

  /**
   * The state `locate_python` keeps between calls: the static `config_key`
   * buffer "pythonX" whose unit at 6 each call overwrites, so that the
   * buffer reads as `python<major>` or as `python`.
   */
  class VersionLocator {
    const configKey: array<WChar>

    ghost predicate Valid()
      reads this, configKey
    {
      configKey.Length == 8 && configKey[..6] == Python && configKey[7] == Nul
    }

    constructor ()
      ensures Valid() && configKey[6] == 'X' as int && fresh(configKey)
    {
      configKey := new WChar[8](i requires 0 <= i < 8 =>
        if i < 6 then Python[i] else if i == 6 then 'X' as int else Nul);
      new;
      assert configKey[..6] == Python;
    }

    /** The key the buffer holds, read as a C string. */
    function Key(): (k: WString)
      requires Valid()
      reads this, configKey
      ensures configKey[6] == Nul ==> k == Python
      ensures configKey[6] != Nul ==> k == Python + [configKey[6]]
    {
      var buf := configKey[..];
      if buf[6] == Nul then
        CStrAtIs(buf, 0, 6);
        assert buf[0..6] == Python;
        CStrAt(buf, 0)
      else
        CStrAtIs(buf, 0, 7);
        assert buf[0..7] == Python + [buf[6]];
        CStrAt(buf, 0)
    }

    /**
     * `locate_python`: the catalog entry chosen for `wanted`; the key unit
     * is left as the major version asked for, as NUL after a search for
     * the overall default, and untouched otherwise.
     */
    method LocatePython(cat: seq<Installed>, env: Environment, inis: Inis, wanted: WString)
      returns (r: Option<nat>)
      requires Valid() && NoNul(wanted)
      modifies configKey
      ensures Valid() && r == LocatePythonSpec(cat, env, inis, wanted)
      ensures configKey[6] == if |wanted| == 1 then wanted[0] else if |wanted| == 0 then Nul else old(configKey[6])
    {
      var w := wanted;
      if |wanted| == 1 {
        configKey[6] := wanted[0];
        assert configKey[..6] == old(configKey[..6]);
        var configured := GetConfiguredValue(env, inis, Key());
        if configured.Some? {
          w := configured.value;
        }
      }
      if |w| > 0 {
        r := FindPythonByVersion(cat, w);
      } else {
        configKey[6] := Nul;
        assert configKey[..6] == old(configKey[..6]);
        var configured := GetConfiguredValue(env, inis, Key());
        r := None;
        if configured.Some? {
          r := FindPythonByVersion(cat, configured.value);
        }
        if r.None? {
          r := FindPythonByVersion(cat, Two);
        }
        if r.None? {
          r := FindPythonByVersion(cat, Three);
        }
      }
    }
  }

  /** A tag of two or more units is looked up as it stands: the first agreeing entry, none iff no entry agrees. */
  lemma LocateExplicitTag(cat: seq<Installed>, env: Environment, inis: Inis, wanted: WString)
    requires |wanted| > 1
    ensures var r := LocatePythonSpec(cat, env, inis, wanted);
      (r.None? <==> forall j | 0 <= j < |cat| :: !Agrees(cat[j].version, wanted)) &&
      (r.Some? ==> Agrees(cat[r.value].version, wanted) &&
                   forall j | 0 <= j < r.value :: !Agrees(cat[j].version, wanted))
  {
  }

  /**
   * A one-unit tag is replaced by the configured `python<major>` value when
   * there is one (`py_python3` in the environment, say), and is looked up
   * as it stands otherwise.
   */
  lemma LocateMajorVersion(cat: seq<Installed>, env: Environment, inis: Inis, major: WChar)
    ensures var configured := GetConfiguredValue(env, inis, Python + [major]);
      LocatePythonSpec(cat, env, inis, [major]) ==
        if configured.Some? then FirstAgreeing(cat, configured.value, 0) else FirstAgreeing(cat, [major], 0)
  {
  }

  /**
   * With no tag the configured `python` value is tried first, then the
   * highest 2.x, then the highest 3.x: without a configured value a 2.x is
   * chosen even when a higher 3.x is installed.
   */
  lemma LocateDefaultPrefersTwo(cat: seq<Installed>, env: Environment, inis: Inis, two: nat)
    requires GetConfiguredValue(env, inis, Python).None?
    requires two < |cat| && Agrees(cat[two].version, Two)
    ensures var r := LocatePythonSpec(cat, env, inis, []);
      r.Some? && Agrees(cat[r.value].version, Two) && r.value <= two
  {
  }

  /** With no tag, nothing configured and no entry agreeing with "2", the highest 3.x is chosen. */
  lemma LocateDefaultThree(cat: seq<Installed>, env: Environment, inis: Inis)
    requires GetConfiguredValue(env, inis, Python).None?
    requires forall j | 0 <= j < |cat| :: !Agrees(cat[j].version, Two)
    ensures var r := LocatePythonSpec(cat, env, inis, []);
      (r.None? <==> forall j | 0 <= j < |cat| :: !Agrees(cat[j].version, Three)) &&
      (r.Some? ==> Agrees(cat[r.value].version, Three) &&
                   forall j | 0 <= j < r.value :: !Agrees(cat[j].version, Three))
  {
  }

  /**
   * The environment variable `PY_PYTHON`, in whatever case it is spelt,
   * decides the overall default when it names an installed version.
   */
  lemma EnvironmentDefaultWins(cat: seq<Installed>, env: Environment, inis: Inis, name: WString, v: WString)
    requires SameIgnoringCase(name, Lit("py_") + Python) && GetEnv(env, name) == Some(v)
    requires FirstAgreeing(cat, v, 0).Some?
    ensures LocatePythonSpec(cat, env, inis, []) == FirstAgreeing(cat, v, 0)
  {
    GetEnvIgnoresCase(env, name, Lit("py_") + Python);
  }

  // ---------------------------------------------------------------- validate_version

  /**
   * `validate_version` on the C string `t`: a digit, optionally `.` and a
   * second digit, optionally followed by `-` and a word size. The test of
   * the word size reads units one by one and stops reading at the first
   * that decides it, so a tail shorter than two units makes it read past
   * the terminator: `None` then.
   */
  function ValidateVersion(t: WString): (r: Option<bool>)
    requires NoNul(t)
  {
    if |t| == 0 || !IsDigit(t[0]) then Some(false)
    else if |t| == 1 then Some(true)
    else if t[1] != '.' as int then Some(false)
    else if |t| == 2 || !IsDigit(t[2]) then Some(false)
    else if |t| == 3 then Some(true)
    else if t[3] != '-' as int then Some(false)
    else if |t| > 4 && t[4] == '3' as int then Some(true)
    else if |t| <= 5 then None
    else if t[5] == '2' as int then Some(true)
    else Some(|t| > 6)
  }

  /** A major version, or a major and minor version: `3`, `2.7`. */
  predicate VersionTag(t: WString) {
    (|t| == 1 && IsDigit(t[0])) || (|t| == 3 && IsDigit(t[0]) && t[1] == '.' as int && IsDigit(t[2]))
  }

  /** Up to three units, the check is defined and accepts exactly a major or major.minor version. */
  lemma ValidateShortTag(t: WString)
    requires NoNul(t) && |t| <= 3
    ensures ValidateVersion(t) == Some(VersionTag(t))
  {
  }

  /**
   * A longer text is accepted only as a major.minor version, `-` and a
   * tail; "-32" is accepted, and the check reads past the terminator
   * exactly when the tail is empty, or is one unit other than "3".
   */
  lemma ValidateLongTag(t: WString)
    requires NoNul(t) && |t| > 3
    ensures ValidateVersion(t) == Some(true) ==> VersionTag(t[..3]) && t[3] == '-' as int
    ensures VersionTag(t[..3]) && t[3..] == Lit("-32") ==> ValidateVersion(t) == Some(true)
    ensures ValidateVersion(t).None? <==>
      VersionTag(t[..3]) && t[3] == '-' as int && (|t| == 4 || (|t| == 5 && t[4] != '3' as int))
  {
    if t[3..] == Lit("-32") {
      assert t[4] == t[3..][1] && t[5] == t[3..][2];
    }
  }

  /**
   * The word size is not checked as such: after `-` a tail starting with
   * "3" or having "2" second is accepted, and only a two-unit tail that is
   * neither is refused.
   */
  lemma ValidateWordSizeExamples()
    ensures ValidateVersion(Lit("2.7-32")) == Some(true)
    ensures ValidateVersion(Lit("2.7-3")) == Some(true)
    ensures ValidateVersion(Lit("2.7-33")) == Some(true)
    ensures ValidateVersion(Lit("2.7-64")) == Some(false)
    ensures ValidateVersion(Lit("2.7-")).None?
    ensures ValidateVersion(Lit("2.7-6")).None?
  {
  }

  // ---------------------------------------------------------------- get_version_info

  /** The bound of a DWORD. */
  const DwordLimit: nat := 0x1_0000_0000
  /** The bound of a WORD. */
  const WordLimit: nat := 0x10000

  function Digit(n: nat): (c: WChar)
    requires n < 10
    ensures IsDigit(c)
  {
    '0' as int + n
  }

  /** `%d` of a non-negative number: its decimal digits, without leading zeros. */
  function Decimal(n: nat): (d: WString)
    ensures 0 < |d| && forall i | 0 <= i < |d| :: IsDigit(d[i])
  {
    if n < 10 then [Digit(n)] else Decimal(n / 10) + [Digit(n % 10)]
  }

  /** The value of a string of decimal digits. */
  function DecimalValue(d: WString): nat
    requires forall i | 0 <= i < |d| :: IsDigit(d[i])
  {
    if |d| == 0 then 0
    else
      assert IsDigit(d[|d| - 1]);
      10 * DecimalValue(d[..|d| - 1]) + (d[|d| - 1] - '0' as int)
  }

  /** Reading the digits back gives the number printed. */
  lemma {:induction false} DecimalRoundTrip(n: nat)
    ensures DecimalValue(Decimal(n)) == n
  {
    if n >= 10 {
      DecimalRoundTrip(n / 10);
      var d := Decimal(n);
      assert d[..|d| - 1] == Decimal(n / 10);
    }
  }

  /** A WORD has at most five decimal digits. */
  lemma {:induction false} DecimalOfWord(n: nat)
    requires n < WordLimit
    ensures |Decimal(n)| <= 5
  {
    if n >= 10 {
      DecimalOfWord(n / 10);
      if n / 10 >= 10 {
        if n / 100 >= 10 {
          if n / 1000 >= 10 {
            assert n / 10000 < 10;
            assert |Decimal(n / 1000)| == 2;
          }
        }
      }
    }
  }

  /**
   * `get_version_info`: "0.1" when the launcher has no version resource,
   * otherwise the four words of the file version, printed as decimals and
   * joined by dots.
   */
  function VersionText(high: nat, low: nat): (t: WString)
    requires high < DwordLimit && low < DwordLimit
    ensures |t| < MaxPath
  {
    if high == 0 && low == 0 then ['0' as int, '.' as int, '1' as int]
    else
      DecimalOfWord(high / WordLimit);
      DecimalOfWord(high % WordLimit);
      DecimalOfWord(low / WordLimit);
      DecimalOfWord(low % WordLimit);
      Dotted(Decimal(high / WordLimit), Dotted(Decimal(high % WordLimit),
        Dotted(Decimal(low / WordLimit), Decimal(low % WordLimit))))
  }

  /** Two texts joined by a dot. */
  function Dotted(a: WString, b: WString): WString {
    a + ['.' as int] + b
  }

  /** A text cut at its dots. */
  function Fields(s: WString): (f: seq<WString>)
    ensures 0 < |f|
    decreases |s|
  {
    match IndexOf(s, '.' as int)
    case None => [s]
    case Some(k) => [s[..k]] + Fields(s[k + 1..])
  }

  predicate Digits(d: WString) {
    forall i | 0 <= i < |d| :: IsDigit(d[i])
  }

  /** A field of digits, then a dot, then the rest. */
  lemma FieldsOfJoin(a: WString, b: WString)
    requires Digits(a)
    ensures Fields(Dotted(a, b)) == [a] + Fields(b)
  {
    var s := a + ['.' as int] + b;
    assert s[..|a|] == a;
    assert '.' as int !in a by {
      forall i | 0 <= i < |a| ensures a[i] != '.' as int {
        assert IsDigit(a[i]);
      }
    }
    IndexOfIs(s, '.' as int, |a|);
    assert s[|a| + 1..] == b;
  }

  /** A field of digits alone is one field. */
  lemma FieldsOfDigits(d: WString)
    requires Digits(d)
    ensures Fields(d) == [d]
  {
    assert '.' as int !in d by {
      forall i | 0 <= i < |d| ensures d[i] != '.' as int {
        assert IsDigit(d[i]);
      }
    }
  }

  /** Two fields of digits joined by a dot are cut back into those two. */
  lemma FieldsOfTwo(c: WString, d: WString)
    requires Digits(c) && Digits(d)
    ensures Fields(Dotted(c, d)) == [c, d]
  {
    FieldsOfDigits(d);
    FieldsOfJoin(c, d);
  }

  /** Three fields of digits joined by dots are cut back into those three. */
  lemma FieldsOfThree(b: WString, c: WString, d: WString)
    requires Digits(b) && Digits(c) && Digits(d)
    ensures Fields(Dotted(b, Dotted(c, d))) == [b, c, d]
  {
    FieldsOfTwo(c, d);
    FieldsOfJoin(b, Dotted(c, d));
  }

  /** Four fields of digits joined by dots are cut back into those four. */
  lemma FieldsOfFour(a: WString, b: WString, c: WString, d: WString)
    requires Digits(a) && Digits(b) && Digits(c) && Digits(d)
    ensures Fields(Dotted(a, Dotted(b, Dotted(c, d)))) == [a, b, c, d]
  {
    var t := Dotted(b, Dotted(c, d));
    assert Fields(t) == [b, c, d] by {
      FieldsOfThree(b, c, d);
    }
    assert Fields(Dotted(a, t)) == [a] + Fields(t) by {
      FieldsOfJoin(a, t);
    }
    assert [a] + [b, c, d] == [a, b, c, d];
  }

  /** Without a version resource the text reads as 0 and 1. */
  lemma VersionTextWithoutVersion()
    ensures Fields(VersionText(0, 0)) == [['0' as int], ['1' as int]]
  {
    assert VersionText(0, 0) == Dotted(['0' as int], ['1' as int]);
    FieldsOfJoin(['0' as int], ['1' as int]);
    FieldsOfDigits(['1' as int]);
  }

  /**
   * The version text reads back as the version it prints: the fields
   * between the dots are the high and low words of the two DWORDs, in
   * that order.
   */
  lemma VersionTextReadsBack(high: nat, low: nat)
    requires high < DwordLimit && low < DwordLimit && (high != 0 || low != 0)
    ensures var f := Fields(VersionText(high, low));
      |f| == 4 && Digits(f[0]) && Digits(f[1]) && Digits(f[2]) && Digits(f[3]) &&
      DecimalValue(f[0]) == high / WordLimit && DecimalValue(f[1]) == high % WordLimit &&
      DecimalValue(f[2]) == low / WordLimit && DecimalValue(f[3]) == low % WordLimit
  {
    var a, b, c, d := Decimal(high / WordLimit), Decimal(high % WordLimit), Decimal(low / WordLimit), Decimal(low % WordLimit);
    assert Fields(VersionText(high, low)) == [a, b, c, d] by {
      FieldsOfFour(a, b, c, d);
    }
    DecimalRoundTrip(high / WordLimit);
    DecimalRoundTrip(high % WordLimit);
    DecimalRoundTrip(low / WordLimit);
    DecimalRoundTrip(low % WordLimit);
  }

  // ---------------------------------------------------------------- maybe_handle_shebang

  /**
   * A virtual command, split at its first space: it must start with
   * "python" (RC_BAD_VIRTUAL_PATH otherwise), and what follows names the
   * version to locate (RC_NO_PYTHON when none is installed).
   */
  function RunVirtual(cat: seq<Installed>, env: Environment, inis: Inis, name: WString, suffix: Option<WString>,
                      cmdline: WString): (o: Outcome)
    requires NoNul(name)
  {
    if !StartsWith(name, Python) then Fail(RcBadVirtualPath)
    else match LocatePythonSpec(cat, env, inis, name[|Python|..])
      case None => Fail(RcNoPython)
      case Some(i) => Spawn(ChildCommand(cat[i].executable, suffix, cmdline), false)
  }

  /**
   * What `maybe_handle_shebang` does with the line buffer once the NUL is
   * written over its last unit: nothing when `parse_shebang` finds no
   * command; a command that is not virtual is run with its suffix; a
   * virtual one is dispatched on the version it names.
   */
  function DispatchLine(cat: seq<Installed>, env: Environment, inis: Inis, cmds: seq<Command>, line: WString,
                        cmdline: WString): (o: Option<Outcome>)
    requires Terminated(line)
  {
    var p := ParseShebangSpec(line, cmds);
    match p.command
    case None => None
    case Some(c) =>
      if !p.isVirtual then
        var command := match c case InLine(at) => CStrAt(p.line, at) case Alias(v) => v;
        var suffix := if p.suffix.Some? then Some(CStrAt(p.line, p.suffix.value)) else None;
        Some(Spawn(ChildCommand(command, suffix, cmdline), false))
      else
        var split := SplitCommand(p.line, c.offset);
        Some(RunVirtual(cat, env, inis, split.0, split.1, cmdline))
  }

  /**
   * `maybe_handle_shebang` on the script `path`: nothing when the file does
   * not open or its first line yields no unit; the decoded line, its last
   * unit replaced by NUL, is dispatched; a line the C code fills with
   * units it never wrote is `Undefined`.
   */
  function HandleShebangSpec(h: Host, inis: Inis, cmds: seq<Command>, path: WString, cmdline: WString)
    : (o: Option<Outcome>)
  {
    if path !in h.scripts then None
    else match FirstLine(h.scripts[path])
      case NoLine => None
      case Garbage => Some(Undefined)
      case Line(u) => DispatchLine(h.installed, h.env, inis, cmds, u[|u| - 1 := Nul], cmdline)
  }

  /**
   * `maybe_handle_shebang` on the buffers: the first line is decoded into
   * a fresh line buffer, `parse_shebang` works on it in place, and a
   * virtual command is cut at its first space before the version is
   * located.
   */
  method HandleShebang(h: Host, inis: Inis, table: CommandTable, locator: VersionLocator, path: WString,
                       cmdline: WString) returns (o: Option<Outcome>)
    requires table.Valid() && locator.Valid()
    modifies locator.configKey
    ensures locator.Valid()
    ensures o == HandleShebangSpec(h, inis, table.Contents(), path, cmdline)
  {
    if path !in h.scripts {
      return None;
    }
    var header, line := DecodeFirstLine(h.scripts[path]);
    if header.NoLine? {
      return None;
    }
    if header.Garbage? {
      return Some(Undefined);
    }
    o := DispatchUnits(h, inis, table, locator, line, header.units, cmdline);
  }

  /** The decoded line gets a NUL in place of its last unit, the line end, and is dispatched. */
  method DispatchUnits(h: Host, inis: Inis, table: CommandTable, locator: VersionLocator, line: array<WChar>,
                       units: WString, cmdline: WString) returns (o: Option<Outcome>)
    requires table.Valid() && locator.Valid() && line != locator.configKey
    requires 0 < |units| && line[..] == units
    modifies line, locator.configKey
    ensures locator.Valid()
    ensures o == DispatchLine(h.installed, h.env, inis, table.Contents(), units[|units| - 1 := Nul], cmdline)
  {
    var nchars := line.Length - 1;
    line[nchars] := Nul;
    assert line[..] == units[nchars := Nul];
    o := DispatchBuffer(h, inis, table, locator, line, cmdline);
  }

  /** The dispatch on the line buffer: `parse_shebang`, then the command run or the virtual one dispatched. */
  method DispatchBuffer(h: Host, inis: Inis, table: CommandTable, locator: VersionLocator, line: array<WChar>,
                        cmdline: WString) returns (o: Option<Outcome>)
    requires table.Valid() && locator.Valid() && line != locator.configKey && Terminated(line[..])
    modifies line, locator.configKey
    ensures locator.Valid()
    ensures o == DispatchLine(h.installed, h.env, inis, table.Contents(), old(line[..]), cmdline)
  {
    var isVirtual, command, suffix := ParseShebang(line, line.Length - 1, table);
    if command.None? {
      return None;
    }
    if !isVirtual {
      var text := match command.value case InLine(at) => CStrAt(line[..], at) case Alias(v) => v;
      var suffixText := if suffix.Some? then Some(CStrAt(line[..], suffix.value)) else None;
      return Some(Spawn(ChildCommand(text, suffixText, cmdline), false));
    }
    var r := RunVirtualCommand(h, inis, locator, line, command.value.offset, cmdline);
    return Some(r);
  }

  /** A virtual command in the line buffer: cut at its first space in place, then dispatched on its version. */
  method RunVirtualCommand(h: Host, inis: Inis, locator: VersionLocator, line: array<WChar>, off: nat,
                           cmdline: WString) returns (o: Outcome)
    requires locator.Valid() && line != locator.configKey && off <= line.Length
    modifies line, locator.configKey
    ensures locator.Valid()
    ensures var split := SplitCommand(old(line[..]), off);
      o == RunVirtual(h.installed, h.env, inis, split.0, split.1, cmdline)
  {
    var at := SplitAtSpace(line, off);
    var name := CStrAt(line[..], off);
    var suffixText := if at.Some? then Some(CStrAt(line[..], at.value)) else None;
    if !StartsWith(name, Python) {
      return Fail(RcBadVirtualPath);
    }
    var ip := locator.LocatePython(h.installed, h.env, inis, name[|Python|..]);
    if ip.None? {
      return Fail(RcNoPython);
    }
    return Spawn(ChildCommand(h.installed[ip.value].executable, suffixText, cmdline), false);
  }

  /** A line that does not start with `#!` is not a shebang: the arguments are handled as usual. */
  lemma NoShebangFallsThrough(cat: seq<Installed>, env: Environment, inis: Inis, cmds: seq<Command>, line: WString,
                              cmdline: WString)
    requires Terminated(line) && (line[0] != '#' as int || |line| < 2 || line[1] != '!' as int)
    ensures DispatchLine(cat, env, inis, cmds, line, cmdline).None?
  {
    if |line| < 2 {
      assert line[0] == Nul;
    }
  }

  /**
   * The console launcher never reports an unknown virtual path: a virtual
   * command always starts with "python", because every builtin path ends
   * with it.
   */
  lemma DispatchNeverBadVirtualPath(cat: seq<Installed>, env: Environment, inis: Inis, cmds: seq<Command>,
                                    line: WString, cmdline: WString)
    requires Terminated(line)
    ensures DispatchLine(cat, env, inis, cmds, line, cmdline) != Some(Fail(RcBadVirtualPath))
  {
    if ParseShebangSpec(line, cmds).isVirtual {
      VirtualCommandIsPython(line, cmds);
    }
  }

  /**
   * `#!/usr/bin/env python<v>`, `#!/usr/bin/python<v>`,
   * `#!/usr/local/bin/python<v>` and `#!python<v>` run the Python located
   * for the tag `v` with no suffix, or end with RC_NO_PYTHON when it is not
   * installed.
   */
  lemma VirtualShebangRunsLocated(cat: seq<Installed>, env: Environment, inis: Inis, cmds: seq<Command>,
                                  j: nat, v: WString, w: WString, cmdline: WString)
    requires j < |Builtins| && NoNul(v) && forall i | 0 <= i < |v| :: !IsSpace(v[i])
    requires forall i | 0 <= i < |w| :: IsSpace(w[i])
    ensures DispatchLine(cat, env, inis, cmds, ShebangLine(Builtins[j] + v + w), cmdline) ==
      Some(match LocatePythonSpec(cat, env, inis, v)
           case None => Fail(RcNoPython)
           case Some(i) => Spawn(ChildCommand(cat[i].executable, None, cmdline), false))
  {
    BuiltinShebang(j, v, w, cmds);
    DispatchPython(cat, env, inis, cmds, ShebangLine(Builtins[j] + v + w), v, cmdline);
  }

  /** A virtual command that reads "python" and a tag, with no suffix, runs the Python located for the tag. */
  lemma DispatchPython(cat: seq<Installed>, env: Environment, inis: Inis, cmds: seq<Command>, line: WString,
                       v: WString, cmdline: WString)
    requires Terminated(line) && ParseShebangSpec(line, cmds).isVirtual
    requires SplitsAsPython(ParseShebangSpec(line, cmds).line, ParseShebangSpec(line, cmds).command.value.offset, v)
    ensures DispatchLine(cat, env, inis, cmds, line, cmdline) ==
      Some(match LocatePythonSpec(cat, env, inis, v)
           case None => Fail(RcNoPython)
           case Some(i) => Spawn(ChildCommand(cat[i].executable, None, cmdline), false))
  {
    assert (Python + v)[|Python|..] == v;
  }

  /**
   * `#!name rest` with an alias `name`: the alias's value runs with `rest`
   * as its suffix, ahead of the arguments.
   */
  lemma AliasShebangRunsValue(cat: seq<Installed>, env: Environment, inis: Inis, cmds: seq<Command>,
                              name: WString, rest: WString, k: nat, cmdline: WString)
    requires 0 < |name| && forall i | 0 <= i < |name| :: !IsSpace(name[i]) && name[i] != Nul
    requires 0 < |rest| && NoNul(rest) && !IsSpace(rest[0]) && !IsSpace(rest[|rest| - 1])
    requires name[0] != '/' as int && name[0] != 'p' as int
    requires FindIn(cmds, name, 0) == Some(k)
    ensures DispatchLine(cat, env, inis, cmds, ShebangLine(name + [Space] + rest), cmdline) ==
      Some(Spawn(ChildCommand(cmds[k].value, Some(rest), cmdline), false))
  {
    AliasShebang(name, rest, cmds, k);
  }

  /**
   * `#!/usr/bin/env  python` with two spaces is not virtual: the text is
   * run as a command of its own.
   */
  lemma EnvWithTwoSpacesRunsLiterally(cat: seq<Installed>, env: Environment, inis: Inis, cmds: seq<Command>,
                                      cmdline: WString)
    requires FindIn(cmds, Lit("/usr/bin/env"), 0).None?
    ensures DispatchLine(cat, env, inis, cmds, ShebangLine(Lit("/usr/bin/env  python")), cmdline) ==
      Some(Spawn(ChildCommand(Lit("/usr/bin/env  python"), None, cmdline), false))
  {
    EnvWithTwoSpacesIsLiteral(cmds);
  }

  /**
   * Only the first line matters: two scripts whose first lines decode
   * alike are handled alike.
   */
  lemma HandleShebangSeesFirstLine(h: Host, inis: Inis, cmds: seq<Command>, path: WString, cmdline: WString,
                                   buf: HeadBuffer)
    requires path in h.scripts && FirstLine(buf) == FirstLine(h.scripts[path])
    ensures HandleShebangSpec(h.(scripts := h.scripts[path := buf]), inis, cmds, path, cmdline) ==
            HandleShebangSpec(h, inis, cmds, path, cmdline)
  {
  }

  // ---------------------------------------------------------------- process

  /** `argv[i]` as the C string the launcher reads. */
  function Argument(h: Host, i: nat): (a: WString)
    requires i < |h.argv|
    ensures NoNul(a)
  {
    CStrAt(h.argv[i], 0)
  }

  /** "-h" */
  const ShortHelp: WString := ['-' as int, 'h' as int]

  /** "--help" */
  const LongHelp: WString := ['-' as int, '-' as int, 'h' as int, 'e' as int, 'l' as int, 'p' as int]

  /** `-h` or `--help`, compared without regard to case. */
  predicate AsksForHelp(p: WString) {
    SameIgnoringCase(p, ShortHelp) || SameIgnoringCase(p, LongHelp)
  }

  /** A request for help starts with '-' and no digit follows it. */
  lemma AsksForHelpShape(p: WString)
    requires AsksForHelp(p)
    ensures 2 <= |p| && p[0] == '-' as int && !IsDigit(p[1])
  {
    SameIgnoringCaseUnits(p, ShortHelp);
    SameIgnoringCaseUnits(p, LongHelp);
    assert LowerUnit(p[0]) == '-' as int && LowerUnit(p[1]) in {'h' as int, '-' as int};
  }

  /** The run without a version qualifier: the overall default with the command line unchanged. */
  function DefaultRun(cat: seq<Installed>, env: Environment, inis: Inis, command: WString, usage: bool): (o: Outcome)
  {
    match LocatePythonSpec(cat, env, inis, [])
    case None => Fail(RcNoPython)
    case Some(i) => Spawn(ChildCommand(cat[i].executable, None, command), usage)
  }

  /**
   * The run with the version qualifier `p`: the Python located for the tag
   * after its first unit, with the qualifier and the white space after it
   * cut from the command line (`command += wcslen(p)`, which points past
   * the command line when it is shorter than `p`).
   */
  function QualifiedRun(cat: seq<Installed>, env: Environment, inis: Inis, p: WString, command: WString): (o: Outcome)
    requires 0 < |p| && NoNul(p)
  {
    match LocatePythonSpec(cat, env, inis, p[1..])
    case None => Fail(RcNoPython)
    case Some(i) =>
      if |command| < |p| then Undefined
      else Spawn(ChildCommand(cat[i].executable, None, command[SkipWs(command, |p|)..]), false)
  }

  /**
   * The first argument `p` of `argc` when no shebang line decided the run:
   * from its second unit it is checked as a version qualifier; without one
   * the default Python runs, after the usage text for a lone `-h` or
   * `--help`.
   */
  function ArgumentRun(cat: seq<Installed>, env: Environment, inis: Inis, argc: nat, p: WString, command: WString)
    : (o: Outcome)
    requires NoNul(p)
  {
    if |p| == 0 then Undefined
    else match ValidateVersion(p[1..])
      case None => Undefined
      case Some(valid) =>
        if valid then QualifiedRun(cat, env, inis, p, command)
        else DefaultRun(cat, env, inis, command, argc == 2 && AsksForHelp(p))
  }

  /**
   * `process`: the configuration files are located and the launcher's own
   * name is skipped; a first argument not starting with `-` is tried as a
   * script with a shebang line; otherwise, or when the script does not
   * decide the run, the first argument is looked at for a qualifier.
   */
  function ProcessSpec(h: Host): (o: Outcome)
  {
    var inis := LocateInis(h.appData, h.moduleFileName, h.iniFiles);
    var command := SkipMe(h.commandLine);
    if |h.argv| <= 1 then DefaultRun(h.installed, h.env, inis, command, false)
    else
      var p := Argument(h, 1);
      var shebang := ScriptRun(h, inis, p, command);
      if shebang.Some? then shebang.value
      else ArgumentRun(h.installed, h.env, inis, |h.argv|, p, command)
  }

  /** The run a script `p` decides, when `p` does not start with `-` and its shebang line decides it. */
  function ScriptRun(h: Host, inis: Inis, p: WString, command: WString): (o: Option<Outcome>)
  {
    if |p| == 0 || p[0] != '-' as int then HandleShebangSpec(h, inis, LoadCommands([], inis), p, command) else None
  }

  /** `process` on the launcher's state: the alias table, the locator's key buffer and the line buffer. */
  method Process(h: Host) returns (o: Outcome)
    ensures o == ProcessSpec(h)
  {
    var inis := LocateInis(h.appData, h.moduleFileName, h.iniFiles);
    var command := SkipMe(h.commandLine);
    var locator := new VersionLocator();
    if |h.argv| <= 1 {
      o := RunDefault(h, locator, inis, command, false);
      return;
    }
    var p := Argument(h, 1);
    if |p| == 0 || p[0] != '-' as int {
      var table := new CommandTable();
      table.ReadCommands(inis);
      var handled := HandleShebang(h, inis, table, locator, p, command);
      if handled.Some? {
        return handled.value;
      }
    }
    o := RunArgument(h, locator, inis, p, command);
  }

  /** The first argument looked at as a qualifier, when no shebang line decided the run. */
  method RunArgument(h: Host, locator: VersionLocator, inis: Inis, p: WString, command: WString) returns (o: Outcome)
    requires locator.Valid() && NoNul(p)
    modifies locator.configKey
    ensures o == ArgumentRun(h.installed, h.env, inis, |h.argv|, p, command)
  {
    if |p| == 0 {
      return Undefined;
    }
    var checked := ValidateVersion(p[1..]);
    if checked.None? {
      return Undefined;
    }
    if checked.value {
      var ip := locator.LocatePython(h.installed, h.env, inis, p[1..]);
      if ip.None? {
        return Fail(RcNoPython);
      }
      if |command| < |p| {
        return Undefined;
      }
      var rest := SkipWhitespace(command, |p|);
      return Spawn(ChildCommand(h.installed[ip.value].executable, None, command[rest..]), false);
    }
    o := RunDefault(h, locator, inis, command, |h.argv| == 2 && AsksForHelp(p));
  }

  /** The overall default Python, run on the whole command line; `usage` when the help text was asked for. */
  method RunDefault(h: Host, locator: VersionLocator, inis: Inis, command: WString, usage: bool) returns (o: Outcome)
    requires locator.Valid()
    modifies locator.configKey
    ensures o == DefaultRun(h.installed, h.env, inis, command, usage)
  {
    var ip := locator.LocatePython(h.installed, h.env, inis, []);
    if ip.None? {
      return Fail(RcNoPython);
    }
    return Spawn(ChildCommand(h.installed[ip.value].executable, None, command), usage);
  }

  /** Handling a script never ends with RC_BAD_VIRTUAL_PATH. */
  lemma HandleShebangNeverBadVirtualPath(h: Host, inis: Inis, cmds: seq<Command>, path: WString, cmdline: WString)
    ensures HandleShebangSpec(h, inis, cmds, path, cmdline) != Some(Fail(RcBadVirtualPath))
  {
    if path in h.scripts {
      match FirstLine(h.scripts[path])
      case NoLine =>
      case Garbage =>
      case Line(u) =>
        var line := u[|u| - 1 := Nul];
        DispatchNeverBadVirtualPath(h.installed, h.env, inis, cmds, line, cmdline);
    }
  }

  /** The console launcher never ends with RC_BAD_VIRTUAL_PATH. */
  lemma ProcessNeverBadVirtualPath(h: Host)
    ensures ProcessSpec(h) != Fail(RcBadVirtualPath)
  {
    var inis, command := LocateInis(h.appData, h.moduleFileName, h.iniFiles), SkipMe(h.commandLine);
    if |h.argv| > 1 {
      var p := Argument(h, 1);
      HandleShebangNeverBadVirtualPath(h, inis, LoadCommands([], inis), p, command);
      assert ScriptRun(h, inis, p, command) != Some(Fail(RcBadVirtualPath));
      var a := ArgumentRun(h.installed, h.env, inis, |h.argv|, p, command);
      assert a != Fail(RcBadVirtualPath);
    }
  }

  /**
   * A first argument whose first unit is followed by a version tag is a
   * version qualifier whatever that first unit is: `-3`, but also `t3`
   * when no script `t3` opens.
   */
  lemma AnyQualifierPrefix(h: Host)
    requires |h.argv| > 1 && var p := Argument(h, 1);
      |p| > 1 && VersionTag(p[1..]) && p !in h.scripts
    ensures ProcessSpec(h) ==
      QualifiedRun(h.installed, h.env, LocateInis(h.appData, h.moduleFileName, h.iniFiles), Argument(h, 1),
                   SkipMe(h.commandLine))
  {
    var inis := LocateInis(h.appData, h.moduleFileName, h.iniFiles);
    var p, command := Argument(h, 1), SkipMe(h.commandLine);
    assert HandleShebangSpec(h, inis, LoadCommands([], inis), p, command).None?;
    ProcessWithoutShebang(h);
    var tag := p[1..];
    ValidateShortTag(tag);
  }

  /** When the first argument is not a script that decides the run, the argument itself decides it. */
  lemma ProcessWithoutShebang(h: Host)
    requires |h.argv| > 1
    requires (0 < |Argument(h, 1)| && Argument(h, 1)[0] == '-' as int) ||
      HandleShebangSpec(h, LocateInis(h.appData, h.moduleFileName, h.iniFiles),
                        LoadCommands([], LocateInis(h.appData, h.moduleFileName, h.iniFiles)),
                        Argument(h, 1), SkipMe(h.commandLine)).None?
    ensures ProcessSpec(h) ==
      ArgumentRun(h.installed, h.env, LocateInis(h.appData, h.moduleFileName, h.iniFiles), |h.argv|, Argument(h, 1),
                  SkipMe(h.commandLine))
  {
  }

  /**
   * A qualifier `-<tag>` runs the Python located for the tag, with the
   * qualifier and the white space after it removed from the arguments.
   */
  lemma QualifierSelectsVersion(h: Host, tag: WString, rest: WString)
    requires VersionTag(tag) && |h.argv| > 1 && Argument(h, 1) == ['-' as int] + tag
    requires SkipMe(h.commandLine) == ['-' as int] + tag + rest
    ensures var inis := LocateInis(h.appData, h.moduleFileName, h.iniFiles);
      ProcessSpec(h) == match LocatePythonSpec(h.installed, h.env, inis, tag)
        case None => Fail(RcNoPython)
        case Some(i) => Spawn(ChildCommand(h.installed[i].executable, None, TrimStart(rest)), false)
  {
    var p := Argument(h, 1);
    var command := SkipMe(h.commandLine);
    assert p[0] == '-' as int;
    ProcessWithoutShebang(h);
    ValidateShortTag(tag);
    assert p[1..] == tag;
    assert command[|p|..] == rest;
    SkipWsFrom(command, |p|);
  }

  /** Without arguments the overall default runs with the command line passed on. */
  lemma NoArgumentsRunsDefault(h: Host)
    requires |h.argv| <= 1
    ensures var inis := LocateInis(h.appData, h.moduleFileName, h.iniFiles);
      ProcessSpec(h) == match LocatePythonSpec(h.installed, h.env, inis, [])
        case None => Fail(RcNoPython)
        case Some(i) => Spawn(ChildCommand(h.installed[i].executable, None, SkipMe(h.commandLine)), false)
  {
  }

  /** A lone `-h` or `--help` prints the usage text, then runs the default Python with it. */
  lemma HelpPrintsUsage(h: Host)
    requires |h.argv| == 2 && AsksForHelp(Argument(h, 1))
    ensures var inis := LocateInis(h.appData, h.moduleFileName, h.iniFiles);
      LocatePythonSpec(h.installed, h.env, inis, []).Some? ==> ProcessSpec(h).Spawn? && ProcessSpec(h).printsUsage
    ensures var inis := LocateInis(h.appData, h.moduleFileName, h.iniFiles);
      LocatePythonSpec(h.installed, h.env, inis, []).None? ==> ProcessSpec(h) == Fail(RcNoPython)
  {
    var p := Argument(h, 1);
    AsksForHelpShape(p);
    ProcessWithoutShebang(h);
    var tag := p[1..];
    assert ValidateVersion(tag) == Some(false);
  }

  /** The script named by the first argument matters only through its first line. */
  lemma ProcessSeesFirstLine(h: Host, buf: HeadBuffer)
    requires |h.argv| > 1 && Argument(h, 1) in h.scripts && FirstLine(buf) == FirstLine(h.scripts[Argument(h, 1)])
    ensures ProcessSpec(h.(scripts := h.scripts[Argument(h, 1) := buf])) == ProcessSpec(h)
  {
    var inis := LocateInis(h.appData, h.moduleFileName, h.iniFiles);
    var p, command, cmds := Argument(h, 1), SkipMe(h.commandLine), LoadCommands([], inis);
    var h2 := h.(scripts := h.scripts[p := buf]);
    assert Argument(h2, 1) == p;
    HandleShebangSeesFirstLine(h, inis, cmds, p, command, buf);
    assert ScriptRun(h2, inis, p, command) == ScriptRun(h, inis, p, command);
  }

  /**
   * A UTF-8 byte order mark in front of a script's first line changes
   * nothing: the launcher does the same with and without it.
   */
  lemma ByteOrderMarkIsIgnored(h: Host, b: seq<Byte>, plain: HeadBuffer, marked: HeadBuffer)
    requires |h.argv| > 1 && Argument(h, 1) in h.scripts && h.scripts[Argument(h, 1)] == plain
    requires |b| + 4 <= BufSize && forall k | 0 <= k < |b| :: !IsLineEnd(b[k])
    requires plain[..|b| + 1] == b + ['\n' as int] && FirstBomFrom(plain, 0).None?
    requires marked[..|b| + 4] == [0xEF, 0xBB, 0xBF] + b + ['\n' as int]
    ensures ProcessSpec(h.(scripts := h.scripts[Argument(h, 1) := marked])) == ProcessSpec(h)
  {
    assert FirstLine(marked) == FirstLine(plain) by {
      FirstLineIgnoresUtf8Bom(b, plain, marked);
    }
    ProcessSeesFirstLine(h, marked);
  }
}
