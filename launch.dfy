/**
 * What the console and the windowed launcher share: how the child command
 * line is assembled (`invoke_child`), how the launcher's own name is
 * skipped (`skip_me`), how the first line of a script is read
 * (`maybe_handle_shebang` up to `parse_shebang`), and the small string
 * surgery `parse_shebang` and the virtual-command dispatch do in place.
 */
module Launch {
  import opened Wrappers
  import opened Wide
  import opened Encoding
  import opened Config
  import opened Catalog

  /** RC_BAD_VIRTUAL_PATH */
  const RcBadVirtualPath: int := 102
  /** RC_NO_PYTHON */
  const RcNoPython: int := 103

  /**
   * How a run of a launcher ends as far as this model follows it: a child
   * process is started with a command line (after the usage text when
   * `printsUsage`), or `error` ends the launcher with an exit code, or the C
   * code reads memory whose contents it does not define.
   */
  datatype Outcome =
    | Spawn(command: WString, printsUsage: bool)
    | Fail(code: int)
    | Undefined

  /** The inputs of a launcher run that the model keeps. */
  datatype Host = Host(
    commandLine: WString,                    // GetCommandLineW()
    argv: seq<WString>,                      // argv, argv[0] the launcher itself
    env: Environment,                        // the environment, keyed by folded name
    appData: Option<WString>,                // SHGetFolderPathW(CSIDL_APPDATA), when it succeeds
    moduleFileName: WString,                 // GetModuleFileNameW(NULL)
    iniFiles: map<WString, IniFile>,         // the ini files that exist, by path
    scripts: map<WString, HeadBuffer>,       // files that open, with what fread leaves in `buffer`
    installed: seq<Installed>,               // installed_pythons after locate_all_pythons
    versionHigh: nat, versionLow: nat)       // dwFileVersionMS / dwFileVersionLS, 0 when unavailable

  // ---------------------------------------------------------------- invoke_child

  /**
   * `invoke_child`: the executable alone when there is neither a suffix nor
   * a command line, otherwise the parts joined by single spaces.
   */
  function ChildCommand(executable: WString, suffix: Option<WString>, cmdline: WString): (c: WString)
  {
    var noSuffix := suffix.None? || |suffix.value| == 0;
    if noSuffix && |cmdline| == 0 then executable
    else if noSuffix then executable + [' ' as int] + cmdline
    else executable + [' ' as int] + suffix.value + [' ' as int] + cmdline
  }

  /** `child_command_size` as `invoke_child` computes it. */
  function ChildCommandSize(executable: WString, suffix: Option<WString>, cmdline: WString): nat {
    if suffix.None? || |suffix.value| == 0 then |executable| + |cmdline| + 2
    else |executable| + |suffix.value| + |cmdline| + 3
  }

  /**
   * The child command starts with the executable and ends with the
   * arguments passed on; when a buffer is allocated it holds the whole
   * command and its NUL exactly, so `_snwprintf_s` never truncates.
   */
  lemma ChildCommandFits(executable: WString, suffix: Option<WString>, cmdline: WString)
    ensures var c := ChildCommand(executable, suffix, cmdline);
      StartsWith(c, executable) && |cmdline| <= |c| && c[|c| - |cmdline|..] == cmdline
    ensures var c := ChildCommand(executable, suffix, cmdline);
      c != executable ==> |c| + 1 == ChildCommandSize(executable, suffix, cmdline)
    ensures var c := ChildCommand(executable, suffix, cmdline);
      suffix.Some? && |suffix.value| > 0 ==>
        c[|executable| + 1..|executable| + 1 + |suffix.value|] == suffix.value
  {
    var c := ChildCommand(executable, suffix, cmdline);
    assert c[..|executable|] == executable;
  }

  // ---------------------------------------------------------------- skip_me

  /**
   * `skip_me`: the command line after the launcher's own name, which is
   * either quoted or ends at the first space; leading white space of the
   * rest is skipped, and a command line holding only the name gives "".
   */
  function SkipMe(cmdline: WString): (r: WString)
    ensures |r| <= |cmdline| && r == cmdline[|cmdline| - |r|..]
    ensures |r| == 0 || !IsSpace(r[0])
  {
    var quoted := |cmdline| > 0 && cmdline[0] == '"' as int;
    var from := if quoted then 1 else 0;
    var c := if quoted then '"' as int else ' ' as int;
    match IndexOf(cmdline[from..], c)
    case None => []
    case Some(i) => TrimStart(cmdline[from + i + 1..])
  }

  /** An unquoted program name is skipped up to the first space. */
  lemma SkipMeUnquoted(program: WString, rest: WString)
    requires ' ' as int !in program && (|program| == 0 || program[0] != '"' as int)
    ensures SkipMe(program + [' ' as int] + rest) == TrimStart(rest)
  {
    var cl := program + [' ' as int] + rest;
    assert cl[0..] == cl && cl[..|program|] == program;
    IndexOfIs(cl, ' ' as int, |program|);
    assert cl[|program| + 1..] == rest;
  }

  /** A quoted program name is skipped up to its closing quote, spaces inside it included. */
  lemma SkipMeQuoted(program: WString, rest: WString)
    requires '"' as int !in program
    ensures SkipMe(['"' as int] + program + ['"' as int] + rest) == TrimStart(rest)
  {
    var cl := ['"' as int] + program + ['"' as int] + rest;
    assert cl[1..][..|program|] == program;
    assert cl[1..][|program|] == '"' as int;
    IndexOfIs(cl[1..], '"' as int, |program|);
    assert cl[1 + |program| + 1..] == rest;
  }

  /** A command line holding only an unquoted program name leaves nothing to pass on. */
  lemma SkipMeNameOnly(program: WString)
    requires ' ' as int !in program && (|program| == 0 || program[0] != '"' as int)
    ensures SkipMe(program) == []
  {
  }

  // ---------------------------------------------------------------- trailing white space

  /**
   * The index where `parse_shebang`'s backward scan from `e` stops: the
   * last unit in `(s, e]` that is not white space, or `s` itself.
   */
  function LastKept(buf: WString, s: nat, e: nat): (k: nat)
    requires s <= e < |buf|
    ensures s <= k <= e
    ensures forall j | k < j <= e :: IsSpace(buf[j])
    ensures k == s || !IsSpace(buf[k])
    decreases e
  {
    if e > s && IsSpace(buf[e]) then LastKept(buf, s, e - 1) else e
  }

  /**
   * The line after "remove trailing whitespace": a NUL after the last kept
   * unit, written only when that unit lies after `s`.
   */
  function TrimEnd(buf: WString, s: nat, e: nat): (t: WString)
    requires s <= e && e + 1 < |buf|
    ensures |t| == |buf|
  {
    var k := LastKept(buf, s, e);
    if k > s then buf[k + 1 := Nul] else buf
  }

  /** The trimming loop of `parse_shebang`, on the line buffer. */
  method TrimTrailing(line: array<WChar>, s: nat, e: nat)
    requires s <= e && e + 1 < line.Length
    modifies line
    ensures line[..] == TrimEnd(old(line[..]), s, e)
  {
    var endp := e;
    while endp > s && IsSpace(line[endp])
      invariant s <= endp <= e
      invariant LastKept(line[..], s, endp) == LastKept(line[..], s, e)
    {
      endp := endp - 1;
    }
    if endp > s {
      line[endp + 1] := Nul;
    }
  }

  /**
   * Trimming a line whose text from `s` is `t = buf[s..e + 1]` leaves a
   * prefix of `t` followed only by white space in `t`: every trailing space
   * is dropped, except when all of `t` after its first unit is white space,
   * where nothing is written and `t` keeps its trailing spaces.
   */
  lemma TrimEndText(buf: WString, s: nat, e: nat)
    requires s <= e && e + 1 < |buf|
    requires NoNul(buf[s..e + 1]) && buf[e + 1] == Nul
    ensures var t := buf[s..e + 1]; var r := CStrAt(TrimEnd(buf, s, e), s);
      0 < |r| && StartsWith(t, r) && forall j | |r| <= j < |t| :: IsSpace(t[j])
    ensures var t := buf[s..e + 1]; var r := CStrAt(TrimEnd(buf, s, e), s);
      (1 < |r| && !IsSpace(r[|r| - 1])) || (r == t && forall j | 1 <= j < |t| :: IsSpace(t[j]))
  {
    var n := TrimmedLen(buf, s, e);
    TrimEndReadsPrefix(buf, s, e);
    assert buf[s..s + n] == buf[s..e + 1][..n];
    TrimEndPrefixShape(buf, s, e);
    TrimmedShape(buf[s..e + 1], n);
  }

  /** How many units of `buf[s..e + 1]` are left once `TrimEnd` has written its NUL. */
  function TrimmedLen(buf: WString, s: nat, e: nat): nat
    requires s <= e < |buf|
  {
    var k := LastKept(buf, s, e);
    if s < k < e then k + 1 - s else e + 1 - s
  }

  lemma TrimEndReadsPrefix(buf: WString, s: nat, e: nat)
    requires s <= e && e + 1 < |buf|
    requires NoNul(buf[s..e + 1]) && buf[e + 1] == Nul
    ensures TrimmedLen(buf, s, e) <= e + 1 - s
    ensures CStrAt(TrimEnd(buf, s, e), s) == buf[s..s + TrimmedLen(buf, s, e)]
  {
    var k := LastKept(buf, s, e);
    CStrAtIs(buf, s, e + 1 - s);
    if s < k < e {
      TrimEndCut(buf, s, e, k);
      assert TrimEnd(buf, s, e) == buf[k + 1 := Nul];
    } else {
      assert TrimEnd(buf, s, e) == buf by {
        if k > s {
          assert buf[e + 1 := Nul] == buf;
        }
      }
    }
  }

  lemma TrimEndPrefixShape(buf: WString, s: nat, e: nat)
    requires s <= e && e + 1 < |buf|
    ensures var t := buf[s..e + 1]; var n := TrimmedLen(buf, s, e);
      && 0 < n <= |t| && (forall j | n <= j < |t| :: IsSpace(t[j]))
      && ((1 < n && !IsSpace(t[n - 1])) || (n == |t| && forall j | 1 <= j < |t| :: IsSpace(t[j])))
  {
    var t := buf[s..e + 1];
    var k := LastKept(buf, s, e);
    forall j | k + 1 - s <= j < |t| ensures IsSpace(t[j]) {
      assert t[j] == buf[s + j];
    }
    assert t[k - s] == buf[k];
  }

  /** A text cut after its last unit that is not white space, or not cut when only its first unit is not. */
  lemma TrimmedShape(t: WString, n: nat)
    requires 0 < n <= |t| && forall j | n <= j < |t| :: IsSpace(t[j])
    requires (1 < n && !IsSpace(t[n - 1])) || (n == |t| && forall j | 1 <= j < |t| :: IsSpace(t[j]))
    ensures var r := t[..n]; 0 < |r| && StartsWith(t, r) && forall j | |r| <= j < |t| :: IsSpace(t[j])
    ensures var r := t[..n]; (1 < |r| && !IsSpace(r[|r| - 1])) || (r == t && forall j | 1 <= j < |t| :: IsSpace(t[j]))
  {
  }

  /** The backward scan stops at the last unit that is not white space. */
  lemma LastKeptIs(buf: WString, s: nat, e: nat, k: nat)
    requires s <= k <= e < |buf| && !IsSpace(buf[k])
    requires forall j | k < j <= e :: IsSpace(buf[j])
    ensures LastKept(buf, s, e) == k
  {
  }

  /** Units that are neither white space nor NUL, between `s` and `e`, survive trimming. */
  lemma TrimEndKeeps(buf: WString, s: nat, e: nat, a: nat, n: nat)
    requires s <= e && e + 1 < |buf| && 0 < n && s <= a && a + n <= e + 1
    requires forall j | a <= j < a + n :: !IsSpace(buf[j]) && buf[j] != Nul
    ensures TrimEnd(buf, s, e)[a..a + n] == buf[a..a + n]
    ensures n <= |CStrAt(TrimEnd(buf, s, e), a)| && CStrAt(TrimEnd(buf, s, e), a)[..n] == buf[a..a + n]
  {
    var t := TrimEnd(buf, s, e);
    var k := LastKept(buf, s, e);
    assert !IsSpace(buf[a + n - 1]);
    assert k >= a + n - 1;
    assert t[a..a + n] == buf[a..a + n];
    CStrAtCovers(t, a, n);
  }

  /** A line whose last unit before the NUL is not white space is left as it is. */
  lemma TrimEndNothingTrailing(buf: WString, s: nat, e: nat)
    requires s <= e && e + 1 < |buf| && !IsSpace(buf[e]) && buf[e + 1] == Nul
    ensures TrimEnd(buf, s, e) == buf
  {
    assert buf[e + 1 := Nul] == buf;
  }

  lemma TrimEndCut(buf: WString, s: nat, e: nat, k: nat)
    requires s < k < e && e + 1 < |buf|
    requires NoNul(buf[s..e + 1]) && buf[e + 1] == Nul && CStrAt(buf, s) == buf[s..e + 1]
    ensures CStrAt(buf[k + 1 := Nul], s) == buf[s..k + 1]
  {
    CStrAtCut(buf, s, k + 1);
  }

  // ---------------------------------------------------------------- splitting a virtual command

  /**
   * How a virtual command is split: the command as a C string up to its
   * first space and, when there is one, the rest after it with leading white
   * space skipped.
   */
  function SplitCommand(line: WString, off: nat): (r: (WString, Option<WString>))
    requires off <= |line|
    ensures ' ' as int !in r.0 && StartsWith(CStrAt(line, off), r.0)
    ensures r.1.Some? <==> ' ' as int in CStrAt(line, off)
    ensures r.1.Some? ==> CStrAt(line, off)[..|r.0| + 1] == r.0 + [' ' as int]
    ensures r.1.Some? ==> r.1.value == TrimStart(CStrAt(line, off)[|r.0| + 1..])
    ensures r.1.None? ==> r.0 == CStrAt(line, off)
  {
    var c := CStrAt(line, off);
    var space := IndexOf(c, ' ' as int);
    if space.None? then (c, None)
    else
      var k := space.value;
      assert c[..k + 1] == c[..k] + [' ' as int];
      (c[..k], Some(TrimStart(c[k + 1..])))
  }

  /** The buffer once a NUL is written over the first space of the command at `off`, if it has one. */
  function CutAtSpace(line: WString, off: nat): (cut: WString)
    requires off <= |line|
    ensures |cut| == |line|
  {
    match IndexOf(CStrAt(line, off), ' ' as int)
    case None => line
    case Some(k) => line[off + k := Nul]
  }

  /**
   * `suffix = wcschr(command, ' ')`, a NUL written over that space, and the
   * white space after it skipped: the line afterwards reads as the command
   * at `off` and, when a space was found, the suffix at `at.value`.
   */
  method SplitAtSpace(line: array<WChar>, off: nat) returns (at: Option<nat>)
    requires off <= line.Length
    modifies line
    ensures CStrAt(line[..], off) == SplitCommand(old(line[..]), off).0
    ensures at.Some? <==> SplitCommand(old(line[..]), off).1.Some?
    ensures at.Some? ==>
      at.value <= line.Length && CStrAt(line[..], at.value) == SplitCommand(old(line[..]), off).1.value
    ensures line[..] == CutAtSpace(old(line[..]), off)
  {
    ghost var before := line[..];
    var c := CStrAt(line[..], off);
    var found := IndexOf(c, ' ' as int);
    if found.None? {
      NoSpaceSplit(before, off);
      return None;
    }
    var k := found.value;
    SpaceSplit(before, off, k);
    SpaceCut(before, off, k);
    line[off + k] := Nul;
    ghost var after := line[..];
    assert after == before[off + k := Nul];
    SplitAtSpaceReads(before, after, off, k);
    var j := SkipWhitespace(line[..], off + k + 1);
    assert j == SkipWs(after, off + k + 1);
    at := Some(j);
  }

  /** `SplitCommand` and `CutAtSpace` when the command has no space. */
  lemma NoSpaceSplit(line: WString, off: nat)
    requires off <= |line| && IndexOf(CStrAt(line, off), ' ' as int).None?
    ensures SplitCommand(line, off) == (CStrAt(line, off), None)
    ensures CutAtSpace(line, off) == line
  {
  }

  /** `SplitCommand` and `CutAtSpace` when the first space of the command is at `k`. */
  lemma SpaceSplit(line: WString, off: nat, k: nat)
    requires off <= |line| && IndexOf(CStrAt(line, off), ' ' as int) == Some(k)
    ensures k < |CStrAt(line, off)|
    ensures SplitCommand(line, off) == (CStrAt(line, off)[..k], Some(TrimStart(CStrAt(line, off)[k + 1..])))
  {
    var c := CStrAt(line, off);
    assert SplitCommand(line, off) == (c[..k], Some(TrimStart(c[k + 1..])));
  }

  /** `CutAtSpace` when the first space of the command is at `k`. */
  lemma SpaceCut(line: WString, off: nat, k: nat)
    requires off <= |line| && IndexOf(CStrAt(line, off), ' ' as int) == Some(k)
    ensures CutAtSpace(line, off) == line[off + k := Nul]
  {
  }

  /** What the line reads as after a NUL is written inside the command, at its first space. */
  lemma SplitAtSpaceReads(before: WString, after: WString, off: nat, k: nat)
    requires off <= |before| && k < |CStrAt(before, off)| && after == before[off + k := Nul]
    ensures off + k + 1 <= |after|
    ensures CStrAt(after, off) == CStrAt(before, off)[..k]
    ensures CStrAt(after, SkipWs(after, off + k + 1)) == TrimStart(CStrAt(before, off)[k + 1..])
  {
    CStrAtCutAt(before, off, k);
    SkipWsReadsTrimmed(after, off + k + 1, CStrAt(before, off)[k + 1..]);
  }

  /** Skipping the white space at `p` reads the string at `p` with its leading white space trimmed. */
  lemma SkipWsReadsTrimmed(buf: WString, p: nat, rest: WString)
    requires p <= |buf| && CStrAt(buf, p) == rest
    ensures CStrAt(buf, SkipWs(buf, p)) == TrimStart(rest)
  {
    SkipWsInCStr(buf, p);
  }

  // ---------------------------------------------------------------- the first line

  /**
   * The first line of a script as `maybe_handle_shebang` decodes it: the
   * encoding a BOM announces (UTF-8 without one), the bytes from after the
   * BOM up to and including the first line's terminator, converted to
   * code units. The BOM is matched on all its bytes and the terminator is
   * looked for inside the buffer only, the corrections of the two defects
   * in `find_BOM` and `find_terminator` described in `Encoding`.
   */
  function FirstLine(buf: HeadBuffer): (h: Header)
    ensures h.Line? ==> 0 < |h.units| <= BufSize
  {
    var bom := FirstBomFrom(buf, 0);
    var codePage := if bom.None? then CpUtf8 else Boms[bom.value].codePage;
    var start := if bom.None? then 0 else |Boms[bom.value].sequence|;
    match TerminatorEnd(buf, start, codePage)
    case None => NoLine
    case Some(end) =>
      assert start <= end by {
        assert LineEndIn(buf, start, |buf|).Some?;
      }
      DecodeHeader(buf, start, end, codePage)
  }

  /**
   * The decoding part of `maybe_handle_shebang`, writing the line's code
   * units into a fresh `shebang_line` buffer: UTF-8 and UTF-16LE are
   * converted or copied, UTF-16BE is byte-swapped in place.
   */
  method DecodeFirstLine(buf: HeadBuffer) returns (h: Header, line: array<WChar>)
    ensures h == FirstLine(buf)
    ensures fresh(line)
    ensures h.Line? ==> line[..] == h.units
  {
    var bom := FindBom(buf);
    var codePage := if bom.None? then CpUtf8 else Boms[bom.value].codePage;
    var start := if bom.None? then 0 else |Boms[bom.value].sequence|;
    var p := FindTerminator(buf, start, codePage);
    line := new WChar[0];
    if p.None? {
      return NoLine, line;
    }
    var end := p.value;
    assert start <= end by {
      assert LineEndIn(buf, start, |buf|).Some?;
    }
    h := DecodeHeader(buf, start, end, codePage);
    if h.Line? {
      line := StoreLine(buf, start, end, codePage);
    }
  }

  /** Writing a decoded line into a fresh `shebang_line` buffer: UTF-16BE is byte-swapped in place, the rest is converted or copied. */
  method StoreLine(buf: HeadBuffer, start: nat, end: nat, codePage: int) returns (line: array<WChar>)
    requires start <= end && DecodeHeader(buf, start, end, codePage).Line?
    ensures fresh(line)
    ensures line[..] == DecodeHeader(buf, start, end, codePage).units
  {
    if codePage == CpUtf16Be {
      line := new WChar[(end - start) / 2];
      SwapUtf16Be(buf[start..end], line);
    } else {
      var u := DecodeHeader(buf, start, end, codePage).units;
      line := new WChar[|u|](i requires 0 <= i < |u| => u[i]);
    }
  }

  /**
   * A UTF-8 BOM does not change the line read: a script whose first line
   * `b` ends in LF is read the same with or without the BOM in front.
   */
  lemma FirstLineIgnoresUtf8Bom(b: seq<Byte>, plain: HeadBuffer, marked: HeadBuffer)
    requires |b| + 4 <= BufSize && forall k | 0 <= k < |b| :: !IsLineEnd(b[k])
    requires plain[..|b| + 1] == b + ['\n' as int] && FirstBomFrom(plain, 0).None?
    requires marked[..|b| + 4] == [0xEF, 0xBB, 0xBF] + b + ['\n' as int]
    ensures FirstLine(plain) == FirstLine(marked) == Line(Utf8Decode(b + ['\n' as int]))
  {
    Utf8FirstLine(plain, 0, b);
    assert HasPrefix(marked, Boms[0].sequence) by {
      assert marked[..3] == marked[..|b| + 4][..3];
    }
    assert FirstBomFrom(marked, 0) == Some(0);
    assert marked[3..|b| + 4] == b + ['\n' as int] by {
      assert marked[3..|b| + 4] == marked[..|b| + 4][3..];
    }
    Utf8FirstLine(marked, 3, b);
  }

  /** A UTF-8 first line `b` + LF, with no BOM before it or the UTF-8 BOM, is read as that line. */
  lemma Utf8FirstLine(buf: HeadBuffer, start: nat, b: seq<Byte>)
    requires (start == 0 && FirstBomFrom(buf, 0).None?) || (start == 3 && FirstBomFrom(buf, 0) == Some(0))
    requires start + |b| + 1 <= BufSize && forall k | 0 <= k < |b| :: !IsLineEnd(b[k])
    requires buf[start..start + |b| + 1] == b + ['\n' as int]
    ensures FirstLine(buf) == Line(Utf8Decode(b + ['\n' as int]))
  {
    Utf8LineAt(buf, start, b);
    Utf8DecodeAt(buf, start, b);
    assert Boms[0].codePage == CpUtf8 && |Boms[0].sequence| == 3;
    assert FirstLine(buf) == DecodeHeader(buf, start, start + |b| + 1, CpUtf8);
  }

  /** A line `b` + LF at `start` ends where the terminator search says. */
  lemma Utf8LineAt(buf: HeadBuffer, start: nat, b: seq<Byte>)
    requires start + |b| + 1 <= BufSize && forall k | 0 <= k < |b| :: !IsLineEnd(b[k])
    requires buf[start..start + |b| + 1] == b + ['\n' as int]
    ensures TerminatorEnd(buf, start, CpUtf8) == Some(start + |b| + 1)
  {
    assert buf[start + |b|] == buf[start..start + |b| + 1][|b|];
    forall k | start <= k < start + |b| ensures !IsLineEnd(buf[k]) {
      assert buf[k] == buf[start..start + |b| + 1][k - start];
    }
    LineEndInIsFirst(buf, start, |buf|, start + |b|);
  }

  /** ... and decodes as that line. */
  lemma Utf8DecodeAt(buf: HeadBuffer, start: nat, b: seq<Byte>)
    requires start + |b| + 1 <= BufSize
    requires buf[start..start + |b| + 1] == b + ['\n' as int]
    ensures DecodeHeader(buf, start, start + |b| + 1, CpUtf8) == Line(Utf8Decode(b + ['\n' as int]))
  {
  }
}
