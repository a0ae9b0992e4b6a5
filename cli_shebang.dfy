/**
 * `parse_shebang` of the console launcher: the `#!` line is matched
 * against the builtin virtual paths, then against the aliases of the
 * `[commands]` sections; trailing white space is cut off in place.
 */
module CliShebang {
  import opened Wrappers
  import opened Wide
  import opened Commands
  import opened Launch

  /** builtin_virtual_paths, in the order they are tried. */
  const Builtins: seq<WString> := [UsrBinEnv + Python, UsrBin + Python, UsrLocalBin + Python, Python]

  /** "/usr/bin/env " */
  const UsrBinEnv: WString :=
    ['/' as int, 'u' as int, 's' as int, 'r' as int, '/' as int, 'b' as int, 'i' as int, 'n' as int, '/' as int, 'e' as int, 'n' as int, 'v' as int, ' ' as int]
  /** "/usr/bin/" */
  const UsrBin: WString := ['/' as int, 'u' as int, 's' as int, 'r' as int, '/' as int, 'b' as int, 'i' as int, 'n' as int, '/' as int]
  /** "/usr/local/bin/" */
  const UsrLocalBin: WString :=
    ['/' as int, 'u' as int, 's' as int, 'r' as int, '/' as int, 'l' as int, 'o' as int, 'c' as int, 'a' as int, 'l' as int, '/' as int, 'b' as int, 'i' as int, 'n' as int, '/' as int]

  /** The units that end an alias name. */
  const Separators: WString := [' ' as int, '\t' as int, '\r' as int, '\n' as int]

  const Python: WString := ['p' as int, 'y' as int, 't' as int, 'h' as int, 'o' as int, 'n' as int]

  /** The first builtin virtual path, from the `i`-th on, that `text` starts with. */
  function FirstBuiltin(text: WString, i: nat): (r: Option<nat>)
    requires i <= |Builtins|
    ensures r.Some? ==> i <= r.value < |Builtins| && StartsWith(text, Builtins[r.value])
    ensures r.Some? ==> forall j | i <= j < r.value :: !StartsWith(text, Builtins[j])
    ensures r.None? <==> forall j | i <= j < |Builtins| :: !StartsWith(text, Builtins[j])
    decreases |Builtins| - i
  {
    if i == |Builtins| then None
    else if StartsWith(text, Builtins[i]) then Some(i)
    else FirstBuiltin(text, i + 1)
  }

  /** "We can do this because all builtin commands contain python": each one ends with it. */
  lemma BuiltinsEndWithPython()
    ensures forall j | 0 <= j < |Builtins| :: OccursAt(Builtins[j], Python, |Builtins[j]| - |Python|)
  {
    assert OccursAt(Builtins[0], Python, 13);
    assert OccursAt(Builtins[1], Python, 9);
    assert OccursAt(Builtins[2], Python, 15);
    assert OccursAt(Builtins[3], Python, 0);
  }

  /** A text that starts with a builtin path holds "python" no later than where that path's own "python" lies. */
  lemma PythonInBuiltinText(text: WString, j: nat)
    requires j < |Builtins| && StartsWith(text, Builtins[j])
    ensures FindSub(text, Python).Some?
    ensures FindSub(text, Python).value + |Python| <= |Builtins[j]|
  {
    BuiltinsEndWithPython();
    var b := Builtins[j];
    var at := |b| - |Python|;
    assert text[at..at + |Python|] == b[at..at + |Python|];
    assert OccursAt(text, Python, at);
  }

  /** Where `parse_shebang` found the command. */
  datatype CommandRef =
    | InLine(offset: nat)     // a C string inside the line buffer
    | Alias(value: WString)   // the value of a `[commands]` entry

  /**
   * What `parse_shebang` reports: whether the command is virtual, the
   * command and suffix pointers (suffix only after an alias), and the line
   * buffer as it leaves it.
   */
  datatype Parsed = Parsed(isVirtual: bool, command: Option<CommandRef>, suffix: Option<nat>, line: WString)

  /** The line buffer as `maybe_handle_shebang` passes it: its last unit is the NUL written over the terminator. */
  predicate Terminated(line: WString) {
    |line| > 0 && line[|line| - 1] == Nul
  }

  /** "python" stands at `a` in the line. */
  predicate PythonAt(line: WString, a: nat) {
    a + |Python| <= |line| && line[a..a + |Python|] == Python
  }

  /** "python" found in the C string at `s` stands at the matching index of the line. */
  lemma PythonInCStr(line: WString, s: nat, f: nat)
    requires s <= |line| && OccursAt(CStrAt(line, s), Python, f)
    ensures f + |Python| <= |CStrAt(line, s)| && PythonAt(line, s + f)
  {
    SliceOfSlice(line, s, |CStrAt(line, s)|, f, |Python|);
  }

  /**
   * What `parse_shebang` makes of the text at `s`: a text starting with a
   * builtin path is virtual, its command at the first "python"; otherwise
   * the text up to the first separator is looked up as an alias, whose
   * value becomes the command and whose suffix is the rest of the line
   * after white space; otherwise the text itself is the command.
   */
  function Recognise(line: WString, s: nat, cmds: seq<Command>): (r: (bool, CommandRef, Option<nat>))
    requires s < |line| && line[s] != Nul
    ensures r.1.InLine? ==> s <= r.1.offset < s + |CStrAt(line, s)|
    ensures r.2.Some? ==> s <= r.2.value <= |line| && r.1.Alias?
    ensures r.0 ==> r.1.InLine? && r.1.offset + |Python| <= s + |CStrAt(line, s)|
    ensures r.0 ==> PythonAt(line, r.1.offset)
  {
    var text := CStrAt(line, s);
    var builtin := FirstBuiltin(text, 0);
    if builtin.Some? then
      PythonInBuiltinText(text, builtin.value);
      var f := FindSub(text, Python).value;
      PythonInCStr(line, s, f);
      (true, InLine(s + f), None)
    else
      var n := RecogniseName(line, s, cmds);
      (false, n.0, n.1)
  }

  /**
   * The alias lookup of `parse_shebang`: the text up to the first
   * separator is looked up; an alias's value is the command and the rest
   * of the line after white space its suffix; otherwise the text itself is
   * the command.
   */
  function RecogniseName(line: WString, s: nat, cmds: seq<Command>): (r: (CommandRef, Option<nat>))
    requires s < |line| && line[s] != Nul
    ensures r.0.InLine? ==> r.0.offset == s && r.1.None?
    ensures r.1.Some? ==> s <= r.1.value <= |line| && r.0.Alias?
  {
    var text := CStrAt(line, s);
    var sep := IndexOfAny(text, Separators);
    var name := if sep.Some? then text[..sep.value] else text;
    var cp := FindIn(cmds, name, 0);
    if cp.None? then (InLine(s), None)
    else
      var suffix := if sep.Some? then Some(SkipWs(line, s + sep.value)) else None;
      (Alias(cmds[cp.value].value), suffix)
  }

  /**
   * `parse_shebang(line, |line| - 1, ...)`: nothing unless the line starts
   * with `#!` and has text after the white space that follows; then the
   * text is recognised and the trailing white space cut off.
   */
  function ParseShebangSpec(line: WString, cmds: seq<Command>): (p: Parsed)
    requires Terminated(line)
    ensures |p.line| == |line| && Terminated(p.line)
    ensures p.command.None? ==> !p.isVirtual && p.suffix.None? && p.line == line
    ensures p.command.Some? && p.command.value.InLine? ==> p.command.value.offset < |line|
    ensures p.suffix.Some? ==> p.suffix.value < |line| && p.command.Some? && p.command.value.Alias?
    ensures p.isVirtual ==> p.command.Some? && p.command.value.InLine?
  {
    if line[0] != '#' as int || line[1] != '!' as int then Parsed(false, None, None, line)
    else
      var s := SkipWs(line, 2);
      if line[s] == Nul then Parsed(false, None, None, line)
      else
        var r := Recognise(line, s, cmds);
        Parsed(r.0, Some(r.1), r.2, TrimEnd(line, s, |line| - 2))
  }

  /** A recognised builtin path has its "python" inside the text. */
  lemma RecognisedPython(line: WString, s: nat, cmds: seq<Command>)
    requires s < |line| && line[s] != Nul && Recognise(line, s, cmds).0
    ensures var a := Recognise(line, s, cmds).1.offset;
      s <= a && a + |Python| <= s + |CStrAt(line, s)| && PythonAt(line, a)
  {
  }

  /** A virtual command is the "python" inside the text after `#!` and white space; the line is trimmed after it. */
  lemma ParseVirtualFacts(line: WString, cmds: seq<Command>)
    requires Terminated(line) && ParseShebangSpec(line, cmds).isVirtual
    ensures 2 <= |line|
    ensures var s, a := SkipWs(line, 2), ParseShebangSpec(line, cmds).command.value.offset;
      s <= a && a + |Python| <= |line| - 1 && PythonAt(line, a) &&
      ParseShebangSpec(line, cmds).line == TrimEnd(line, s, |line| - 2)
  {
    var s := SkipWs(line, 2);
    assert line[0] == '#' as int && line[1] == '!' as int && line[s] != Nul;
    ParseShape(line, cmds);
    RecognisedPython(line, s, cmds);
    TextInsideLine(line, s);
  }

  /**
   * `parse_shebang` on the line buffer, with the alias table: the text is
   * recognised, then the trailing white space is cut off in place.
   */
  method ParseShebang(line: array<WChar>, nchars: nat, table: CommandTable)
    returns (isVirtual: bool, command: Option<CommandRef>, suffix: Option<nat>)
    requires nchars + 1 == line.Length && line[nchars] == Nul && table.Valid()
    modifies line
    ensures var p := ParseShebangSpec(old(line[..]), table.Contents());
      isVirtual == p.isVirtual && command == p.command && suffix == p.suffix && line[..] == p.line
  {
    isVirtual, command, suffix := false, None, None;
    if line[0] != '#' as int || line[1] != '!' as int {
      return;
    }
    var s := SkipWhitespace(line[..], 2);
    if line[s] == Nul {
      return;
    }
    var c;
    isVirtual, c, suffix := RecogniseText(line, s, table);
    command := Some(c);
    TrimTrailing(line, s, nchars - 1);
  }

  /**
   * The builtin loop and the alias lookup of `parse_shebang`; the NUL put
   * after an alias name for the lookup is taken away again.
   */
  method RecogniseText(line: array<WChar>, s: nat, table: CommandTable)
    returns (isVirtual: bool, command: CommandRef, suffix: Option<nat>)
    requires s < line.Length && line[s] != Nul && table.Valid()
    modifies line
    ensures line[..] == old(line[..])
    ensures isVirtual == Recognise(line[..], s, table.Contents()).0
    ensures command == Recognise(line[..], s, table.Contents()).1
    ensures suffix == Recognise(line[..], s, table.Contents()).2
  {
    var text := CStrAt(line[..], s);
    var builtin := MatchBuiltin(text);
    if builtin.Some? {
      PythonInBuiltinText(text, builtin.value);
      return true, InLine(s + FindSub(text, Python).value), None;
    }
    isVirtual := false;
    command, suffix := LookupAlias(line, s, table);
  }

  /**
   * The alias part of `parse_shebang`: the name read with a NUL over the
   * separator, looked up, and the suffix found after white space.
   */
  method LookupAlias(line: array<WChar>, s: nat, table: CommandTable)
    returns (command: CommandRef, suffix: Option<nat>)
    requires s < line.Length && line[s] != Nul && table.Valid()
    modifies line
    ensures line[..] == old(line[..])
    ensures command == RecogniseName(line[..], s, table.Contents()).0
    ensures suffix == RecogniseName(line[..], s, table.Contents()).1
  {
    ghost var expected := RecogniseName(line[..], s, table.Contents());
    var sep := IndexOfAny(CStrAt(line[..], s), Separators);
    var name := LookupName(line, s, sep);
    var cp := table.FindCommand(name);
    if cp.None? {
      return InLine(s), None;
    }
    assert table.commands[cp.value].value == table.Contents()[cp.value].value;
    command, suffix := Alias(table.commands[cp.value].value), None;
    if sep.Some? {
      var q := SkipWhitespace(line[..], s + sep.value);
      suffix := Some(q);
    }
  }

  /** The loop over builtin_virtual_paths, comparing each with `wcsncmp` over its own length. */
  method MatchBuiltin(text: WString) returns (r: Option<nat>)
    ensures r == FirstBuiltin(text, 0)
  {
    var i := 0;
    while i < |Builtins|
      invariant 0 <= i <= |Builtins|
      invariant FirstBuiltin(text, i) == FirstBuiltin(text, 0)
    {
      AgreeUpToWhole(text, Builtins[i]);
      if AgreeUpTo(text, Builtins[i], |Builtins[i]|) {
        return Some(i);
      }
      i := i + 1;
    }
    return None;
  }

  /**
   * The alias name as `parse_shebang` looks it up: a NUL written over the
   * separator, the C string read, and the zapped unit put back.
   */
  method LookupName(line: array<WChar>, s: nat, sep: Option<nat>) returns (name: WString)
    requires s <= line.Length
    requires sep.Some? ==> sep.value < |CStrAt(line[..], s)|
    modifies line
    ensures line[..] == old(line[..])
    ensures name == if sep.Some? then CStrAt(line[..], s)[..sep.value] else CStrAt(line[..], s)
  {
    if sep.None? {
      return CStrAt(line[..], s);
    }
    ghost var before := line[..];
    var p := s + sep.value;
    var zapped := line[p];
    line[p] := Nul;
    CStrAtCut(before, s, p);
    assert line[..] == before[p := Nul];
    name := CStrAt(line[..], s);
    line[p] := zapped;
    assert line[..] == before;
  }

  // ---------------------------------------------------------------- what parsing yields

  /** "python" holds no unit that is white space or NUL. */
  lemma PythonIsPlain()
    ensures forall j | 0 <= j < |Python| :: !IsSpace(Python[j]) && Python[j] != Nul
    ensures ' ' as int !in Python
  {
  }

  /** No builtin path holds a 'p' before its final "python". */
  lemma BuiltinsHaveNoEarlierP()
    ensures forall j, k | 0 <= j < |Builtins| && 0 <= k < |Builtins[j]| - |Python| :: Builtins[j][k] != 'p' as int
  {
  }

  /** The C string at `s` of a terminated line stops before the final NUL. */
  lemma TextInsideLine(line: WString, s: nat)
    requires Terminated(line) && s <= |line|
    ensures s + |CStrAt(line, s)| <= |line| - 1 || (s == |line| && |CStrAt(line, s)| == 0)
  {
  }

  /** How a line that `#!` and some text start is parsed. */
  lemma ParseShape(line: WString, cmds: seq<Command>)
    requires Terminated(line) && line[0] == '#' as int && line[1] == '!' as int
    requires line[SkipWs(line, 2)] != Nul
    ensures var s := SkipWs(line, 2); var r := Recognise(line, s, cmds);
      ParseShebangSpec(line, cmds) == Parsed(r.0, Some(r.1), r.2, TrimEnd(line, s, |line| - 2))
  {
  }

  /** A C string that starts with "python" still does once cut at its first space. */
  lemma SplitKeepsPython(t: WString, a: nat)
    requires a <= |t| && StartsWith(CStrAt(t, a), Python)
    ensures StartsWith(SplitCommand(t, a).0, Python)
  {
    var c := CStrAt(t, a);
    PythonIsPlain();
    var sp := IndexOf(c, ' ' as int);
    if sp.Some? {
      assert forall i | 0 <= i < |Python| :: c[i] != ' ' as int;
      assert sp.value >= |Python|;
      assert SplitCommand(t, a).0 == c[..sp.value];
      assert c[..sp.value][..|Python|] == c[..|Python|];
    }
  }

  /**
   * A virtual command always starts with "python", even after trimming
   * and after being cut at its first space: the console launcher can never
   * report an unknown virtual path (RC_BAD_VIRTUAL_PATH).
   */
  lemma VirtualCommandIsPython(line: WString, cmds: seq<Command>)
    requires Terminated(line)
    requires ParseShebangSpec(line, cmds).isVirtual
    ensures var p := ParseShebangSpec(line, cmds);
      StartsWith(SplitCommand(p.line, p.command.value.offset).0, Python)
  {
    ParseVirtualFacts(line, cmds);
    TrimmedKeepsPython(line, SkipWs(line, 2), ParseShebangSpec(line, cmds).command.value.offset);
  }

  /** "python" inside the text survives the trimming of the text's end and the cut at its first space. */
  lemma TrimmedKeepsPython(line: WString, s: nat, a: nat)
    requires 2 <= |line| && s <= a && a + |Python| <= |line| - 1 && PythonAt(line, a)
    ensures StartsWith(SplitCommand(TrimEnd(line, s, |line| - 2), a).0, Python)
  {
    PythonIsPlain();
    forall j | a <= j < a + |Python|
      ensures !IsSpace(line[j]) && line[j] != Nul
    {
      assert line[j] == line[a..a + |Python|][j - a] == Python[j - a];
    }
    TrimEndKeeps(line, s, |line| - 2, a, |Python|);
    SplitKeepsPython(TrimEnd(line, s, |line| - 2), a);
  }

  /** The line buffer of a script whose first line is `#!` and `text`. */
  function ShebangLine(text: WString): (line: WString)
    ensures Terminated(line) && |line| == |text| + 3
    ensures line[0] == '#' as int && line[1] == '!' as int && line[2..2 + |text|] == text
  {
    var line := ['#' as int, '!' as int] + text + [Nul];
    assert line[2..2 + |text|] == text;
    line
  }

  /** The line buffer of `#!` and `text` once trailing white space after the text's start is cut off. */
  function TrimmedShebang(text: WString): (t: WString)
    requires 0 < |text|
    ensures |t| == |text| + 3
  {
    var line := ShebangLine(text);
    TrimEnd(line, 2, |line| - 2)
  }

  /** The trimmed line is the shebang line trimmed from after `#!` up to the unit before its NUL. */
  lemma TrimmedShebangIs(text: WString)
    requires 0 < |text|
    ensures TrimmedShebang(text) == TrimEnd(ShebangLine(text), 2, |text| + 1)
  {
  }

  /** A `#!` line whose text starts at once: the text is the C string at 2. */
  lemma ShebangLineText(text: WString)
    requires 0 < |text| && NoNul(text) && !IsSpace(text[0])
    ensures var line := ShebangLine(text);
      line[0] == '#' as int && line[1] == '!' as int && SkipWs(line, 2) == 2 && CStrAt(line, 2) == text && line[2] != Nul
  {
    var line := ShebangLine(text);
    assert line[2] == text[0];
    assert line[0] == '#' as int && line[1] == '!' as int by {
      assert line[..2][0] == line[0] && line[..2][1] == line[1];
    }
    SkipWsIs(line, 2, 2);
    CStrAtIs(line, 2, |text|);
  }

  /** The text of a `#!` line sits from index 2 on. */
  lemma ShebangLineAt(text: WString, k: nat)
    requires k < |text|
    ensures ShebangLine(text)[2 + k] == text[k]
  {
    assert ShebangLine(text)[2 + k] == ShebangLine(text)[2..2 + |text|][k];
  }

  /** One unit of white space inside the text of a `#!` line is skipped, and no more. */
  lemma ShebangLineSpace(text: WString, n: nat)
    requires n + 1 < |text| && IsSpace(text[n]) && !IsSpace(text[n + 1])
    ensures SkipWs(ShebangLine(text), 2 + n) == 3 + n
  {
    ShebangLineAt(text, n);
    ShebangLineAt(text, n + 1);
    SkipWsOne(ShebangLine(text), 2 + n);
  }

  /** A tail of the text of a `#!` line without NUL reads as a C string up to the line's terminator. */
  lemma ShebangLineTail(text: WString, f: nat)
    requires f <= |text| && NoNul(text[f..])
    ensures CStrAt(ShebangLine(text), 2 + f) == text[f..]
  {
    var line := ShebangLine(text);
    SliceOfSlice(line, 2, |text|, f, |text| - f);
    assert line[2..2 + |text|][f..|text|] == text[f..];
    CStrAtIs(line, 2 + f, |text| - f);
  }

  /** A `#!` line whose text starts at once is recognised from index 2. */
  lemma ShebangLineParse(text: WString, cmds: seq<Command>)
    requires 0 < |text| && NoNul(text) && !IsSpace(text[0])
    ensures var line := ShebangLine(text);
      SkipWs(line, 2) == 2 && CStrAt(line, 2) == text && line[2] != Nul
    ensures var line := ShebangLine(text); var p := ParseShebangSpec(line, cmds);
      var r := Recognise(line, 2, cmds);
      p.isVirtual == r.0 && p.command == Some(r.1) && p.suffix == r.2 && p.line == TrimEnd(line, 2, |text| + 1)
  {
    ShebangLineText(text);
    ParseShape(ShebangLine(text), cmds);
  }

  /** In a text that starts with a builtin path the first "python" is that path's own. */
  lemma PythonOfBuiltin(j: nat, rest: WString)
    requires j < |Builtins|
    ensures FirstBuiltin(Builtins[j] + rest, 0).Some?
    ensures FindSub(Builtins[j] + rest, Python) == Some(|Builtins[j]| - |Python|)
  {
    var b := Builtins[j];
    var text := b + rest;
    assert text[..|b|] == b;
    BuiltinsEndWithPython();
    BuiltinsHaveNoEarlierP();
    var at := |b| - |Python|;
    assert text[at..at + |Python|] == b[at..at + |Python|];
    assert OccursAt(text, Python, at);
    forall k | 0 <= k < at
      ensures !OccursAt(text, Python, k)
    {
      assert text[k] == b[k] != Python[0];
    }
  }

  /** "python" and `v` stand at `a`, a NUL right after them. */
  predicate PythonTailAt(t: WString, a: nat, v: WString) {
    a + |Python| + |v| < |t| && t[a..a + |Python| + |v|] == Python + v && t[a + |Python| + |v|] == Nul
  }

  /** The command at `a`, cut at its first space, is "python" and `v`, with no suffix. */
  predicate SplitsAsPython(t: WString, a: nat, v: WString)
    requires a <= |t|
  {
    SplitCommand(t, a).0 == Python + v && SplitCommand(t, a).1.None?
  }

  /** Cutting a line after "python" and a tail without white space leaves them as one command. */
  lemma SplitPythonTail(t: WString, a: nat, v: WString)
    requires PythonTailAt(t, a, v)
    requires NoNul(v) && forall i | 0 <= i < |v| :: !IsSpace(v[i])
    ensures SplitsAsPython(t, a, v)
  {
    PythonIsPlain();
    var n := |Python| + |v|;
    assert forall i | 0 <= i < n :: (Python + v)[i] != Nul && (Python + v)[i] != ' ' as int;
    CStrAtIs(t, a, n);
    assert ' ' as int !in Python + v;
  }

  /** Builtin paths hold no NUL and do not start with white space. */
  lemma BuiltinsArePlain()
    ensures forall j | 0 <= j < |Builtins| :: NoNul(Builtins[j]) && 0 < |Builtins[j]| && !IsSpace(Builtins[j][0])
  {
  }

  /** A builtin path, a tail without NUL and white space: no NUL, and no white space first. */
  lemma BuiltinLineText(b: WString, v: WString, w: WString)
    requires NoNul(b) && 0 < |b| && !IsSpace(b[0]) && NoNul(v)
    requires forall i | 0 <= i < |w| :: IsSpace(w[i])
    ensures NoNul(b + v + w) && !IsSpace((b + v + w)[0])
  {
    var text := b + v + w;
    forall i | 0 <= i < |text|
      ensures text[i] != Nul
    {
      if i < |b| {
        assert text[i] == b[i];
      } else if i < |b| + |v| {
        assert text[i] == v[i - |b|];
      } else {
        assert text[i] == w[i - |b| - |v|];
      }
    }
    assert text[0] == b[0];
  }

  /** `b` ends in "python". */
  predicate EndsWithPython(b: WString) {
    |Python| <= |b| && b[|b| - |Python|..] == Python
  }

  /** Each builtin path ends in "python". */
  lemma BuiltinEndsWithPython(j: nat)
    requires j < |Builtins|
    ensures EndsWithPython(Builtins[j])
  {
    BuiltinsEndWithPython();
    assert OccursAt(Builtins[j], Python, |Builtins[j]| - |Python|);
  }

  /** A text whose last unit outside white space is at `n - 1` is trimmed by a NUL just after it. */
  lemma TrimmedShebangAt(text: WString, n: nat)
    requires 1 < n <= |text| && !IsSpace(text[n - 1])
    requires forall i | n <= i < |text| :: IsSpace(text[i])
    ensures TrimmedShebang(text) == ShebangLine(text)[n + 2 := Nul]
  {
    var line := ShebangLine(text);
    ShebangLineAt(text, n - 1);
    forall i | n + 1 < i <= |text| + 1
      ensures IsSpace(line[i])
    {
      ShebangLineAt(text, i - 2);
    }
    LastKeptIs(line, 2, |text| + 1, n + 1);
  }

  /** Trimming `#!` + builtin path + `v` + white space leaves "python" and `v` as a C string. */
  lemma BuiltinLineTrim(b: WString, v: WString, w: WString)
    requires EndsWithPython(b)
    requires forall i | 0 <= i < |v| :: !IsSpace(v[i])
    requires forall i | 0 <= i < |w| :: IsSpace(w[i])
    ensures PythonTailAt(TrimmedShebang(b + v + w), 2 + |b| - |Python|, v)
  {
    var text := b + v + w;
    var n := |b| + |v|;
    assert !IsSpace(text[n - 1]) by {
      if |v| > 0 {
        assert text[n - 1] == v[|v| - 1];
      } else {
        assert text[n - 1] == b[|b| - 1] == Python[|Python| - 1];
      }
    }
    forall i | n <= i < |text|
      ensures IsSpace(text[i])
    {
      assert text[i] == w[i - n];
    }
    TrimmedShebangAt(text, n);
    var a := 2 + |b| - |Python|;
    assert text[a - 2..n] == Python + v by {
      assert text[a - 2..n] == b[|b| - |Python|..] + v;
    }
    CutShebangTail(text, n, a - 2);
  }

  /** Cut by a NUL after `n` units of text, the line holds from `2 + f` the text from `f` to `n`, then NUL. */
  lemma CutShebangTail(text: WString, n: nat, f: nat)
    requires f <= n <= |text|
    ensures var t := ShebangLine(text)[n + 2 := Nul];
      t[2 + f..2 + n] == text[f..n] && t[2 + n] == Nul
  {
    var line := ShebangLine(text);
    SliceOfSlice(line, 2, |text|, f, n - f);
  }

  /** The line parses as virtual, leaving the trimmed line `t` with the command at offset `a`. */
  predicate ParsedVirtualAs(line: WString, cmds: seq<Command>, t: WString, a: nat) {
    Terminated(line) && ParseShebangSpec(line, cmds).isVirtual &&
    ParseShebangSpec(line, cmds).command == Some(InLine(a)) && ParseShebangSpec(line, cmds).line == t
  }

  /** A line that starts with `#!` and a builtin path is virtual, its command at the path's "python". */
  lemma BuiltinParsed(j: nat, v: WString, w: WString, cmds: seq<Command>)
    requires j < |Builtins| && NoNul(v)
    requires forall i | 0 <= i < |w| :: IsSpace(w[i])
    ensures |Python| <= |Builtins[j]|
    ensures ParsedVirtualAs(ShebangLine(Builtins[j] + v + w), cmds, TrimmedShebang(Builtins[j] + v + w),
                            2 + |Builtins[j]| - |Python|)
  {
    BuiltinTextFacts(j, v, w);
    ParsedBuiltinText(Builtins[j] + v + w, cmds, |Builtins[j]| - |Python|);
  }

  /** A builtin path followed by `v` and white space `w`: what `ParsedBuiltinText` needs of it. */
  lemma BuiltinTextFacts(j: nat, v: WString, w: WString)
    requires j < |Builtins| && NoNul(v)
    requires forall i | 0 <= i < |w| :: IsSpace(w[i])
    ensures var text := Builtins[j] + v + w;
      && |Python| <= |Builtins[j]| && 0 < |text| && NoNul(text) && !IsSpace(text[0])
      && FindSub(text, Python) == Some(|Builtins[j]| - |Python|) && FirstBuiltin(text, 0).Some?
  {
    var b := Builtins[j];
    var text := b + v + w;
    assert NoNul(text) && !IsSpace(text[0]) by {
      BuiltinsArePlain();
      BuiltinLineText(b, v, w);
    }
    assert FindSub(text, Python) == Some(|b| - |Python|) && FirstBuiltin(text, 0).Some? by {
      Associative(b, v, w);
      PythonOfBuiltin(j, v + w);
    }
  }

  /** A text that a builtin path starts, its first "python" at `f`, parses as virtual with the command there. */
  lemma ParsedBuiltinText(text: WString, cmds: seq<Command>, f: nat)
    requires 0 < |text| && NoNul(text) && !IsSpace(text[0])
    requires FirstBuiltin(text, 0).Some? && FindSub(text, Python) == Some(f)
    ensures ParsedVirtualAs(ShebangLine(text), cmds, TrimmedShebang(text), 2 + f)
  {
    var line := ShebangLine(text);
    var r := Recognise(line, 2, cmds);
    assert r.0 && r.1 == InLine(2 + f) by {
      ShebangLineText(text);
      RecogniseBuiltin(line, 2, cmds, 2 + f);
    }
    var p := ParseShebangSpec(line, cmds);
    assert p.isVirtual == r.0 && p.command == Some(r.1) && p.line == TrimEnd(line, 2, |text| + 1) by {
      ShebangLineParse(text, cmds);
    }
    TrimmedShebangIs(text);
  }

  /**
   * `#!` followed by a builtin path, a version-like tail `v` without white
   * space and trailing white space is virtual, and the command it leaves
   * is "python" followed by `v`, with nothing after it.
   */
  lemma BuiltinShebang(j: nat, v: WString, w: WString, cmds: seq<Command>)
    requires j < |Builtins| && NoNul(v) && forall i | 0 <= i < |v| :: !IsSpace(v[i])
    requires forall i | 0 <= i < |w| :: IsSpace(w[i])
    ensures var p := ParseShebangSpec(ShebangLine(Builtins[j] + v + w), cmds);
      p.isVirtual && SplitsAsPython(p.line, p.command.value.offset, v)
  {
    var b := Builtins[j];
    var line, t, a := ShebangLine(b + v + w), TrimmedShebang(b + v + w), 2 + |b| - |Python|;
    BuiltinEndsWithPython(j);
    BuiltinLineTrim(b, v, w);
    SplitPythonTail(t, a, v);
    BuiltinParsed(j, v, w, cmds);
    ParsedSplitsAs(line, cmds, t, a, v);
  }

  /** What is known of the trimmed line and the command offset carries over to the parse result. */
  lemma ParsedSplitsAs(line: WString, cmds: seq<Command>, t: WString, a: nat, v: WString)
    requires ParsedVirtualAs(line, cmds, t, a) && a <= |t| && SplitsAsPython(t, a, v)
    ensures SplitsAsPython(ParseShebangSpec(line, cmds).line, ParseShebangSpec(line, cmds).command.value.offset, v)
  {
  }

  /** The text of `#!/usr/bin/env  python`: no builtin path, and an alias name "/usr/bin/env". */
  lemma EnvWithTwoSpacesText()
    ensures var text := Lit("/usr/bin/env  python");
      FirstBuiltin(text, 0).None? && IndexOfAny(text, Separators) == Some(12) && text[..12] == Lit("/usr/bin/env")
    ensures var line := ShebangLine(Lit("/usr/bin/env  python"));
      TrimEnd(line, 2, |line| - 2) == line
  {
    var text := Lit("/usr/bin/env  python");
    assert text[13] != Builtins[0][13];
    assert text[9] != Builtins[1][9];
    assert text[5] != Builtins[2][5];
    assert text[0] != Builtins[3][0];
    assert text[12] == ' ' as int;
    IndexOfAnyIs(text, Separators, 12);
    var line := ShebangLine(text);
    var e := |text| + 1;
    assert line[e] == text[e - 2];
    TrimEndNothingTrailing(line, 2, e);
  }

  /**
   * `#!/usr/bin/env  python`, with two spaces, matches no builtin path; with
   * no alias named "/usr/bin/env" the whole text is the command, run as it
   * stands rather than as a virtual command.
   */
  lemma EnvWithTwoSpacesIsLiteral(cmds: seq<Command>)
    requires FindIn(cmds, Lit("/usr/bin/env"), 0).None?
    ensures var p := ParseShebangSpec(ShebangLine(Lit("/usr/bin/env  python")), cmds);
      !p.isVirtual && p.command == Some(InLine(2)) && p.suffix.None? &&
      CStrAt(p.line, 2) == Lit("/usr/bin/env  python")
  {
    var text := Lit("/usr/bin/env  python");
    ShebangLineParse(text, cmds);
    EnvWithTwoSpacesText();
  }

  /** The text `name rest`: the alias name ends at the space. */
  lemma AliasText(name: WString, rest: WString)
    requires 0 < |name| && forall i | 0 <= i < |name| :: !IsSpace(name[i]) && name[i] != Nul
    requires NoNul(rest)
    ensures var text := name + [Space] + rest;
      NoNul(text) && !IsSpace(text[0]) && IndexOfAny(text, Separators) == Some(|name|) && text[..|name|] == name
  {
    var text := name + [Space] + rest;
    forall i | 0 <= i < |name|
      ensures text[i] == name[i]
    {
    }
    forall i | |name| < i < |text|
      ensures text[i] == rest[i - |name| - 1]
    {
    }
    assert text[|name|] in Separators;
    IndexOfAnyIs(text, Separators, |name|);
    assert text[..|name|] == name;
  }

  /** The line `#!name rest`: the suffix is `rest`, and nothing is trimmed. */
  lemma AliasLine(name: WString, rest: WString)
    requires NoNul(rest) && 0 < |rest| && !IsSpace(rest[0]) && !IsSpace(rest[|rest| - 1])
    ensures var line := ShebangLine(name + [Space] + rest);
      SkipWs(line, 2 + |name|) == 2 + |name| + 1 && CStrAt(line, 2 + |name| + 1) == rest &&
      TrimEnd(line, 2, |line| - 2) == line
  {
    AliasLineSuffix(name, rest);
    AliasLineUntrimmed(name, rest);
  }

  /** In the line `#!name rest` the white space after the name is skipped to `rest`. */
  lemma AliasLineSuffix(name: WString, rest: WString)
    requires NoNul(rest) && 0 < |rest| && !IsSpace(rest[0])
    ensures var line := ShebangLine(name + [Space] + rest);
      SkipWs(line, 2 + |name|) == 2 + |name| + 1 && CStrAt(line, 2 + |name| + 1) == rest
  {
    var text := name + [Space] + rest;
    assert text[|name|] == Space && text[|name| + 1] == rest[0] && text[|name| + 1..] == rest;
    ShebangLineSpace(text, |name|);
    ShebangLineTail(text, |name| + 1);
  }

  /** The line `#!name rest` ends in no white space, so trimming leaves it as it is. */
  lemma AliasLineUntrimmed(name: WString, rest: WString)
    requires 0 < |rest| && !IsSpace(rest[|rest| - 1])
    ensures var line := ShebangLine(name + [Space] + rest);
      TrimEnd(line, 2, |line| - 2) == line
  {
    var text := name + [Space] + rest;
    var line := ShebangLine(text);
    var e := |text| + 1;
    assert line[e] == rest[|rest| - 1] by {
      assert line[e] == line[2..2 + |text|][|text| - 1];
    }
    TrimEndNothingTrailing(line, 2, e);
  }

  /** A text that starts with neither '/' nor 'p' starts with no builtin path. */
  lemma NoBuiltinStarts(text: WString)
    requires 0 < |text| && text[0] != '/' as int && text[0] != 'p' as int
    ensures FirstBuiltin(text, 0).None?
  {
    forall j | 0 <= j < |Builtins|
      ensures !StartsWith(text, Builtins[j])
    {
      assert Builtins[j][0] == '/' as int || Builtins[j][0] == 'p' as int;
    }
  }

  /** A text that a builtin path starts is virtual, its command at the first "python". */
  lemma RecogniseBuiltin(line: WString, s: nat, cmds: seq<Command>, a: nat)
    requires s < |line| && line[s] != Nul && s <= a
    requires FirstBuiltin(CStrAt(line, s), 0).Some? && FindSub(CStrAt(line, s), Python) == Some(a - s)
    ensures Recognise(line, s, cmds).0 && Recognise(line, s, cmds).1 == InLine(a) && Recognise(line, s, cmds).2.None?
  {
    PythonInBuiltinText(CStrAt(line, s), FirstBuiltin(CStrAt(line, s), 0).value);
  }

  /** A text that no builtin path starts and whose name is an alias is recognised as that alias. */
  lemma RecogniseAlias(line: WString, s: nat, cmds: seq<Command>, sep: nat, k: nat)
    requires s < |line| && line[s] != Nul
    requires FirstBuiltin(CStrAt(line, s), 0).None?
    requires IndexOfAny(CStrAt(line, s), Separators) == Some(sep)
    requires FindIn(cmds, CStrAt(line, s)[..sep], 0) == Some(k)
    ensures Recognise(line, s, cmds) == (false, Alias(cmds[k].value), Some(SkipWs(line, s + sep)))
  {
  }

  /**
   * `#!name rest` where `name` is an alias and no builtin path matches:
   * the alias's value is the command and `rest` the suffix, whatever the
   * value is (a shell is not treated differently).
   */
  lemma AliasShebang(name: WString, rest: WString, cmds: seq<Command>, k: nat)
    requires 0 < |name| && forall i | 0 <= i < |name| :: !IsSpace(name[i]) && name[i] != Nul
    requires 0 < |rest| && NoNul(rest) && !IsSpace(rest[0]) && !IsSpace(rest[|rest| - 1])
    requires name[0] != '/' as int && name[0] != 'p' as int
    requires FindIn(cmds, name, 0) == Some(k)
    ensures var line := ShebangLine(name + [Space] + rest); var p := ParseShebangSpec(line, cmds);
      !p.isVirtual && p.command == Some(Alias(cmds[k].value)) && p.suffix == Some(2 + |name| + 1) && p.line == line
    ensures CStrAt(ShebangLine(name + [Space] + rest), 2 + |name| + 1) == rest
  {
    var text := name + [Space] + rest;
    AliasText(name, rest);
    AliasLine(name, rest);
    AliasRecognised(name, rest, cmds, k);
    ShebangLineParse(text, cmds);
  }

  /** The text `name rest` after `#!` is recognised as the alias, with the suffix at `rest`. */
  lemma AliasRecognised(name: WString, rest: WString, cmds: seq<Command>, k: nat)
    requires 0 < |name| && forall i | 0 <= i < |name| :: !IsSpace(name[i]) && name[i] != Nul
    requires 0 < |rest| && NoNul(rest) && !IsSpace(rest[0])
    requires name[0] != '/' as int && name[0] != 'p' as int
    requires FindIn(cmds, name, 0) == Some(k)
    ensures Recognise(ShebangLine(name + [Space] + rest), 2, cmds) == (false, Alias(cmds[k].value), Some(2 + |name| + 1))
  {
    var text := name + [Space] + rest;
    var line := ShebangLine(text);
    AliasText(name, rest);
    AliasLineSuffix(name, rest);
    ShebangLineText(text);
    NoBuiltinStarts(text);
    var sep := |name|;
    RecogniseAlias(line, 2, cmds, sep, k);
  }
}
