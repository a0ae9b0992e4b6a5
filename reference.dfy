/**
 * The test suite's own statement of the selection rules: the order of the
 * catalog it builds, its resolver (`locate_python_ver`, `locate_python`),
 * the interpreter it expects for a shebang, how it writes a test script,
 * and the shebangs it adds for the interpreters it found.  Python strings
 * are sequences of code units here, like the launcher's.
 */
module Reference {
  import opened Wrappers
  import opened Wide
  import opened Encoding
  import opened Config
  import opened Catalog
  import opened CliShebang
  import opened CliLauncher
  import opened GuiLauncher

  /** The exceptions the test code can raise on the paths modelled here. */
  datatype PyError = AttributeError | AssertionError | IndexError | UnicodeEncodeError

  // ---------------------------------------------------------------- catalog order

  /**
   * The sort key `(version, -bits)` of `locate_all_pythons` under Python's
   * tuple order: `a`'s key is below `b`'s.
   */
  predicate KeyLess(a: Installed, b: Installed) {
    LexLess(a.version, b.version) || (a.version == b.version && -a.bits < -b.bits)
  }

  /** `sorted(infos, reverse=True, key=...)`: no entry's key exceeds that of an entry before it. */
  predicate RefSorted(cat: seq<Installed>) {
    forall i, j | 0 <= i < j < |cat| :: !KeyLess(cat[i], cat[j])
  }

  /** The key order is a strict order, so `sorted` is well defined on it. */
  lemma KeyLessIsStrictOrder(a: Installed, b: Installed, c: Installed)
    ensures !KeyLess(a, a)
    ensures KeyLess(a, b) && KeyLess(b, c) ==> KeyLess(a, c)
  {
    assert WcsCmp(a.version, a.version) == 0;
    if KeyLess(a, b) && KeyLess(b, c) {
      if LexLess(a.version, b.version) && LexLess(b.version, c.version) {
        LexLessTransitive(a.version, b.version, c.version);
      }
    }
  }

  /**
   * In the reference catalog versions descend, as in the launcher's, but
   * among entries of one version the smaller word size comes first.
   */
  lemma RefSortedOrder(cat: seq<Installed>, i: nat, j: nat)
    requires RefSorted(cat) && i < j < |cat|
    ensures !LexLess(cat[i].version, cat[j].version)
    ensures cat[i].version == cat[j].version ==> cat[i].bits <= cat[j].bits
  {
    assert !KeyLess(cat[i], cat[j]);
  }

  /** A 32-bit and a 64-bit build of one version: the reference and the launcher order them oppositely. */
  lemma WordSizeOrdersDiffer(v: WString, x32: WString, x64: WString)
    ensures RefSorted([Installed(v, 32, x32), Installed(v, 64, x64)])
    ensures !Sorted([Installed(v, 32, x32), Installed(v, 64, x64)])
    ensures Sorted([Installed(v, 64, x64), Installed(v, 32, x32)])
  {
    var a, b := Installed(v, 32, x32), Installed(v, 64, x64);
    var cat := [a, b];
    assert cat[0] == a && cat[1] == b;
    assert WcsCmp(v, v) == 0;
    assert ComparePythons(a, b) > 0;
    assert ComparePythons(b, a) < 0;
  }

  // ---------------------------------------------------------------- locate_python_ver

  /** The index of the first entry at or after `i` whose version starts with `spec`. */
  function FirstStartingWith(cat: seq<Installed>, spec: WString, i: nat): (r: Option<nat>)
    requires i <= |cat|
    ensures r.Some? ==> i <= r.value < |cat| && StartsWith(cat[r.value].version, spec)
    ensures r.Some? ==> forall j | i <= j < r.value :: !StartsWith(cat[j].version, spec)
    ensures r.None? <==> forall j | i <= j < |cat| :: !StartsWith(cat[j].version, spec)
    decreases |cat| - i
  {
    if i == |cat| then None
    else if StartsWith(cat[i].version, spec) then Some(i)
    else FirstStartingWith(cat, spec, i + 1)
  }

  /** What `locate_python_ver` returns: the first entry whose version starts with `spec`. */
  function RefLocateVer(cat: seq<Installed>, spec: WString): (r: Option<Installed>)
  {
    match FirstStartingWith(cat, spec, 0)
    case None => None
    case Some(i) => Some(cat[i])
  }

  /** `locate_python_ver`: a scan of the catalog that returns at the first match. */
  method LocatePythonVer(cat: seq<Installed>, spec: WString) returns (r: Option<Installed>)
    requires |spec| > 0
    ensures r.Some? ==> r.value in cat && StartsWith(r.value.version, spec)
    ensures r.None? <==> forall j | 0 <= j < |cat| :: !StartsWith(cat[j].version, spec)
    ensures r == RefLocateVer(cat, spec)
  {
    var i := 0;
    while i < |cat|
      invariant 0 <= i <= |cat|
      invariant FirstStartingWith(cat, spec, i) == FirstStartingWith(cat, spec, 0)
    {
      if StartsWith(cat[i].version, spec) {
        return Some(cat[i]);
      }
      i := i + 1;
    }
    return None;
  }

  /**
   * When no catalog version is shorter than the tag, the reference's prefix
   * test and the launcher's `wcsncmp` test pick the same entry.
   */
  lemma {:induction false} StartsWithMatchesAgrees(cat: seq<Installed>, spec: WString, i: nat)
    requires i <= |cat|
    requires forall j | i <= j < |cat| :: |spec| <= |cat[j].version|
    ensures FirstStartingWith(cat, spec, i) == FirstAgreeing(cat, spec, i)
    decreases |cat| - i
  {
    if i < |cat| {
      var version := cat[i].version;
      assert Agrees(version, spec) == StartsWith(version, spec);
      if StartsWith(version, spec) {
        assert FirstStartingWith(cat, spec, i) == Some(i) == FirstAgreeing(cat, spec, i);
      } else {
        StartsWithMatchesAgrees(cat, spec, i + 1);
        assert FirstStartingWith(cat, spec, i) == FirstStartingWith(cat, spec, i + 1);
        assert FirstAgreeing(cat, spec, i) == FirstAgreeing(cat, spec, i + 1);
      }
    }
  }

  /** A version shorter than the tag: the launcher takes "2.7" for "2.7-32", the reference does not. */
  lemma ShorterVersionMatchesOnlyInLauncher(x: WString)
    ensures var cat := [Installed(Lit("2.7"), 32, x)];
      FirstAgreeing(cat, Lit("2.7-32"), 0) == Some(0) && RefLocateVer(cat, Lit("2.7-32")).None?
  {
    var v, spec := Lit("2.7"), Lit("2.7-32");
    assert spec[..3] == v;
    assert Agrees(v, spec);
  }

  // ---------------------------------------------------------------- locate_python

  /**
   * `locate_python` with the failing debug line set aside: a one-unit tag
   * is replaced by `PY_DEFAULT_PYTHON<tag>` when that is set; no tag uses
   * `PY_DEFAULT_PYTHON` when it is set and not empty, else "2", else "3".
   */
  function RefLocatePython(cat: seq<Installed>, env: Environment, spec: WString): (r: Option<Installed>)
    ensures r.Some? ==> r.value in cat
  {
    var s := if |spec| == 1 then EnvLookup(env, DefaultVariable + spec).GetOr(spec) else spec;
    if |s| > 0 then RefLocateVer(cat, s)
    else
      var d := EnvLookup(env, DefaultVariable);
      if d.Some? && |d.value| > 0 then RefLocateVer(cat, d.value)
      else
        var two := RefLocateVer(cat, Two);
        if two.Some? then two else RefLocateVer(cat, Three)
  }

  /**
   * `locate_python` as written: the debug line formats `ret.version` before
   * returning, so when nothing was located it raises instead of returning
   * None.
   */
  function RefLocatePythonAsWritten(cat: seq<Installed>, env: Environment, spec: WString): (r: Result<Installed, PyError>)
  {
    var ret := RefLocatePython(cat, env, spec);
    if ret.None? then Failure(AttributeError) else Success(ret.value)
  }

  /**
   * The as-written resolver never returns None: whenever nothing is found
   * it raises AttributeError, so the caller's `assert DEFAULT_PYTHON2, ...`
   * never gets to report a missing Python 2.
   */
  lemma LocatePythonRaisesWhenNothingFound(cat: seq<Installed>, env: Environment)
    requires forall j | 0 <= j < |cat| :: !StartsWith(cat[j].version, Two)
    requires EnvLookup(env, DefaultVariable + Two).None?
    ensures RefLocatePython(cat, env, Two).None?
    ensures RefLocatePythonAsWritten(cat, env, Two) == Failure(AttributeError)
  {
  }

  /** A one-unit tag follows `PY_DEFAULT_PYTHON<tag>` when that is set. */
  lemma RefMajorVersionUsesVariable(cat: seq<Installed>, env: Environment, major: WChar, value: WString)
    requires EnvLookup(env, DefaultVariable + [major]) == Some(value) && |value| > 0
    ensures RefLocatePython(cat, env, [major]) == RefLocateVer(cat, value)
  {
  }

  /**
   * With no tag: `PY_DEFAULT_PYTHON` when it is set and not empty, and no
   * fallback when it matches nothing; otherwise the first 2.x, else the
   * first 3.x.
   */
  lemma RefDefaultChain(cat: seq<Installed>, env: Environment)
    ensures var d := EnvLookup(env, DefaultVariable);
      d.Some? && |d.value| > 0 ==> RefLocatePython(cat, env, []) == RefLocateVer(cat, d.value)
    ensures var d := EnvLookup(env, DefaultVariable);
      (d.None? || |d.value| == 0) && RefLocateVer(cat, Two).Some? ==>
        RefLocatePython(cat, env, []) == RefLocateVer(cat, Two)
    ensures var d := EnvLookup(env, DefaultVariable);
      (d.None? || |d.value| == 0) && RefLocateVer(cat, Two).None? ==>
        RefLocatePython(cat, env, []) == RefLocateVer(cat, Three)
  {
  }

  /**
   * With no `PY_DEFAULT_PYTHON` variables, a tag of at most one unit and no
   * empty catalog version, the reference resolver and the windowed
   * launcher's `locate_python` choose the same interpreter.
   */
  lemma RefAgreesWithGuiLauncher(cat: seq<Installed>, env: Environment, spec: WString)
    requires |spec| <= 1 && forall j | 0 <= j < |cat| :: 0 < |cat[j].version|
    requires EnvLookup(env, DefaultVariable).None?
    requires |spec| == 1 ==> EnvLookup(env, DefaultVariable + spec).None?
    ensures RefLocatePython(cat, env, spec) ==
      match GuiLocatePythonSpec(cat, env, spec) case None => None case Some(i) => Some(cat[i])
  {
    if |spec| == 1 {
      assert spec == [spec[0]];
      StartsWithMatchesAgrees(cat, spec, 0);
    } else {
      StartsWithMatchesAgrees(cat, Two, 0);
      StartsWithMatchesAgrees(cat, Three, 0);
    }
  }

  // ---------------------------------------------------------------- get_python_for_shebang

  /** The interpreters the tests compare against. */
  datatype Expected = DefaultPython2 | DefaultPython3

  const Python3: WString := Python + Three

  /** `get_python_for_shebang`: Python 3 for a shebang naming python3 and for none at all, else Python 2. */
  function ExpectedPython(shebang: WString): (e: Expected)
    ensures |shebang| == 0 ==> e == DefaultPython3
  {
    if FindSub(shebang, Python3).Some? then DefaultPython3
    else if |shebang| == 0 then DefaultPython3
    else DefaultPython2
  }

  /** The oracle expects Python 3 for a shebang that ends in "python3" and Python 2 for one that ends in "python2". */
  lemma ExpectedForVersionedShebang(head: WString)
    requires forall k | 0 <= k <= |head| :: !OccursAt(head + Python + Two, Python3, k)
    ensures ExpectedPython(head + Python3) == DefaultPython3
    ensures ExpectedPython(head + Python + Two) == DefaultPython2
  {
    var s := head + Python3;
    assert OccursAt(s, Python3, |head|) by {
      assert s[|head|..|head| + |Python3|] == Python3;
    }
    var t := head + Python + Two;
    forall k | |head| < k <= |t|
      ensures !OccursAt(t, Python3, k)
    {
    }
  }

  /**
   * Without a shebang the oracle expects Python 3, while the launcher,
   * given a 2.x and no configured default, runs a 2.x.
   */
  lemma OracleAndLauncherDisagreeWithoutShebang(cat: seq<Installed>, env: Environment, inis: Inis, two: nat)
    requires GetConfiguredValue(env, inis, Python).None?
    requires two < |cat| && Agrees(cat[two].version, Two)
    ensures ExpectedPython([]) == DefaultPython3
    ensures var r := LocatePythonSpec(cat, env, inis, []); r.Some? && Agrees(cat[r.value].version, Two)
  {
    LocateDefaultPrefersTwo(cat, env, inis, two);
  }

  // ---------------------------------------------------------------- make_script

  const Cr: WChar := '\r' as int
  const Lf: WChar := '\n' as int

  /** `s.replace(c, '')`: the units of `s` other than `c`, in order. */
  function Without(s: WString, c: WChar): (r: WString)
    ensures c !in r && |r| <= |s|
  {
    if |s| == 0 then []
    else if s[0] == c then Without(s[1..], c)
    else [s[0]] + Without(s[1..], c)
  }

  /** `s.replace('\n', '\r\n')`. */
  function LfToCrLf(s: WString): (r: WString)
  {
    if |s| == 0 then []
    else if s[0] == Lf then [Cr, Lf] + LfToCrLf(s[1..])
    else [s[0]] + LfToCrLf(s[1..])
  }

  /** Every line feed follows a carriage return, and every carriage return precedes a line feed. */
  predicate CrLfLines(t: WString) {
    (forall k | 0 <= k < |t| && t[k] == Lf :: 0 < k && t[k - 1] == Cr) &&
    (forall k | 0 <= k < |t| && t[k] == Cr :: k + 1 < |t| && t[k + 1] == Lf)
  }

  /** The line ends of `make_script`: carriage returns dropped, then every line feed doubled to CR LF. */
  function CrLfText(s: WString): (t: WString)
  {
    LfToCrLf(Without(s, Cr))
  }

  /** Converting a text free of carriage returns gives only CR LF line ends, and dropping the CRs undoes it. */
  lemma {:induction false} LfToCrLfProperties(s: WString)
    requires Cr !in s
    ensures CrLfLines(LfToCrLf(s))
    ensures Without(LfToCrLf(s), Cr) == s
    ensures |LfToCrLf(s)| >= |s|
  {
    if |s| > 0 {
      LfToCrLfProperties(s[1..]);
      var rest := LfToCrLf(s[1..]);
      var t := LfToCrLf(s);
      if s[0] == Lf {
        assert t == [Cr, Lf] + rest;
        assert t[1..] == [Lf] + rest;
        assert Without(t, Cr) == Without([Lf] + rest, Cr);
        assert ([Lf] + rest)[1..] == rest;
        forall k | 0 <= k < |t| && t[k] == Cr ensures k + 1 < |t| && t[k + 1] == Lf {
          if k >= 2 { assert t[k] == rest[k - 2]; assert t[k + 1] == rest[k - 1]; }
        }
        forall k | 0 <= k < |t| && t[k] == Lf ensures 0 < k && t[k - 1] == Cr {
          if k >= 2 { assert t[k] == rest[k - 2]; if k > 2 { assert t[k - 1] == rest[k - 3]; } }
        }
      } else {
        assert t == [s[0]] + rest;
        assert t[1..] == rest;
        forall k | 0 <= k < |t| && t[k] == Cr ensures k + 1 < |t| && t[k + 1] == Lf {
          assert k >= 1; assert t[k] == rest[k - 1]; assert t[k + 1] == rest[k];
        }
        forall k | 0 <= k < |t| && t[k] == Lf ensures 0 < k && t[k - 1] == Cr {
          assert k >= 1; assert t[k] == rest[k - 1]; if k > 1 { assert t[k - 1] == rest[k - 2]; }
        }
      }
    }
  }

  /**
   * The line ends `make_script` writes are all CR LF; the text without its
   * carriage returns is recovered; and converting twice changes nothing.
   */
  lemma CrLfTextProperties(s: WString)
    ensures CrLfLines(CrLfText(s))
    ensures Without(CrLfText(s), Cr) == Without(s, Cr)
    ensures CrLfText(CrLfText(s)) == CrLfText(s)
  {
    LfToCrLfProperties(Without(s, Cr));
  }

  /** SCRIPT_TEMPLATE filled in with a shebang line, a coding line and a trailing comment. */
  function ScriptText(shebangLine: WString, codingLine: WString, comment: WString): WString {
    shebangLine + codingLine + Lit("import sys\nprint(sys.version)\nprint(sys.argv)\n") + comment
  }

  /**
   * `make_script`: the text with CR LF line ends, encoded (`encode` stands
   * for `str.encode` with the chosen codec), with `bom` put in front unless
   * it is empty or already there.
   */
  function MakeScript(text: WString, encode: WString -> seq<Byte>, bom: seq<Byte>): (script: seq<Byte>)
  {
    var body := encode(CrLfText(text));
    if |bom| > 0 && !HasPrefix(body, bom) then bom + body else body
  }

  /** The script starts with the byte order mark asked for, exactly once: it is added only when missing. */
  lemma MakeScriptBom(text: WString, encode: WString -> seq<Byte>, bom: seq<Byte>)
    ensures var body := encode(CrLfText(text)); var script := MakeScript(text, encode, bom);
      HasPrefix(script, bom) &&
      (script == body || script == bom + body) &&
      (HasPrefix(body, bom) ==> script == body)
  {
    var body := encode(CrLfText(text));
    if |bom| > 0 && !HasPrefix(body, bom) {
      assert (bom + body)[..|bom|] == bom;
    }
  }

  // ---------------------------------------------------------------- update_for_installed_pythons

  /** One of the test's interpreter records, with the attributes `update_for_installed_pythons` adds. */
  class TestPython {
    const version: WString
    var bversion: seq<Byte>
    var dir: WString
    var bdir: seq<Byte>
    var outputVersion: seq<Byte>

    constructor (version: WString)
      ensures this.version == version && bversion == [] && dir == [] && bdir == [] && outputVersion == []
    {
      this.version := version;
      bversion, dir, bdir, outputVersion := [], [], [], [];
    }
  }

  /** The module-level SHEBANGS dictionary, keyed by test name. */
  class ShebangTable {
    var entries: map<WString, WString>

    constructor (entries: map<WString, WString>)
      ensures this.entries == entries
    {
      this.entries := entries;
    }
  }

  predicate IsAscii(s: WString) {
    forall k | 0 <= k < |s| :: s[k] < 0x80
  }

  /** `s.encode('ascii')` of an ASCII text. */
  function AsciiBytes(s: WString): (b: seq<Byte>)
    requires IsAscii(s)
    ensures |b| == |s|
  {
    seq(|s|, k requires 0 <= k < |s| => s[k])
  }

  const PythonWord: WString := ['P' as int, 'y' as int, 't' as int, 'h' as int, 'o' as int, 'n' as int]

  /** `'Python%s' % version.replace('.', '')`: "Python" and the version's units other than dots. */
  function Dir(version: WString): (d: WString)
    ensures |d| >= |PythonWord| && d[..|PythonWord|] == PythonWord && '.' as int !in d[|PythonWord|..]
  {
    var d := PythonWord + Without(version, '.' as int);
    assert d[|PythonWord|..] == Without(version, '.' as int);
    d
  }

  /**
   * An entry of `upd_templates`: the key is `keyHead`, the major version,
   * `keyTail`; the shebang is `valueHead`, the version, `valueTail`.
   */
  datatype Template = Template(keyHead: WString, keyTail: WString, valueHead: WString, valueTail: WString)

  const EnvPython: WString :=
    ['#' as int, '!' as int, '/' as int, 'u' as int, 's' as int, 'r' as int, '/' as int, 'b' as int,
     'i' as int, 'n' as int, '/' as int, 'e' as int, 'n' as int, 'v' as int, ' ' as int, 'p' as int,
     'y' as int, 't' as int, 'h' as int, 'o' as int, 'n' as int]
  const BinPython: WString :=
    ['#' as int, '!' as int, '/' as int, 'u' as int, 's' as int, 'r' as int, '/' as int, 'b' as int,
     'i' as int, 'n' as int, '/' as int, 'p' as int, 'y' as int, 't' as int, 'h' as int, 'o' as int,
     'n' as int]
  const LocalBinPython: WString :=
    ['#' as int, '!' as int, '/' as int, 'u' as int, 's' as int, 'r' as int, '/' as int, 'l' as int,
     'o' as int, 'c' as int, 'a' as int, 'l' as int, '/' as int, 'b' as int, 'i' as int, 'n' as int,
     '/' as int, 'p' as int, 'y' as int, 't' as int, 'h' as int, 'o' as int, 'n' as int]
  const Min: WString := ['_' as int, 'M' as int, 'I' as int, 'N' as int]
  const MinBits: WString :=
    ['_' as int, 'M' as int, 'I' as int, 'N' as int, '_' as int, 'B' as int, 'I' as int, 'T' as int,
     'S' as int]
  const Newline: WString := [Lf]
  const Bits32: WString := ['-' as int, '3' as int, '2' as int, '\n' as int]

  /** `upd_templates` in the dictionary's order; the "PY" entries carry the same shebangs as the "LBIN_PY" ones. */
  const EnvPy: WString := ['E' as int, 'N' as int, 'V' as int, '_' as int, 'P' as int, 'Y' as int]
  const BinPy: WString := ['B' as int, 'I' as int, 'N' as int, '_' as int, 'P' as int, 'Y' as int]
  const LocalBinPy: WString := ['L' as int, 'B' as int, 'I' as int, 'N' as int, '_' as int, 'P' as int, 'Y' as int]
  const Py: WString := ['P' as int, 'Y' as int]

  const Templates: seq<Template> := [
    Template(EnvPy, Min, EnvPython, Newline),
    Template(EnvPy, MinBits, EnvPython, Bits32),
    Template(BinPy, Min, BinPython, Newline),
    Template(BinPy, MinBits, BinPython, Bits32),
    Template(LocalBinPy, Min, LocalBinPython, Newline),
    Template(LocalBinPy, MinBits, LocalBinPython, Bits32),
    Template(Py, Min, LocalBinPython, Newline),
    Template(Py, MinBits, LocalBinPython, Bits32)
  ]

  const TemplateCount: nat := 8

  /** The key of template `t` for the major version `major`, e.g. "ENV_PY2_MIN_BITS". */
  function TemplateKey(t: nat, major: WChar): (k: WString)
    requires t < TemplateCount
  {
    Templates[t].keyHead + [major] + Templates[t].keyTail
  }

  /** The shebang of template `t` for `version`, e.g. "#!/usr/bin/env python2.7-32\n". */
  function TemplateValue(t: nat, version: WString): (v: WString)
    requires t < TemplateCount
  {
    Templates[t].valueHead + version + Templates[t].valueTail
  }

  /** A template key names its template and its major version: no two of them coincide. */
  lemma TemplateKeysDiffer(t: nat, u: nat, m: WChar, n: WChar)
    requires t < TemplateCount && u < TemplateCount
    requires TemplateKey(t, m) == TemplateKey(u, n)
    ensures t == u && m == n
  {
    var a, b := TemplateKey(t, m), TemplateKey(u, n);
    assert a[0] == Templates[t].keyHead[0] && b[0] == Templates[u].keyHead[0];
    assert Templates[t].keyHead == Templates[u].keyHead;
    var h := |Templates[t].keyHead|;
    assert a[h] == m && b[h] == n;
    assert |a| == |b|;
  }

  /** The outcome of adding the templates for one interpreter, from template `t` on. */
  datatype Added = Added(table: map<WString, WString>, ok: bool)

  /** The entries of `upd_templates` for `version` from `t` on, stopping at the first key already present. */
  function AddTemplates(table: map<WString, WString>, version: WString, t: nat): (r: Added)
    requires 0 < |version| && t <= TemplateCount
    decreases TemplateCount - t
  {
    if t == TemplateCount then Added(table, true)
    else
      var key := TemplateKey(t, version[0]);
      if key in table then Added(table, false)
      else AddTemplates(table[key := TemplateValue(t, version)], version, t + 1)
  }

  /** No key of the templates from `t` on, for the major version `major`, is in `table`. */
  predicate NoTemplateKeys(table: map<WString, WString>, major: WChar, t: nat)
    requires t <= TemplateCount
  {
    forall u | t <= u < TemplateCount :: TemplateKey(u, major) !in table
  }

  /**
   * The additions succeed exactly when none of the keys is present yet,
   * and then every key maps to its shebang and the old entries stay.
   */
  lemma {:induction false} AddTemplatesSucceedsIffFresh(table: map<WString, WString>, version: WString, t: nat)
    requires 0 < |version| && t <= TemplateCount
    ensures var r := AddTemplates(table, version, t);
      (r.ok <==> NoTemplateKeys(table, version[0], t)) &&
      (r.ok ==>
        (forall u | t <= u < TemplateCount :: TemplateKey(u, version[0]) in r.table &&
          r.table[TemplateKey(u, version[0])] == TemplateValue(u, version)) &&
        (forall k | k in table :: k in r.table && r.table[k] == table[k]))
    decreases TemplateCount - t
  {
    if t < TemplateCount {
      var m := version[0];
      var key := TemplateKey(t, m);
      if key !in table {
        var next := table[key := TemplateValue(t, version)];
        AddTemplatesSucceedsIffFresh(next, version, t + 1);
        forall u | t + 1 <= u < TemplateCount
          ensures TemplateKey(u, m) in next <==> TemplateKey(u, m) in table
        {
          if TemplateKey(u, m) == key {
            TemplateKeysDiffer(u, t, m, m);
          }
        }
      }
    }
  }

  /**
   * The effect of handling one record on SHEBANGS: the table it leaves,
   * the exception raised if one was, and whether the record got its
   * attributes.
   */
  datatype Step = Step(table: map<WString, WString>, error: Option<PyError>, described: bool)

  /**
   * One pass of the loop of `update_for_installed_pythons`: a version that
   * is not ASCII raises at once; an empty one raises after the attributes
   * are set; otherwise the eight shebangs are added until a key is found
   * already present.
   */
  function StepFor(v: WString, table: map<WString, WString>): (s: Step)
    ensures s.error.None? ==> s.described
  {
    if !IsAscii(v) then Step(table, Some(UnicodeEncodeError), false)
    else if |v| == 0 then Step(table, Some(IndexError), true)
    else
      var added := AddTemplates(table, v, 0);
      Step(added.table, if added.ok then None else Some(AssertionError), true)
  }

  /**
   * The effect of `update_for_installed_pythons` on SHEBANGS from the
   * `i`-th record on: the table it leaves, the exception that ended it if
   * one did, and how many records got their attributes.
   */
  datatype Update = Update(table: map<WString, WString>, error: Option<PyError>, touched: nat)

  function UpdateFrom(versions: seq<WString>, i: nat, table: map<WString, WString>): (u: Update)
    requires i <= |versions|
    ensures i <= u.touched <= |versions|
    ensures u.error.None? ==> u.touched == |versions|
    decreases |versions| - i
  {
    if i == |versions| then Update(table, None, i)
    else
      var s := StepFor(versions[i], table);
      if s.error.Some? then Update(s.table, s.error, if s.described then i + 1 else i)
      else UpdateFrom(versions, i + 1, s.table)
  }

  /** Adding the keys of one major version adds none of another's. */
  lemma {:induction false} OtherMajorStaysFresh(table: map<WString, WString>, version: WString, other: WChar, t: nat)
    requires 0 < |version| && other != version[0] && t <= TemplateCount
    requires NoTemplateKeys(table, other, 0)
    ensures NoTemplateKeys(AddTemplates(table, version, t).table, other, 0)
    decreases TemplateCount - t
  {
    if t < TemplateCount {
      var key := TemplateKey(t, version[0]);
      if key !in table {
        var next := table[key := TemplateValue(t, version)];
        forall u | 0 <= u < TemplateCount
          ensures TemplateKey(u, other) !in next
        {
          if TemplateKey(u, other) == key {
            TemplateKeysDiffer(u, t, other, version[0]);
          }
        }
        OtherMajorStaysFresh(next, version, other, t + 1);
      }
    }
  }

  /** Every version from the `i`-th on is ASCII and not empty, so no pass raises before adding its shebangs. */
  predicate Describable(versions: seq<WString>, i: nat)
  {
    forall j | i <= j < |versions| :: IsAscii(versions[j]) && 0 < |versions[j]|
  }

  /**
   * With versions that all have different major versions, none of whose
   * keys is present yet, the update runs to the end and SHEBANGS maps every
   * key of every version to its shebang, keeping the entries it had.
   */
  lemma {:induction false} UpdateSucceedsForDistinctMajors(versions: seq<WString>, i: nat, table: map<WString, WString>)
    requires i <= |versions| && Describable(versions, i)
    requires forall j, k | i <= j < k < |versions| :: versions[j][0] != versions[k][0]
    requires forall j | i <= j < |versions| :: NoTemplateKeys(table, versions[j][0], 0)
    ensures var u := UpdateFrom(versions, i, table);
      u.error.None? && u.touched == |versions| &&
      (forall j, t | i <= j < |versions| && 0 <= t < TemplateCount ::
        TemplateKey(t, versions[j][0]) in u.table && u.table[TemplateKey(t, versions[j][0])] == TemplateValue(t, versions[j])) &&
      (forall k | k in table :: k in u.table && u.table[k] == table[k])
    decreases |versions| - i
  {
    if i < |versions| {
      var v := versions[i];
      AddTemplatesSucceedsIffFresh(table, v, 0);
      var next := AddTemplates(table, v, 0).table;
      forall j | i + 1 <= j < |versions|
        ensures NoTemplateKeys(next, versions[j][0], 0)
      {
        OtherMajorStaysFresh(table, v, versions[j][0], 0);
      }
      UpdateSucceedsForDistinctMajors(versions, i + 1, next);
    }
  }

  /** A version whose first key is already present makes the update raise `AssertionError`, at that version or before. */
  lemma {:induction false} PresentKeyRaises(versions: seq<WString>, i: nat, table: map<WString, WString>, k: nat)
    requires i <= k < |versions| && Describable(versions, i)
    requires TemplateKey(0, versions[k][0]) in table
    ensures UpdateFrom(versions, i, table).error == Some(AssertionError)
    decreases k - i
  {
    var v := versions[i];
    AddTemplatesSucceedsIffFresh(table, v, 0);
    if i < k && AddTemplates(table, v, 0).ok {
      PresentKeyRaises(versions, i + 1, AddTemplates(table, v, 0).table, k);
    }
  }

  /**
   * Two records with the same major version make the update raise
   * `AssertionError`: the second one's keys are taken, if nothing failed
   * before.
   */
  lemma {:induction false} RepeatedMajorRaises(versions: seq<WString>, i: nat, table: map<WString, WString>, j: nat, k: nat)
    requires i <= j < k < |versions| && Describable(versions, i)
    requires versions[j][0] == versions[k][0]
    ensures UpdateFrom(versions, i, table).error == Some(AssertionError)
    decreases j - i
  {
    var v := versions[i];
    AddTemplatesSucceedsIffFresh(table, v, 0);
    if AddTemplates(table, v, 0).ok {
      if i < j {
        RepeatedMajorRaises(versions, i + 1, AddTemplates(table, v, 0).table, j, k);
      } else {
        PresentKeyRaises(versions, i + 1, AddTemplates(table, v, 0).table, k);
      }
    }
  }

  /** The records' versions, which never change. */
  function Versions(pythons: seq<TestPython>): (vs: seq<WString>)
    ensures |vs| == |pythons| && forall i | 0 <= i < |pythons| :: vs[i] == pythons[i].version
  {
    seq(|pythons|, i requires 0 <= i < |pythons| => pythons[i].version)
  }

  /** b'Python ' */
  const PythonSpaceBytes: seq<Byte> := [0x50, 0x79, 0x74, 0x68, 0x6F, 0x6E, 0x20]

  /** The `j`-th record is none of the first `n`. */
  predicate NotAmongFirst(pythons: seq<TestPython>, n: nat, j: nat)
    requires n <= |pythons| && j < |pythons|
  {
    forall k | 0 <= k < n :: pythons[k] != pythons[j]
  }

  /** The attributes a record gets from its version: byte version, directory and its bytes, expected output. */
  datatype Attributes = Attributes(bversion: seq<Byte>, dir: WString, bdir: seq<Byte>, outputVersion: seq<Byte>)

  function AttributesOf(version: WString): (a: Attributes)
    requires IsAscii(version)
    ensures a.dir == Dir(version) && |a.bversion| == |version| && |a.bdir| == |a.dir|
  {
    var d := Dir(version);
    assert IsAscii(d) by {
      AsciiWithout(version, '.' as int);
      assert forall k | |PythonWord| <= k < |d| :: d[k] == Without(version, '.' as int)[k - |PythonWord|];
    }
    var b := AsciiBytes(version);
    Attributes(b, d, AsciiBytes(d), PythonSpaceBytes + b)
  }

  /** The record carries the attributes its version gives it. */
  ghost predicate Derived(p: TestPython)
    reads p
  {
    IsAscii(p.version) && Attributes(p.bversion, p.dir, p.bdir, p.outputVersion) == AttributesOf(p.version)
  }

  /** The attributes `update_for_installed_pythons` gives one record. */
  method Describe(python: TestPython)
    requires IsAscii(python.version)
    modifies python
    ensures Derived(python)
  {
    var a := AttributesOf(python.version);
    python.bversion := a.bversion;
    python.dir := a.dir;
    python.bdir := a.bdir;
    python.outputVersion := a.outputVersion;
  }

  /** The eight shebangs for one version, each added under a key that must not be present yet. */
  method AddShebangs(shebangs: ShebangTable, v: WString) returns (ok: bool)
    requires 0 < |v|
    modifies shebangs
    ensures var a := AddTemplates(old(shebangs.entries), v, 0); ok == a.ok && shebangs.entries == a.table
  {
    var major := v[0];
    var t := 0;
    while t < TemplateCount
      invariant 0 <= t <= TemplateCount
      invariant AddTemplates(shebangs.entries, v, t) == AddTemplates(old(shebangs.entries), v, 0)
    {
      var key := TemplateKey(t, major);
      if key in shebangs.entries {
        return false;
      }
      shebangs.entries := shebangs.entries[key := TemplateValue(t, v)];
      t := t + 1;
    }
    return true;
  }

  /**
   * One pass of the loop, on the `i`-th record: its attributes, then its
   * shebangs. If the pass raises, the update ends as `UpdateFrom` says;
   * otherwise the rest of the update is the same from the next record on.
   * The records before the `i`-th keep their attributes.
   */
  method UpdateOne(pythons: seq<TestPython>, ghost versions: seq<WString>, i: nat, shebangs: ShebangTable)
    returns (error: Option<PyError>)
    requires i < |pythons| == |versions| && versions[i] == pythons[i].version
    requires forall j | 0 <= j < i :: Derived(pythons[j])
    modifies pythons[i], shebangs
    ensures var u := UpdateFrom(versions, i, old(shebangs.entries));
      (if error.None? then UpdateFrom(versions, i + 1, shebangs.entries) == u
       else error == u.error && shebangs.entries == u.table) &&
      (forall j | 0 <= j < (if error.None? then i + 1 else u.touched) :: Derived(pythons[j])) &&
      (error.Some? && u.touched == i ==> unchanged(pythons[i]))
  {
    var python := pythons[i];
    if !IsAscii(python.version) {
      return Some(UnicodeEncodeError);
    }
    Describe(python);
    forall j | 0 <= j < i
      ensures Derived(pythons[j])
    {
      if pythons[j] != python {
        assert old(Derived(pythons[j])) && unchanged(pythons[j]);
      }
    }
    if |python.version| == 0 {
      return Some(IndexError);
    }
    label beforeAdd:
    var ok := AddShebangs(shebangs, python.version);
    forall j | 0 <= j < i + 1
      ensures Derived(pythons[j])
    {
      assert old@beforeAdd(Derived(pythons[j])) && unchanged@beforeAdd(pythons[j]);
    }
    return if ok then None else Some(AssertionError);
  }

  /**
   * `update_for_installed_pythons`: for each record in turn, its attributes,
   * then the eight shebangs for its version.
   */
  method UpdateForInstalledPythons(pythons: seq<TestPython>, shebangs: ShebangTable) returns (error: Option<PyError>)
    modifies pythons, shebangs
    ensures var u := UpdateFrom(Versions(pythons), 0, old(shebangs.entries));
      error == u.error && shebangs.entries == u.table &&
      (forall i | 0 <= i < u.touched :: Derived(pythons[i])) &&
      (forall i | u.touched <= i < |pythons| && NotAmongFirst(pythons, u.touched, i) ::
        unchanged(pythons[i]))
  {
    error := None;
    ghost var versions := Versions(pythons);
    var i := 0;
    while i < |pythons|
      invariant 0 <= i <= |pythons| && error.None?
      invariant UpdateFrom(versions, i, shebangs.entries) == UpdateFrom(versions, 0, old(shebangs.entries))
      invariant forall j | 0 <= j < i :: Derived(pythons[j])
      invariant forall j | i <= j < |pythons| && NotAmongFirst(pythons, i, j) :: unchanged(pythons[j])
    {
      error := UpdateOne(pythons, versions, i, shebangs);
      if error.Some? {
        return;
      }
      i := i + 1;
    }
  }

  lemma {:induction false} AsciiWithout(s: WString, c: WChar)
    requires IsAscii(s)
    ensures IsAscii(Without(s, c))
  {
    if |s| > 0 {
      AsciiWithout(s[1..], c);
    }
  }
}
