/**
 * Where the console launcher finds its settings: environment variables
 * (`get_env`), the per-user and the global `py.ini` (located in `process`),
 * and the cascade of `get_configured_value`.  The ini files are given
 * already parsed; Windows' own profile API is represented by
 * `ProfileString` and `ProfileKeyNames`.
 */
module Config {
  import opened Wrappers
  import opened Wide

  /** MAX_PATH */
  const MaxPath: nat := 260
  /** MSGSIZE: the size of the buffers values are read into. */
  const MsgSize: nat := 1024

  /**
   * The process environment.  Windows looks names up without regard to
   * case, so the map is keyed by folded names: `py_python` and `PY_PYTHON`
   * are the same variable.
   */
  type Environment = map<WString, WString>

  /** `_wgetenv`: the variable's value as a C string. */
  function EnvLookup(env: Environment, name: WString): (r: Option<WString>)
    ensures r.Some? ==> NoNul(r.value)
  {
    if Fold(name) in env then Some(CStrAt(env[Fold(name)], 0)) else None
  }

  predicate Blank(s: WString) {
    forall k | 0 <= k < |s| :: IsSpace(s[k])
  }

  /** `get_env`: the value with its leading white space skipped; a missing or blank value counts as absent. */
  function GetEnv(env: Environment, name: WString): (r: Option<WString>)
    ensures r.None? <==> EnvLookup(env, name).None? || Blank(EnvLookup(env, name).value)
    ensures r.Some? ==> |r.value| > 0 && !IsSpace(r.value[0]) && NoNul(r.value)
    ensures r.Some? ==> exists k | 0 <= k <= |EnvLookup(env, name).value| ::
      EnvLookup(env, name).value[k..] == r.value && Blank(EnvLookup(env, name).value[..k])
  {
    match EnvLookup(env, name)
    case None => None
    case Some(v) =>
      var j := SkipWs(v, 0);
      assert Blank(v[..j]);
      if j == |v| then None else Some(v[j..])
  }

  /** A value padded with leading white space is read without the padding. */
  lemma GetEnvOfPadded(env: Environment, name: WString, pad: WString, value: WString)
    requires Blank(pad) && NoNul(value) && |value| > 0 && !IsSpace(value[0])
    requires Fold(name) in env && env[Fold(name)] == pad + value
    ensures GetEnv(env, name) == Some(value)
  {
    var v := pad + value;
    assert NoNul(v) by {
      forall k | 0 <= k < |v| ensures v[k] != Nul {
        if k < |pad| { assert v[k] == pad[k]; } else { assert v[k] == value[k - |pad|]; }
      }
    }
    CStrAtOfNulFree(v);
    TrimStartSkipsPrefix(pad, value);
    assert EnvLookup(env, name) == Some(v);
  }

  /** Variable names are matched without regard to ASCII case. */
  lemma GetEnvIgnoresCase(env: Environment, a: WString, b: WString)
    requires SameIgnoringCase(a, b)
    ensures GetEnv(env, a) == GetEnv(env, b)
  {
  }

  /** A key = value line of an ini file. */
  datatype Entry = Entry(key: WString, value: WString)

  /** A parsed ini file: for each section, keyed by its folded name, its entries in file order. */
  type IniFile = map<WString, seq<Entry>>

  function SectionEntries(ini: IniFile, section: WString): seq<Entry> {
    if Fold(section) in ini then ini[Fold(section)] else []
  }

  /** The value of the first entry whose key matches `key` without regard to case. */
  function FirstValue(entries: seq<Entry>, key: WString): (r: Option<WString>)
    ensures r.Some? <==> exists i | 0 <= i < |entries| :: SameIgnoringCase(entries[i].key, key)
    ensures r.Some? ==> exists i | 0 <= i < |entries| ::
      (SameIgnoringCase(entries[i].key, key) && entries[i].value == r.value &&
       forall j | 0 <= j < i :: !SameIgnoringCase(entries[j].key, key))
  {
    if |entries| == 0 then None
    else if SameIgnoringCase(entries[0].key, key) then Some(entries[0].value)
    else
      var r := FirstValue(entries[1..], key);
      assert forall i | 1 <= i < |entries| :: entries[i] == entries[1..][i - 1];
      r
  }

  /**
   * `GetPrivateProfileStringW(section, key, NULL, buffer, size, file)`: the
   * value copied into a buffer of `size` units, empty when the key is
   * missing.  The returned count is the length of this string.
   */
  function ProfileString(ini: IniFile, section: WString, key: WString, size: nat): (v: WString)
    requires size > 0
    ensures |v| < size
  {
    match FirstValue(SectionEntries(ini, section), key)
    case None => []
    case Some(value) => Truncate(value, size - 1)
  }

  /** The keys of a section's entries, in file order. */
  function EntryKeys(entries: seq<Entry>): (keys: seq<WString>)
    ensures |keys| == |entries| && forall i | 0 <= i < |keys| :: keys[i] == entries[i].key
  {
    seq(|entries|, i requires 0 <= i < |entries| => entries[i].key)
  }

  /** The names one after the other, each followed by a NUL. */
  function NameList(keys: seq<WString>): WString
    decreases |keys|
  {
    if |keys| == 0 then [] else keys[0] + [Nul] + NameList(keys[1..])
  }

  /**
   * `GetPrivateProfileStringW(section, NULL, NULL, buffer, size, file)`: the
   * NUL-terminated names and one more NUL when they fit; otherwise the
   * first `size - 2` units of that list and two NULs, which cuts the last
   * name short and drops the ones after it.
   */
  function KeyNamesBuffer(keys: seq<WString>, size: nat): (buf: WString)
    requires size >= 2
    ensures 0 < |buf| <= size && buf[|buf| - 1] == Nul
  {
    var list := NameList(keys);
    if |list| + 1 <= size then list + [Nul] else list[..size - 2] + [Nul, Nul]
  }

  /** The `while (*key)` walk of `read_config_file`: a C string at a time, up to the first empty one. */
  function NamesFrom(buf: WString, pos: nat): (names: seq<WString>)
    requires pos <= |buf|
    ensures forall i | 0 <= i < |names| :: |names[i]| > 0 && NoNul(names[i])
    decreases |buf| - pos
  {
    if pos == |buf| || buf[pos] == Nul then []
    else
      var name := CStrAt(buf, pos);
      var next := pos + |name| + 1;
      if next > |buf| then [name] else [name] + NamesFrom(buf, next)
  }

  /** The key names of a section as `read_config_file` reads them into its MSGSIZE buffer and walks them. */
  function ProfileKeyNames(ini: IniFile, section: WString): (keys: seq<WString>)
    ensures forall i | 0 <= i < |keys| :: |keys[i]| > 0 && NoNul(keys[i])
  {
    NamesFrom(KeyNamesBuffer(EntryKeys(SectionEntries(ini, section)), MsgSize), 0)
  }

  /** Key names as an ini file has them: none empty, none holding a NUL. */
  predicate PlainNames(keys: seq<WString>) {
    forall i | 0 <= i < |keys| :: |keys[i]| > 0 && NoNul(keys[i])
  }

  /**
   * The names read from a list cut after `m` units: the names wholly
   * before the cut, then the one the cut falls in, shortened to what is
   * left of it.
   */
  function CutNames(keys: seq<WString>, m: nat): (names: seq<WString>)
    ensures |names| <= |keys|
    ensures m >= |NameList(keys)| ==> names == keys
    decreases |keys|
  {
    if |keys| == 0 || m == 0 then []
    else if m <= |keys[0]| then [keys[0][..m]]
    else [keys[0]] + CutNames(keys[1..], m - |keys[0]| - 1)
  }

  /** Every name read is a prefix of the name in the file, and all but the last are whole. */
  lemma {:induction false} CutNamesArePrefixes(keys: seq<WString>, m: nat)
    ensures var names := CutNames(keys, m);
      && (forall i | 0 <= i < |names| :: StartsWith(keys[i], names[i]))
      && (forall i | 0 <= i < |names| - 1 :: names[i] == keys[i])
    decreases |keys|
  {
    if |keys| > 0 && m > 0 {
      if m <= |keys[0]| {
        assert StartsWith(keys[0], keys[0][..m]);
      } else {
        var tail := keys[1..];
        var rest := CutNames(tail, m - |keys[0]| - 1);
        CutNamesArePrefixes(tail, m - |keys[0]| - 1);
        var names := [keys[0]] + rest;
        assert CutNames(keys, m) == names;
        forall i | 0 <= i < |names|
          ensures StartsWith(keys[i], names[i]) && (i < |names| - 1 ==> names[i] == keys[i])
        {
          if i > 0 {
            assert names[i] == rest[i - 1] && keys[i] == tail[i - 1];
          }
        }
      }
    }
  }

  /** A list of names starts with the first name and a NUL. */
  lemma NameListHead(keys: seq<WString>)
    requires |keys| > 0
    ensures NameList(keys) == keys[0] + [Nul] + NameList(keys[1..])
    ensures |NameList(keys)| == |keys[0]| + 1 + |NameList(keys[1..])|
  {
  }

  /** One step of the walk: a name of `n` units ended by a NUL is read, and the walk goes on after the NUL. */
  lemma NamesFromStep(buf: WString, pos: nat, n: nat)
    requires 0 < n && pos + n < |buf| && NoNul(buf[pos..pos + n]) && buf[pos + n] == Nul
    ensures NamesFrom(buf, pos) == [buf[pos..pos + n]] + NamesFrom(buf, pos + n + 1)
  {
    CStrAtIs(buf, pos, n);
    assert buf[pos] == buf[pos..pos + n][0];
  }

  /** From `off` on, `buf` holds the first `m` units of the list of plain `keys`, then a NUL, then a NUL or its end. */
  predicate HoldsCutList(buf: WString, off: nat, keys: seq<WString>, m: nat) {
    && PlainNames(keys) && m <= |NameList(keys)| && off + m < |buf|
    && buf[off..off + m] == NameList(keys)[..m] && buf[off + m] == Nul
    && (off + m + 1 == |buf| || buf[off + m + 1] == Nul)
  }

  /** Walking a buffer that holds the first `m` units of the list, then NUL, then NUL or the end, reads `CutNames`. */
  lemma {:induction false} WalkReadsCutNames(buf: WString, off: nat, keys: seq<WString>, m: nat)
    requires HoldsCutList(buf, off, keys, m)
    ensures NamesFrom(buf, off) == CutNames(keys, m)
    decreases |keys|
  {
    if |keys| == 0 || m == 0 {
      assert NamesFrom(buf, off) == [];
      assert CutNames(keys, m) == [];
    } else if m <= |keys[0]| {
      WalkStopsInFirstName(buf, off, keys, m);
      assert NamesFrom(buf, off) == CutNames(keys, m);
    } else {
      var off', rest, m' := off + |keys[0]| + 1, keys[1..], m - |keys[0]| - 1;
      CutListRest(buf, off, keys, m);
      WalkPassesFirstName(buf, off, keys, m);
      WalkReadsCutNames(buf, off', rest, m');
      var tail := NamesFrom(buf, off');
      assert NamesFrom(buf, off) == [keys[0]] + tail;
      assert CutNames(keys, m) == [keys[0]] + tail;
    }
  }

  /** A cut inside the first name reads that name shortened to `m` units and nothing after it. */
  lemma WalkStopsInFirstName(buf: WString, off: nat, keys: seq<WString>, m: nat)
    requires HoldsCutList(buf, off, keys, m) && 0 < |keys| && 0 < m <= |keys[0]|
    ensures NamesFrom(buf, off) == [keys[0][..m]] == CutNames(keys, m)
  {
    var k0 := keys[0];
    NameListHead(keys);
    assert buf[off..off + m] == k0[..m] by {
      assert NameList(keys)[..m] == k0[..m];
    }
    NamesFromStep(buf, off, m);
    assert NamesFrom(buf, off + m + 1) == [];
  }

  /** A cut past the first name: that name is read whole, and the walk goes on after its NUL. */
  lemma WalkPassesFirstName(buf: WString, off: nat, keys: seq<WString>, m: nat)
    requires 0 < |keys| && 0 < |keys[0]| < m && NoNul(keys[0]) && off + |keys[0]| < |buf|
    requires buf[off..off + |keys[0]|] == keys[0] && buf[off + |keys[0]|] == Nul
    ensures NamesFrom(buf, off) == [keys[0]] + NamesFrom(buf, off + |keys[0]| + 1)
    ensures CutNames(keys, m) == [keys[0]] + CutNames(keys[1..], m - |keys[0]| - 1)
  {
    NamesFromStep(buf, off, |keys[0]|);
  }

  /** Past the first name and its NUL, the buffer holds the rest of the list cut `|keys[0]| + 1` units earlier. */
  lemma CutListRest(buf: WString, off: nat, keys: seq<WString>, m: nat)
    requires HoldsCutList(buf, off, keys, m) && 0 < |keys| && |keys[0]| < m
    ensures 0 < |keys[0]| && NoNul(keys[0]) && off + |keys[0]| < |buf|
    ensures buf[off..off + |keys[0]|] == keys[0] && buf[off + |keys[0]|] == Nul
    ensures HoldsCutList(buf, off + |keys[0]| + 1, keys[1..], m - |keys[0]| - 1)
  {
    var n := |keys[0]|;
    var rest := keys[1..];
    var off', m' := off + n + 1, m - n - 1;
    var list := NameList(keys);
    NameListHead(keys);
    assert buf[off..off + n] == keys[0] by {
      assert buf[off..off + n] == list[..m][..n] == keys[0];
    }
    assert buf[off + n] == list[n] == Nul;
    assert PlainNames(rest) by {
      assert forall i | 0 <= i < |rest| :: rest[i] == keys[i + 1];
    }
    assert off' + m' == off + m;
    assert buf[off'..off' + m'] == NameList(rest)[..m'] by {
      assert buf[off'..off + m] == buf[off..off + m][n + 1..];
      assert list[..m][n + 1..] == list[n + 1..m] == NameList(rest)[..m'];
    }
  }

  /**
   * For an ini file whose key names are plain, the names read are the
   * list cut where the MSGSIZE buffer ends: all of them when they fit,
   * else the names before unit `MSGSIZE - 2` and a shortened last one.
   */
  lemma ProfileKeyNamesAreCut(ini: IniFile, section: WString)
    requires PlainNames(EntryKeys(SectionEntries(ini, section)))
    ensures var keys := EntryKeys(SectionEntries(ini, section)); var list := NameList(keys);
      ProfileKeyNames(ini, section) == CutNames(keys, if |list| + 1 <= MsgSize then |list| else MsgSize - 2)
  {
    var keys := EntryKeys(SectionEntries(ini, section));
    var list := NameList(keys);
    var buf := KeyNamesBuffer(keys, MsgSize);
    if |list| + 1 <= MsgSize {
      assert buf[..|list|] == list[..|list|];
      WalkReadsCutNames(buf, 0, keys, |list|);
    } else {
      assert buf[..MsgSize - 2] == list[..MsgSize - 2];
      WalkReadsCutNames(buf, 0, keys, MsgSize - 2);
    }
  }

  /** Names that fit the buffer are all read, in file order. */
  lemma AllNamesReadWhenTheyFit(ini: IniFile, section: WString)
    requires PlainNames(EntryKeys(SectionEntries(ini, section)))
    requires |NameList(EntryKeys(SectionEntries(ini, section)))| < MsgSize
    ensures ProfileKeyNames(ini, section) == EntryKeys(SectionEntries(ini, section))
  {
    ProfileKeyNamesAreCut(ini, section);
  }

  /** A cut at or before where the `i`-th name starts reads at most `i` names. */
  lemma {:induction false} CutBeforeNameReadsFewer(keys: seq<WString>, m: nat, i: nat)
    requires i <= |keys| && m <= |NameList(keys[..i])|
    ensures |CutNames(keys, m)| <= i
    decreases i
  {
    if i > 0 && m > 0 && m > |keys[0]| {
      NameListHead(keys[..i]);
      assert keys[..i][1..] == keys[1..][..i - 1];
      CutBeforeNameReadsFewer(keys[1..], m - |keys[0]| - 1, i - 1);
    }
  }

  /** The list of the first `i` names and the list of the rest make up the whole list. */
  lemma {:induction false} NameListSplit(keys: seq<WString>, i: nat)
    requires i <= |keys|
    ensures NameList(keys) == NameList(keys[..i]) + NameList(keys[i..])
    decreases i
  {
    if i > 0 {
      NameListHead(keys);
      NameListHead(keys[..i]);
      assert keys[..i][1..] == keys[1..][..i - 1];
      assert keys[i..] == keys[1..][i - 1..];
      NameListSplit(keys[1..], i - 1);
    }
  }

  /**
   * A name that starts at or past unit `MSGSIZE - 2` of the list is never
   * read: with the first `i` names taking that much room, at most `i`
   * names are read.
   */
  lemma NamesPastTheBufferAreNotRead(ini: IniFile, section: WString, i: nat)
    requires PlainNames(EntryKeys(SectionEntries(ini, section)))
    requires i <= |SectionEntries(ini, section)|
    requires |NameList(EntryKeys(SectionEntries(ini, section))[..i])| >= MsgSize - 2
    ensures |ProfileKeyNames(ini, section)| <= i
  {
    var keys := EntryKeys(SectionEntries(ini, section));
    var list := NameList(keys);
    ProfileKeyNamesAreCut(ini, section);
    if |list| + 1 <= MsgSize {
      if i < |keys| {
        assert keys[i..][0] == keys[i];
        NameListSplit(keys, i);
        NameListHead(keys[i..]);
        assert false;
      }
    } else {
      CutBeforeNameReadsFewer(keys, MsgSize - 2, i);
    }
  }

  /** The configuration files found by `process`: the per-user `py.ini` and the one beside the launcher. */
  datatype Inis = Inis(user: Option<IniFile>, global: Option<IniFile>)

  const IniName: WString := Lit("\\py.ini")

  /** A `py.ini` path in a directory, copied with truncation into a MAX_PATH buffer. */
  function IniPathIn(dir: WString): (path: WString)
    ensures |path| < MaxPath
    ensures |dir| + |IniName| < MaxPath ==> path == dir + IniName
  {
    Truncate(dir + IniName, MaxPath - 1)
  }

  /**
   * `appdata_ini_path`: `py.ini` in the application-data folder, when the
   * folder is known and that file exists.
   */
  function UserIniPath(appData: Option<WString>, files: map<WString, IniFile>): (r: Option<WString>)
    ensures r.Some? ==> r.value in files && |r.value| < MaxPath
    ensures appData.None? ==> r.None?
    ensures appData.Some? && |appData.value| + |IniName| < MaxPath ==>
      (r.Some? <==> appData.value + IniName in files)
  {
    match appData
    case None => None
    case Some(dir) => var path := IniPathIn(dir); if path in files then Some(path) else None
  }

  /**
   * `launcher_ini_path`: `py.ini` in the launcher's own directory (the module
   * path up to its last backslash), when that file exists.
   */
  function GlobalIniPath(moduleFileName: WString, files: map<WString, IniFile>): (r: Option<WString>)
    ensures r.Some? ==> r.value in files && |r.value| < MaxPath
    ensures '\\' as int !in moduleFileName ==> r.None?
  {
    var path := Truncate(moduleFileName, MaxPath - 1);
    match LastIndexOf(path, '\\' as int)
    case None => None
    case Some(p) => var ini := IniPathIn(path[..p]); if ini in files then Some(ini) else None
  }

  /** The files `process` finds. */
  function LocateInis(appData: Option<WString>, moduleFileName: WString, files: map<WString, IniFile>): (inis: Inis)
    ensures inis.user.Some? <==> UserIniPath(appData, files).Some?
    ensures inis.global.Some? <==> GlobalIniPath(moduleFileName, files).Some?
  {
    var u := UserIniPath(appData, files);
    var g := GlobalIniPath(moduleFileName, files);
    Inis(if u.Some? then Some(files[u.value]) else None, if g.Some? then Some(files[g.value]) else None)
  }

  const Defaults: WString := Lit("defaults")

  /** A non-empty `[defaults]` value of an ini file, as `get_configured_value` reads it. */
  function DefaultsValue(ini: Option<IniFile>, key: WString): (r: Option<WString>)
    ensures r.Some? ==> 0 < |r.value| < MsgSize
    ensures r.Some? <==> ini.Some? && match FirstValue(SectionEntries(ini.value, Defaults), key)
      case None => false
      case Some(v) => |v| > 0
  {
    if ini.None? then None
    else var v := ProfileString(ini.value, Defaults, key, MsgSize); if |v| > 0 then Some(v) else None
  }

  /**
   * `get_configured_value`: a non-blank `py_<key>` environment variable,
   * else a non-empty per-user `[defaults]` value, else (only when the
   * per-user file exists) a non-empty global one.
   */
  function GetConfiguredValue(env: Environment, inis: Inis, key: WString): (r: Option<WString>)
    ensures r.Some? ==> |r.value| > 0
    ensures GetEnv(env, Lit("py_") + key).Some? ==> r == GetEnv(env, Lit("py_") + key)
    ensures GetEnv(env, Lit("py_") + key).None? && DefaultsValue(inis.user, key).Some? ==>
      r == DefaultsValue(inis.user, key)
    ensures GetEnv(env, Lit("py_") + key).None? && DefaultsValue(inis.user, key).None? ==>
      r == (if inis.user.Some? then DefaultsValue(inis.global, key) else None)
  {
    var e := GetEnv(env, Lit("py_") + key);
    if e.Some? then e
    else if inis.user.None? then None
    else
      var u := DefaultsValue(inis.user, key);
      if u.Some? then u
      else DefaultsValue(inis.global, key)
  }

  /** Without a per-user file the global file is never consulted: only the environment counts. */
  lemma GlobalNeedsUserFile(env: Environment, inis: Inis, key: WString)
    requires inis.user.None?
    ensures GetConfiguredValue(env, inis, key) == GetEnv(env, Lit("py_") + key)
  {
  }

  /** A variable that holds only white space does not override the files. */
  lemma BlankVariableIsIgnored(env: Environment, inis: Inis, key: WString)
    requires Fold(Lit("py_") + key) in env && Blank(CStrAt(env[Fold(Lit("py_") + key)], 0))
    ensures GetConfiguredValue(env, inis, key) ==
      (if inis.user.None? then None
       else if DefaultsValue(inis.user, key).Some? then DefaultsValue(inis.user, key)
       else DefaultsValue(inis.global, key))
  {
  }
}
