/**
 * The alias table of the console launcher (`commands[]`, `num_commands`):
 * the `[commands]` section of the global `py.ini` is loaded first and that
 * of the per-user file second, updating existing names in place, so the
 * per-user file wins name by name.
 */
module Commands {
  import opened Wrappers
  import opened Wide
  import opened Config

  /** MAX_COMMANDS */
  const MaxCommands: nat := 100

  const CommandsSection: WString := Lit("commands")

  /** COMMAND: an alias name and the command line it stands for. */
  datatype Command = Command(key: WString, value: WString)

  /** The index of the first entry at or after `i` whose name matches `name` without regard to case. */
  function FindIn(cmds: seq<Command>, name: WString, i: nat): (r: Option<nat>)
    requires i <= |cmds|
    ensures r.Some? ==> i <= r.value < |cmds| && SameIgnoringCase(cmds[r.value].key, name)
    ensures r.Some? ==> forall j | i <= j < r.value :: !SameIgnoringCase(cmds[j].key, name)
    ensures r.None? <==> forall j | i <= j < |cmds| :: !SameIgnoringCase(cmds[j].key, name)
    decreases |cmds| - i
  {
    if i == |cmds| then None
    else if SameIgnoringCase(cmds[i].key, name) then Some(i)
    else FindIn(cmds, name, i + 1)
  }

  /** The command line an alias stands for, as `find_command` reports it. */
  function Lookup(cmds: seq<Command>, name: WString): Option<WString> {
    match FindIn(cmds, name, 0)
    case None => None
    case Some(k) => Some(cmds[k].value)
  }

  /** An entry as `update_command` writes it: both strings truncated to their buffers. */
  function MakeCommand(name: WString, cmdline: WString): Command {
    Command(Truncate(name, MaxPath - 1), Truncate(cmdline, MsgSize - 1))
  }

  /** One name = value pair stored: an existing name is updated in place, a new one appended while there is room. */
  function Store(cmds: seq<Command>, name: WString, cmdline: WString): (r: seq<Command>)
    ensures |r| == |cmds| || (|r| == |cmds| + 1 && |cmds| < MaxCommands)
  {
    match FindIn(cmds, name, 0)
    case Some(k) => cmds[k := MakeCommand(name, cmdline)]
    case None => if |cmds| >= MaxCommands then cmds else cmds + [MakeCommand(name, cmdline)]
  }

  /** The value `read_config_file` reads for a name. */
  function ValueOf(ini: IniFile, name: WString): WString {
    ProfileString(ini, CommandsSection, name, MsgSize)
  }

  /** The names `keys` of `ini` stored one after the other. */
  function LoadKeys(cmds: seq<Command>, ini: IniFile, keys: seq<WString>): (r: seq<Command>)
    ensures |cmds| <= MaxCommands ==> |r| <= MaxCommands
    ensures |r| <= |cmds| + |keys|
    decreases |keys|
  {
    if |keys| == 0 then cmds
    else LoadKeys(Store(cmds, keys[0], ValueOf(ini, keys[0])), ini, keys[1..])
  }

  /** What `read_config_file` makes of the table. */
  function LoadFile(cmds: seq<Command>, ini: IniFile): seq<Command> {
    LoadKeys(cmds, ini, ProfileKeyNames(ini, CommandsSection))
  }

  /** What `read_commands` makes of the table: the global file first, then the per-user file. */
  function LoadCommands(cmds: seq<Command>, inis: Inis): seq<Command> {
    var afterGlobal := if inis.global.Some? then LoadFile(cmds, inis.global.value) else cmds;
    if inis.user.Some? then LoadFile(afterGlobal, inis.user.value) else afterGlobal
  }

  /** Names that fit the key buffer of a COMMAND. */
  predicate ShortNames(keys: seq<WString>) {
    forall i | 0 <= i < |keys| :: |keys[i]| < MaxPath
  }

  predicate Mentions(keys: seq<WString>, name: WString) {
    exists i | 0 <= i < |keys| :: SameIgnoringCase(keys[i], name)
  }

  lemma {:induction false} FirstValueIgnoresCase(entries: seq<Entry>, a: WString, b: WString)
    requires SameIgnoringCase(a, b)
    ensures FirstValue(entries, a) == FirstValue(entries, b)
    decreases |entries|
  {
    if |entries| > 0 {
      FirstValueIgnoresCase(entries[1..], a, b);
    }
  }

  /** Names that match without regard to case read the same value. */
  lemma ValueOfIgnoresCase(ini: IniFile, a: WString, b: WString)
    requires SameIgnoringCase(a, b)
    ensures ValueOf(ini, a) == ValueOf(ini, b)
  {
    FirstValueIgnoresCase(SectionEntries(ini, CommandsSection), a, b);
  }

  /** An entry that matches, with no match before it, is the one found. */
  lemma FindInIsFirst(cmds: seq<Command>, name: WString, k: nat)
    requires k < |cmds| && SameIgnoringCase(cmds[k].key, name)
    requires forall j | 0 <= j < k :: !SameIgnoringCase(cmds[j].key, name)
    ensures FindIn(cmds, name, 0) == Some(k)
  {
  }

  /** Storing a name makes it found, with the value stored, when the table has room for it. */
  lemma StoreSets(cmds: seq<Command>, name: WString, cmdline: WString)
    requires |name| < MaxPath && |cmdline| < MsgSize
    requires FindIn(cmds, name, 0).Some? || |cmds| < MaxCommands
    ensures Lookup(Store(cmds, name, cmdline), name) == Some(cmdline)
  {
    var r := Store(cmds, name, cmdline);
    var c := MakeCommand(name, cmdline);
    assert c == Command(name, cmdline);
    var f := FindIn(cmds, name, 0);
    var k := if f.Some? then f.value else |cmds|;
    assert r[k] == c;
    assert forall j | 0 <= j < k :: r[j] == cmds[j];
    FindInIsFirst(r, name, k);
  }

  /** Storing one name leaves what every other name stands for unchanged. */
  lemma StoreKeepsOthers(cmds: seq<Command>, name: WString, cmdline: WString, other: WString)
    requires |name| < MaxPath && !SameIgnoringCase(name, other)
    ensures Lookup(Store(cmds, name, cmdline), other) == Lookup(cmds, other)
  {
    var r := Store(cmds, name, cmdline);
    var c := MakeCommand(name, cmdline);
    assert c.key == name;
    var f := FindIn(cmds, name, 0);
    assert forall j | 0 <= j < |cmds| :: SameIgnoringCase(r[j].key, other) == SameIgnoringCase(cmds[j].key, other);
    var m := FindIn(cmds, other, 0);
    if m.Some? {
      assert r[m.value] == cmds[m.value];
      FindInIsFirst(r, other, m.value);
    } else if |r| > |cmds| {
      assert r[|cmds|] == c;
    }
  }

  /** A full table drops a new name. */
  lemma StoreDropsWhenFull(cmds: seq<Command>, name: WString, cmdline: WString)
    requires |cmds| >= MaxCommands && FindIn(cmds, name, 0).None?
    ensures Store(cmds, name, cmdline) == cmds
  {
  }

  /** Loading names none of which matches `other` leaves what `other` stands for unchanged. */
  lemma {:induction false} LoadKeysKeepsOthers(cmds: seq<Command>, ini: IniFile, keys: seq<WString>, other: WString)
    requires ShortNames(keys) && !Mentions(keys, other)
    ensures Lookup(LoadKeys(cmds, ini, keys), other) == Lookup(cmds, other)
    decreases |keys|
  {
    if |keys| > 0 {
      var next := Store(cmds, keys[0], ValueOf(ini, keys[0]));
      StoreKeepsOthers(cmds, keys[0], ValueOf(ini, keys[0]), other);
      assert forall i | 0 <= i < |keys| - 1 :: keys[1..][i] == keys[i + 1];
      LoadKeysKeepsOthers(next, ini, keys[1..], other);
    }
  }

  /** After loading, every loaded name stands for the value the file gives it, when the table had room. */
  lemma {:induction false} LoadKeysSets(cmds: seq<Command>, ini: IniFile, keys: seq<WString>, name: WString)
    requires ShortNames(keys) && Mentions(keys, name) && |cmds| + |keys| <= MaxCommands
    ensures Lookup(LoadKeys(cmds, ini, keys), name) == Some(ValueOf(ini, name))
    decreases |keys|
  {
    var next := Store(cmds, keys[0], ValueOf(ini, keys[0]));
    assert forall i | 0 <= i < |keys| - 1 :: keys[1..][i] == keys[i + 1];
    if Mentions(keys[1..], name) {
      LoadKeysSets(next, ini, keys[1..], name);
    } else {
      assert SameIgnoringCase(keys[0], name);
      ValueOfIgnoresCase(ini, keys[0], name);
      StoreSets(cmds, keys[0], ValueOf(ini, keys[0]));
      assert FindIn(next, name, 0) == FindIn(next, keys[0], 0) by {
        FindInIgnoresCase(next, keys[0], name, 0);
      }
      LoadKeysKeepsOthers(next, ini, keys[1..], name);
    }
  }

  lemma {:induction false} FindInIgnoresCase(cmds: seq<Command>, a: WString, b: WString, i: nat)
    requires SameIgnoringCase(a, b) && i <= |cmds|
    ensures FindIn(cmds, a, i) == FindIn(cmds, b, i)
    decreases |cmds| - i
  {
    if i < |cmds| {
      FindInIgnoresCase(cmds, a, b, i + 1);
    }
  }

  /**
   * After `read_commands`, a name the per-user file defines stands for the
   * per-user value, and a name only the global file defines stands for the
   * global value (provided both files together define at most
   * MAX_COMMANDS names, each shorter than MAX_PATH).
   */
  lemma ReadCommandsPerUserWins(global: IniFile, user: IniFile, name: WString)
    requires var g, u := ProfileKeyNames(global, CommandsSection), ProfileKeyNames(user, CommandsSection);
      ShortNames(g) && ShortNames(u) && |g| + |u| <= MaxCommands
    ensures var g, u := ProfileKeyNames(global, CommandsSection), ProfileKeyNames(user, CommandsSection);
      var table := LoadCommands([], Inis(Some(user), Some(global)));
      (Mentions(u, name) ==> Lookup(table, name) == Some(ValueOf(user, name))) &&
      (Mentions(g, name) && !Mentions(u, name) ==> Lookup(table, name) == Some(ValueOf(global, name)))
  {
    var g, u := ProfileKeyNames(global, CommandsSection), ProfileKeyNames(user, CommandsSection);
    var afterGlobal := LoadFile([], global);
    if Mentions(u, name) {
      LoadKeysSets(afterGlobal, user, u, name);
    } else if Mentions(g, name) {
      LoadKeysSets([], global, g, name);
      LoadKeysKeepsOthers(afterGlobal, user, u, name);
    }
  }

  /** The alias table: a fixed array of MAX_COMMANDS entries of which the first `numCommands` are in use. */
  class CommandTable {
    const commands: array<Command>
    var numCommands: nat

    ghost predicate Valid()
      reads this
    {
      commands.Length == MaxCommands && numCommands <= MaxCommands
    }

    function Contents(): (c: seq<Command>)
      requires Valid()
      reads this, commands
      ensures |c| <= MaxCommands
    {
      commands[..numCommands]
    }

    constructor ()
      ensures Valid() && Contents() == [] && fresh(commands)
    {
      commands := new Command[MaxCommands](_ => Command([], []));
      numCommands := 0;
    }

    /** `find_command`: the first entry in use whose name matches without regard to case. */
    method FindCommand(name: WString) returns (r: Option<nat>)
      requires Valid()
      ensures r == FindIn(Contents(), name, 0)
    {
      var i := 0;
      while i < numCommands
        invariant 0 <= i <= numCommands
        invariant FindIn(Contents(), name, i) == FindIn(Contents(), name, 0)
      {
        if SameIgnoringCase(commands[i].key, name) {
          return Some(i);
        }
        i := i + 1;
      }
      return None;
    }

    /** `update_command`: overwrite entry `i` with the truncated name and command line. */
    method UpdateCommand(i: nat, name: WString, cmdline: WString)
      requires Valid() && i < numCommands
      modifies commands
      ensures Valid() && Contents() == old(Contents())[i := MakeCommand(name, cmdline)]
    {
      commands[i] := MakeCommand(name, cmdline);
    }

    /** `add_command`: append an entry, or drop it when the table is full. */
    method AddCommand(name: WString, cmdline: WString)
      requires Valid()
      modifies this, commands
      ensures Valid()
      ensures Contents() == if |old(Contents())| >= MaxCommands then old(Contents())
                            else old(Contents()) + [MakeCommand(name, cmdline)]
    {
      if numCommands < MaxCommands {
        commands[numCommands] := MakeCommand(name, cmdline);
        numCommands := numCommands + 1;
      }
    }

    /** `read_config_file`: the `[commands]` names that fit its MSGSIZE name buffer, in order, each with the value the file gives it. */
    method ReadConfigFile(ini: IniFile)
      requires Valid()
      modifies this, commands
      ensures Valid() && Contents() == LoadFile(old(Contents()), ini)
    {
      var keys := ProfileKeyNames(ini, CommandsSection);
      var i := 0;
      while i < |keys|
        invariant Valid() && 0 <= i <= |keys|
        invariant LoadKeys(Contents(), ini, keys[i..]) == LoadFile(old(Contents()), ini)
      {
        var key := keys[i];
        var value := ProfileString(ini, CommandsSection, key, MsgSize);
        var cp := FindCommand(key);
        if cp.None? {
          AddCommand(key, value);
        } else {
          UpdateCommand(cp.value, key, value);
        }
        assert keys[i..][1..] == keys[i + 1..];
        i := i + 1;
      }
    }

    /** `read_commands`: the global file first, then the per-user file. */
    method ReadCommands(inis: Inis)
      requires Valid()
      modifies this, commands
      ensures Valid() && Contents() == LoadCommands(old(Contents()), inis)
    {
      if inis.global.Some? {
        ReadConfigFile(inis.global.value);
      }
      if inis.user.Some? {
        ReadConfigFile(inis.user.value);
      }
    }
  }
}
