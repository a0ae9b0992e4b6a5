# Python Launcher for Windows (PEP 397), modelled in Dafny

This project models the core of `pylauncher`, the Python launcher for
Windows described by PEP 397. The launcher is started as `py.exe` (console)
or `pyw.exe` (windowed). It chooses an installed Python interpreter and runs
it, and it decides in this order:

- a version qualifier on the command line (`-2`, `-3.1`, `-2.7-32`);
- the `#!` line of the script being run: builtin virtual paths such as
  `/usr/bin/env python3`, or aliases from the `[commands]` section of
  `py.ini`;
- configured defaults, from the environment (`PY_PYTHON`, `PY_PYTHON3`) or
  from the `[defaults]` section of `py.ini`;
- a built-in fallback: the highest 2.x, then the highest 3.x.

The model covers these parts:

- **Console launcher** (`CLILauncher/launcher.c`), modules `Wide`, `Launch`,
  `Encoding`, `Catalog`, `Config`, `Commands`, `CliShebang` and
  `CliLauncher`. It covers:
  - the interpreter catalog order and the version lookup;
  - environment and `py.ini` configuration;
  - the alias table;
  - reading and decoding a script's first line, with BOM detection, the
    line terminator, and UTF-8 / UTF-16 decoding;
  - `parse_shebang`;
  - the dispatch of a shebang line;
  - `validate_version`, `get_version_info`, `skip_me`, the child command
    line, and `process` as a whole.

  State the C code keeps in statics becomes state of Dafny classes:
  - the alias table is `Commands.CommandTable`, a fixed array of
    `MAX_COMMANDS` entries;
  - the `config_key` buffer that `locate_python` rewrites is
    `CliLauncher.VersionLocator`;
  - the line buffer that `parse_shebang` trims and cuts in place is an
    `array`.
- **Windowed launcher** (`GUILauncher/launcher.c`, the `PEP397` branch),
  module `GuiLauncher`. It has its own `parse_shebang` with two virtual
  paths, an `env_key` buffer (`GuiLauncher.EnvKeyLocator`), and a qualifier
  test decided by length.
- **The test suite's reference resolver and oracle** (`tests.py`), module
  `Reference`. It covers:
  - the sorted catalog and `locate_python_ver` / `locate_python`;
  - `get_python_for_shebang`;
  - `make_script`'s line ends and BOM;
  - `update_for_installed_pythons`, on `TestPython` records and the
    `SHEBANGS` dictionary (`ShebangTable`).
- **The associator** (`Associator/main.c`): `compare_pythons` (shared with
  `Catalog`) and the placement arithmetic of `CentreWindow`, module
  `Associator`.
- **The messager** (`Messager/main.c`): how `wWinMain` splits its command
  line at `~` into icon, text, caption and delay, and which message box
  that selects, module `Messager`.

External inputs become parameters of the model:
- the registry catalog (already sorted, as `qsort` leaves it);
- the environment (a map keyed by the case-folded name);
- the `py.ini` files (parsed sections);
- the bytes of each script (the 256-byte buffer as `fread` leaves it);
- the command line and `argv`.

A run ends in `Launch.Outcome`, which is one of:
- `Spawn(command line)` when a child process would be created;
- `Fail(code)` for the `error` exits, `RC_BAD_VIRTUAL_PATH` (102) and
  `RC_NO_PYTHON` (103);
- `Undefined` where the C code reads memory it never wrote.

Some of the launcher's behaviour is easy to misread. In each of these
cases the model follows the C code:
- Keys are compared without regard to case. Both `GetPrivateProfileString`
  and `_wcsicmp` in `find_command` ignore ASCII case.
- The global `py.ini` `[defaults]` are consulted only when a per-user
  `py.ini` exists (`CLILauncher/launcher.c:337-349`).
- A qualifier's word size is not checked as such (`validate_version`).
- With no tag and nothing configured, the fallback prefers 2.x over a
  higher 3.x. The test oracle expects 3.x for a script without a shebang
  (`Reference.OracleAndLauncherDisagreeWithoutShebang`).

There is one exception: the two script-reading defects under "## Findings".
A script's first line is read with the corrected `find_BOM` and
`find_terminator`. On the inputs those defects concern, a run falls
through where the C reads memory it never wrote (see "## Left out").

## Model

| member | source | states |
|---|---|---|
| Wide.SkipWhitespace | CLILauncher/launcher.c:44-50 | `skip_whitespace` returns the first index at or after `i` that is not C-locale white space, with only white space before it |
| Wide.SkipWsIs | CLILauncher/launcher.c:44-50 | the index skipped to is the unique one with white space before it and none at it |
| Wide.SkipWsInCStr | CLILauncher/launcher.c:44-50 | skipping white space inside a buffer is trimming the leading white space of the C string there |
| Wide.SameIgnoringCaseUnits | CLILauncher/launcher.c:528 | `_wcsicmp(a, b) == 0` holds exactly when the strings agree unit by unit up to ASCII case |
| Wide.AgreeUpToWhole | CLILauncher/launcher.c:304 | `wcsncmp(a, b, wcslen(b)) == 0` says exactly that `a` starts with `b` |
| Wide.LexLessTransitive | CLILauncher/launcher.c:264-274 | the `wcscmp` order on versions is transitive |
| Catalog.ComparePythons | CLILauncher/launcher.c:264-274 | the comparator is negative, zero or positive exactly as its first entry comes before, ties with, or comes after the second: version descending, then 64-bit before 32-bit (the associator's `compare_pythons` at `Associator/main.c:169-180` is the same function) |
| Catalog.GuiComparePythons | GUILauncher/launcher.c:237-242 | the windowed comparator orders by version alone, descending |
| Catalog.PrecedesIsStrictOrder | CLILauncher/launcher.c:264-274 | the catalog order is irreflexive and transitive, as `qsort` needs |
| Catalog.PrecedesIsTotal | CLILauncher/launcher.c:264-274 | two entries are ordered one way or the other unless they tie in both version and word size |
| Catalog.AgreesIsPrefixEitherWay | CLILauncher/launcher.c:300-306 | `wcsncmp(version, wanted, wcslen(wanted)) == 0` holds exactly when one of the two is a prefix of the other |
| Catalog.AgreesExamples | CLILauncher/launcher.c:300-306 | "3" matches "3.2" and "2.7-32" matches "2.7", but "3" does not match "2.7" |
| Catalog.FirstAgreeing | CLILauncher/launcher.c:293-310 | the result is the first agreeing index at or after `i`; it is none exactly when no entry there agrees |
| Catalog.FindPythonByVersion | CLILauncher/launcher.c:293-310 | the loop returns the first agreeing catalog index, and none exactly when no entry agrees |
| Catalog.FoundEntryIsHighest | CLILauncher/launcher.c:293-310 | in a sorted catalog, no entry that agrees with the tag is ordered before the entry found: it is the highest such version, 64-bit first |
| Config.EnvLookup | CLILauncher/launcher.c:57-60 | `_wgetenv` of a set variable reads as a NUL-free C string |
| Config.GetEnv | CLILauncher/launcher.c:57-67 | `get_env` returns the value without its leading white space, and treats a missing or blank value as absent |
| Config.GetEnvOfPadded | CLILauncher/launcher.c:57-67 | a value padded with leading white space is read without the padding |
| Config.GetEnvIgnoresCase | CLILauncher/launcher.c:57-67 | names that differ only in ASCII case read the same value |
| Config.FirstValue | CLILauncher/launcher.c:572-573 | the value of the first entry whose key matches without regard to case; none exactly when no key matches |
| Config.ProfileKeyNames | CLILauncher/launcher.c:559-583 | the names walked out of the MSGSIZE `keynames` buffer are non-empty and hold no NUL |
| Config.KeyNamesBuffer | CLILauncher/launcher.c:565-566 | the name buffer is at most MSGSIZE units and ends in a NUL |
| Config.NamesFrom | CLILauncher/launcher.c:571-583 | every name the `while (*key)` walk reads is non-empty and holds no NUL |
| Config.CutNames | CLILauncher/launcher.c:565-583 | a cut list yields no more names than the file has, and all of them when the cut is past the whole list |
| Config.CutNamesArePrefixes | CLILauncher/launcher.c:565-583 | each name read from a cut list is a prefix of the file's name, and all but the last are whole |
| Config.WalkReadsCutNames | CLILauncher/launcher.c:571-583 | walking a buffer that holds the name list cut after `m` units, then NULs, reads exactly `CutNames` of the list |
| Config.ProfileKeyNamesAreCut | CLILauncher/launcher.c:559-583 | with plain key names, the names read are all of them when the list fits MSGSIZE, else the list cut at unit MSGSIZE - 2, the last name shortened |
| Config.AllNamesReadWhenTheyFit | CLILauncher/launcher.c:559-583 | names whose list is shorter than MSGSIZE are all read, in file order |
| Config.NamesPastTheBufferAreNotRead | CLILauncher/launcher.c:559-583 | when the first `i` names fill MSGSIZE - 2 units, no name after them is read |
| Config.CutBeforeNameReadsFewer | CLILauncher/launcher.c:565-583 | a cut at or before where name `i` starts reads at most `i` names |
| Config.NameListSplit | CLILauncher/launcher.c:565-566 | the name list of a sequence is the list of its first names followed by the list of the rest |
| Config.IniPathIn | CLILauncher/launcher.c:994-996 | the path always fits MAX_PATH, and is the directory followed by `\py.ini` whenever that fits |
| Config.UserIniPath | CLILauncher/launcher.c:988-1002 | a per-user path found names an existing file and fits MAX_PATH; there is none without the application-data folder; when the path fits, it is found exactly when the file exists |
| Config.GlobalIniPath | CLILauncher/launcher.c:1003-1043 | a global path found names an existing file and fits MAX_PATH; there is none when the launcher's name holds no backslash |
| Config.LocateInis | CLILauncher/launcher.c:988-1043 | each configuration file is used exactly when its path was found |
| Config.DefaultsValue | CLILauncher/launcher.c:338-348 | the `[defaults]` value of a file counts only when it is not empty |
| Config.GetConfiguredValue | CLILauncher/launcher.c:321-354 | a value found is non-empty; a usable `py_<key>` variable wins; otherwise the per-user `[defaults]` value; otherwise the global one |
| Config.GlobalNeedsUserFile | CLILauncher/launcher.c:337-349 | without a per-user file the global file is never consulted |
| Config.BlankVariableIsIgnored | CLILauncher/launcher.c:333-336 | a `py_<key>` variable holding only white space does not override the files |
| Commands.FindIn | CLILauncher/launcher.c:521-534 | the result is the first entry whose name matches without regard to case; none exactly when no entry matches |
| Commands.Store | CLILauncher/launcher.c:537-554 | storing keeps the table's length or adds one entry, and adds one only while the table is below MAX_COMMANDS |
| Commands.LoadKeys | CLILauncher/launcher.c:570-584 | a table within MAX_COMMANDS stays within it, and grows by at most one entry per name |
| Commands.ValueOfIgnoresCase | CLILauncher/launcher.c:572-573 | names that match without regard to case read the same value from a file |
| Commands.FindInIsFirst | CLILauncher/launcher.c:527-531 | a matching entry with no match before it is the one found |
| Commands.StoreSets | CLILauncher/launcher.c:544-554 | after storing, the name is found with the (truncated) value stored, when the table had room or already held it |
| Commands.StoreKeepsOthers | CLILauncher/launcher.c:537-554 | storing one name leaves what every other name stands for unchanged |
| Commands.StoreDropsWhenFull | CLILauncher/launcher.c:546-548 | a full table drops a new name and is left as it was |
| Commands.LoadKeysKeepsOthers | CLILauncher/launcher.c:570-584 | loading names none of which matches `other` leaves what `other` stands for unchanged |
| Commands.LoadKeysSets | CLILauncher/launcher.c:570-584 | after loading, every loaded name stands for the value the file gives it, when the table had room |
| Commands.ReadCommandsPerUserWins | CLILauncher/launcher.c:587-593 | the global file is read first and the per-user file second, so a name in both stands for the per-user value |
| Commands.CommandTable.Contents | CLILauncher/launcher.c:511-519 | the table in use is the first `num_commands` entries of the array, at most MAX_COMMANDS |
| Commands.CommandTable.FindCommand | CLILauncher/launcher.c:521-534 | `find_command` returns the first entry in use whose name matches without regard to case |
| Commands.CommandTable.UpdateCommand | CLILauncher/launcher.c:537-541 | `update_command` overwrites entry `i` with the truncated name and command line, and nothing else |
| Commands.CommandTable.AddCommand | CLILauncher/launcher.c:544-554 | `add_command` appends the truncated entry, or leaves a full table as it was |
| Commands.CommandTable.ReadConfigFile | CLILauncher/launcher.c:557-585 | `read_config_file` leaves the table that storing, in file order, the `[commands]` names that fit the MSGSIZE name buffer gives, the last possibly cut short |
| Commands.CommandTable.ReadCommands | CLILauncher/launcher.c:587-593 | `read_commands` loads the global file, then the per-user file |
| Launch.ChildCommandFits | CLILauncher/launcher.c:465-499 | the child command starts with the executable and ends with the arguments passed on; the buffer `invoke_child` sizes holds it and its NUL exactly, so nothing is truncated |
| Launch.SkipMe | CLILauncher/launcher.c:892-913 | `skip_me` returns a suffix of the command line that starts with no white space |
| Launch.SkipMeUnquoted | CLILauncher/launcher.c:892-913 | an unquoted program name is skipped up to the first space, and the white space after it too |
| Launch.SkipMeQuoted | CLILauncher/launcher.c:892-913 | a quoted program name is skipped up to its closing quote, spaces inside it included |
| Launch.SkipMeNameOnly | CLILauncher/launcher.c:906-907 | a command line holding only an unquoted program name leaves "" |
| Launch.LastKept | CLILauncher/launcher.c:649-650 | the backward scan stops at the last unit that is not white space, or at the text's start, with only white space after it |
| Launch.TrimTrailing | CLILauncher/launcher.c:648-652 | the trimming loop leaves the line buffer as `TrimEnd` describes |
| Launch.TrimEndText | CLILauncher/launcher.c:648-652 | trimming leaves a prefix of the text followed only by white space; all trailing white space is cut unless the whole text after its first unit is white space |
| Launch.TrimEndKeeps | CLILauncher/launcher.c:648-652 | units that are neither white space nor NUL survive trimming |
| Launch.TrimEndNothingTrailing | CLILauncher/launcher.c:648-652 | a line whose last unit is not white space is left as it is |
| Launch.SplitCommand | CLILauncher/launcher.c:868-872 | the command is the C string up to its first space; a suffix exists exactly when there is a space, and it is the rest with leading white space skipped |
| Launch.SplitAtSpace | CLILauncher/launcher.c:868-872 | the in-place cut leaves the buffer reading as `SplitCommand` says: the command at `off` and the suffix after the NUL |
| Launch.SplitAtSpaceReads | CLILauncher/launcher.c:868-872 | after a NUL is written at the first space, the command reads as the part before it and the suffix as the trimmed rest |
| Launch.FirstLine | CLILauncher/launcher.c:762-857 | the decoded first line holds at least one and at most BUFSIZE units |
| Launch.DecodeFirstLine | CLILauncher/launcher.c:762-857 | decoding into a fresh `shebang_line` buffer gives `FirstLine`, and the buffer holds its units |
| Launch.StoreLine | CLILauncher/launcher.c:796-827 | the fresh `shebang_line` buffer holds exactly the units of the decoded line, byte-swapped in place for UTF-16BE |
| Launch.Utf8FirstLine | CLILauncher/launcher.c:762-802 | a first line ending in LF, alone or after the UTF-8 BOM, is read as its UTF-8 decoding |
| Launch.FirstLineIgnoresUtf8Bom | CLILauncher/launcher.c:767-779 | a UTF-8 BOM in front of a first line ending in LF changes nothing: both scripts decode to that line |
| Encoding.FirstBomFrom | CLILauncher/launcher.c:674-700 | the result is the first table entry whose whole signature begins the buffer; none exactly when no signature does |
| Encoding.FindBom | CLILauncher/launcher.c:684-700 | the corrected `find_BOM` loop returns the index of the first table entry whose signature begins the buffer |
| Encoding.Utf32LeNeverFound | CLILauncher/launcher.c:674-681 | the UTF-32LE entry is never reported, because the UTF-16LE entry before it matches its first two bytes |
| Encoding.FirstBomAsWrittenFrom | CLILauncher/launcher.c:684-700 | `find_BOM` as written reports an entry whose signature `strncmp`-matches the buffer |
| Encoding.LeadingNulIsTakenForUtf32Be | CLILauncher/launcher.c:693-694 | as written, any buffer whose first byte is 0 is taken for UTF-32BE; the corrected search finds no BOM there |
| Encoding.FindBomAgreesOtherwise | CLILauncher/launcher.c:693-694 | when the first byte is not 0, the `strncmp` and whole-signature comparisons agree |
| Encoding.LineEndIn | CLILauncher/launcher.c:711-720 | the result is the first CR or LF in the range; none exactly when the range holds neither |
| Encoding.FindTerminator | CLILauncher/launcher.c:703-734 | a terminator is found exactly when the buffer holds a CR or LF after `start`; the result points just past it, with the extra bytes of a UTF-16LE or UTF-32LE terminator |
| Encoding.TerminatorScanOverrunsBuffer | CLILauncher/launcher.c:779 | as written, after a BOM, a line with no terminator inside the buffer is ended by a byte after the buffer; the corrected scan finds no line |
| Encoding.TerminatorScansAgreeInside | CLILauncher/launcher.c:703-734 | without a BOM, or with a terminator inside the buffer, the as-written and corrected scans agree |
| Encoding.BigEndianIsSwappedLittleEndian | CLILauncher/launcher.c:803-828 | decoding UTF-16BE is decoding UTF-16LE after exchanging each byte pair |
| Encoding.Utf16LeRoundTrip | CLILauncher/launcher.c:817-828 | copying little-endian bytes as code units inverts the encoding of those units |
| Encoding.SwapUtf16Be | CLILauncher/launcher.c:803-815 | the byte-swapping loop writes the UTF-16BE units into the front of the line buffer and leaves the rest |
| Encoding.Utf8Decode | CLILauncher/launcher.c:797-802 | UTF-8 decoding yields no more units than bytes, and at least one for non-empty input |
| Encoding.Utf8Encode | tests.py:213-217 | `str.encode('utf-8')` succeeds exactly when no lone surrogate is present |
| Encoding.Utf8RoundTrip | CLILauncher/launcher.c:797-802 | decoding what was encoded as UTF-8 gives the string back |
| Encoding.DecodeHeader | CLILauncher/launcher.c:795-857 | a decoded line holds at least one unit, no more units than header bytes, and lies inside the buffer |
| Encoding.Utf32Units | CLILauncher/launcher.c:830-856 | the UTF-32 loops write one unit per four header bytes, the code point's low 16 bits in the marked byte order |
| Encoding.Utf32Header | CLILauncher/launcher.c:858-861 | a UTF-32 line is never a decoded line: it is undefined when its written units start `#!` and no NUL ends the white space after it, and otherwise decides nothing |
| Encoding.SkipWsCells | CLILauncher/launcher.c:611 | skipping white space stops at the first unwritten unit or the first unit that is not white space |
| Encoding.SkipWsCellsOfUtf32 | CLILauncher/launcher.c:611 | over a converted UTF-32 line, the skip stops where the skip over its written units does, or at the first unwritten unit |
| Encoding.Utf32GarbageIffUnwrittenRead | CLILauncher/launcher.c:604-652 | a UTF-32 line is undefined exactly when `parse_shebang` reads one of the units `nchars` counts but the conversion never wrote; otherwise the run goes on as without a shebang |
| Encoding.Utf32BeLineWithoutShebang | CLILauncher/launcher.c:610 | a UTF-32BE first line "i" decides nothing: unit 0 is not `#` |
| Encoding.Utf32BeShebangIsGarbage | CLILauncher/launcher.c:611-652 | a UTF-32BE first line `#!p` is undefined: the trim reads an unwritten unit |
| CliShebang.FirstBuiltin | CLILauncher/launcher.c:614-624 | the result is the first builtin virtual path the text starts with; none exactly when it starts with none |
| CliShebang.BuiltinsEndWithPython | CLILauncher/launcher.c:618-621 | every builtin virtual path ends with "python", as the comment relies on |
| CliShebang.PythonInBuiltinText | CLILauncher/launcher.c:621 | in a text starting with a builtin path, `wcsstr(..., "python")` finds "python" no later than that path's own |
| CliShebang.Recognise | CLILauncher/launcher.c:612-647 | a virtual text has its command inside the text, with "python" standing there; a suffix comes only with an alias |
| CliShebang.ParseShebangSpec | CLILauncher/launcher.c:595-656 | `parse_shebang` keeps the line terminated and its length; without a command it is not virtual, has no suffix and leaves the line alone; a virtual command lies in the line; a suffix comes only with an alias |
| CliShebang.ParseShebang | CLILauncher/launcher.c:595-656 | the method on the line buffer returns what `ParseShebangSpec` says and leaves the buffer as the trimmed line |
| CliShebang.RecogniseText | CLILauncher/launcher.c:612-647 | the recognition step on the buffer leaves it as it was (the zapped unit is put back) and agrees with `Recognise` |
| CliShebang.LookupAlias | CLILauncher/launcher.c:634-646 | the alias lookup on the buffer cuts the name at the first separator, restores it, and agrees with `RecogniseName` |
| CliShebang.MatchBuiltin | CLILauncher/launcher.c:614-624 | the loop over `builtin_virtual_paths` returns `FirstBuiltin` |
| CliShebang.RecognisedPython | CLILauncher/launcher.c:614-624 | a recognised builtin path has its "python" inside the text |
| CliShebang.ParseVirtualFacts | CLILauncher/launcher.c:612-653 | a virtual command is the "python" inside the text after `#!` and white space, and the line is trimmed after it |
| CliShebang.VirtualCommandIsPython | CLILauncher/launcher.c:618-621 | the command of a virtual line, cut at its first space, still starts with "python" |
| CliShebang.BuiltinShebang | CLILauncher/launcher.c:595-656 | `#!` + builtin path + `v` + trailing white space is virtual; its command, cut at its first space, is "python" + `v` with no suffix |
| CliShebang.EnvWithTwoSpacesIsLiteral | CLILauncher/launcher.c:614-647 | `#!/usr/bin/env  python` (two spaces) matches no builtin path; with no alias it is not virtual and the whole text is the command |
| CliShebang.AliasShebang | CLILauncher/launcher.c:634-646 | `#!name rest` with `name` an alias is not virtual; the alias's value is the command and `rest` the suffix |
| CliShebang.NoBuiltinStarts | CLILauncher/launcher.c:614-616 | a text that starts with neither '/' nor 'p' starts with no builtin path |
| CliLauncher.DefaultPython | CLILauncher/launcher.c:377-385 | the overall default is a catalog index: the configured value, then "2", then "3" |
| CliLauncher.LocatePythonSpec | CLILauncher/launcher.c:357-388 | `locate_python` returns a valid catalog index or none |
| CliLauncher.VersionLocator.constructor | CLILauncher/launcher.c:359-361 | the `config_key` buffer starts as "pythonX" |
| CliLauncher.VersionLocator.Key | CLILauncher/launcher.c:359-361 | the key reads as "python" when its last unit is NUL, else as "python" and that unit |
| CliLauncher.VersionLocator.LocatePython | CLILauncher/launcher.c:357-388 | the method returns `LocatePythonSpec`; the key's last unit is left as the major version asked for, as NUL after a default search, and untouched otherwise |
| CliLauncher.LocateExplicitTag | CLILauncher/launcher.c:375-376 | a tag of two or more units gives the first agreeing entry; none exactly when no entry agrees |
| CliLauncher.LocateMajorVersion | CLILauncher/launcher.c:368-376 | a one-unit tag is replaced by the configured `python<major>` value, with no fallback when that matches nothing; it is looked up as it stands otherwise |
| CliLauncher.LocateDefaultPrefersTwo | CLILauncher/launcher.c:377-385 | with no tag and nothing configured, a 2.x is chosen whenever one is installed, even below a higher 3.x |
| CliLauncher.LocateDefaultThree | CLILauncher/launcher.c:383-385 | with no tag, nothing configured and no 2.x, the first 3.x is chosen |
| CliLauncher.EnvironmentDefaultWins | CLILauncher/launcher.c:333-335 | `PY_PYTHON`, in any case, decides the default when it names an installed version |
| CliLauncher.ValidateShortTag | CLILauncher/launcher.c:916-944 | up to three units, `validate_version` is defined and accepts exactly a major or major.minor version |
| CliLauncher.ValidateLongTag | CLILauncher/launcher.c:916-944 | a longer text is accepted only as major.minor, `-` and a tail; "-32" is accepted; the check reads past the NUL exactly for an empty tail or a one-unit tail other than "3" |
| CliLauncher.ValidateWordSizeExamples | CLILauncher/launcher.c:933-938 | the word size is not really checked: "-3" and "-33" are accepted, "-64" is refused, "-" and "-6" read past the terminator |
| CliLauncher.DecimalRoundTrip | CLILauncher/launcher.c:960-961 | reading back the `%d` digits gives the number printed |
| CliLauncher.DecimalOfWord | CLILauncher/launcher.c:956-961 | a WORD prints as at most five digits |
| CliLauncher.VersionText | CLILauncher/launcher.c:950-964 | the version text always fits its MAX_PATH buffer |
| CliLauncher.VersionTextWithoutVersion | CLILauncher/launcher.c:954-955 | with no version resource the text reads as "0.1" |
| CliLauncher.VersionTextReadsBack | CLILauncher/launcher.c:956-962 | the text cut at its dots gives back the high and low words of both DWORDs, in order |
| CliLauncher.HandleShebang | CLILauncher/launcher.c:737-889 | `maybe_handle_shebang` on the launcher's buffers has the outcome `HandleShebangSpec` gives |
| CliLauncher.DispatchUnits | CLILauncher/launcher.c:858-861 | the decoded line, with a NUL over its last unit, is dispatched as `DispatchLine` says |
| CliLauncher.DispatchBuffer | CLILauncher/launcher.c:858-886 | parsing and dispatching on the line buffer gives `DispatchLine` of the line as it was |
| CliLauncher.RunVirtualCommand | CLILauncher/launcher.c:867-884 | a virtual command cut in place at its first space is dispatched on its version, as `RunVirtual` of the split says |
| CliLauncher.NoShebangFallsThrough | CLILauncher/launcher.c:609-611 | a line that does not start with `#!` decides nothing, so `process` goes on with the arguments |
| CliLauncher.DispatchNeverBadVirtualPath | CLILauncher/launcher.c:867-876 | a shebang line never ends with RC_BAD_VIRTUAL_PATH in the console launcher, because every builtin path ends with "python" |
| CliLauncher.VirtualShebangRunsLocated | CLILauncher/launcher.c:856-886 | `#!/usr/bin/env python<v>`, `#!/usr/bin/python<v>`, `#!/usr/local/bin/python<v>` and `#!python<v>` run the Python located for `v` with no suffix, or end with RC_NO_PYTHON |
| CliLauncher.DispatchPython | CLILauncher/launcher.c:867-884 | a virtual command reading "python" and a tag, with no suffix, runs the Python located for that tag |
| CliLauncher.AliasShebangRunsValue | CLILauncher/launcher.c:862-866 | `#!name rest` with an alias `name` spawns the alias's value with `rest` ahead of the arguments |
| CliLauncher.EnvWithTwoSpacesRunsLiterally | CLILauncher/launcher.c:862-866 | `#!/usr/bin/env  python` (two spaces) runs its whole text as a command |
| CliLauncher.HandleShebangSeesFirstLine | CLILauncher/launcher.c:762-889 | two scripts whose first lines decode alike are handled alike |
| CliLauncher.Argument | CLILauncher/launcher.c:1051 | `argv[i]` is read as a NUL-free C string |
| CliLauncher.AsksForHelpShape | CLILauncher/launcher.c:1074 | `-h` or `--help` in any case starts with '-' followed by no digit, so it is never a qualifier |
| CliLauncher.Process | CLILauncher/launcher.c:967-1092 | `process` on the alias table, the key buffer and the line buffer has the outcome `ProcessSpec` gives |
| CliLauncher.RunArgument | CLILauncher/launcher.c:1060-1090 | with no shebang decision, the first argument checked as a qualifier gives `ArgumentRun`: the located Python with the qualifier cut from the command line, RC_NO_PYTHON, the default run, or undefined behaviour for an empty argument or one read past its end |
| CliLauncher.RunDefault | CLILauncher/launcher.c:1070-1090 | the default Python runs the whole command line (`DefaultRun`), RC_NO_PYTHON when none is found |
| CliLauncher.HandleShebangNeverBadVirtualPath | CLILauncher/launcher.c:737-889 | handling a script never ends with RC_BAD_VIRTUAL_PATH |
| CliLauncher.ProcessNeverBadVirtualPath | CLILauncher/launcher.c:967-1092 | the console launcher never ends with RC_BAD_VIRTUAL_PATH |
| CliLauncher.AnyQualifierPrefix | CLILauncher/launcher.c:1053-1060 | an argument starting with '-' is never opened as a script; any first unit before the version, not just '-', is accepted as a qualifier prefix |
| CliLauncher.ProcessWithoutShebang | CLILauncher/launcher.c:1053-1069 | when no script decides the run, the outcome is decided by the first argument |
| CliLauncher.QualifierSelectsVersion | CLILauncher/launcher.c:1060-1068 | `-<tag> rest` runs the Python located for the tag with `rest`, or ends with RC_NO_PYTHON |
| CliLauncher.NoArgumentsRunsDefault | CLILauncher/launcher.c:1046-1048 | without arguments the overall default runs with the command line passed on |
| CliLauncher.HelpPrintsUsage | CLILauncher/launcher.c:1074-1088 | a lone `-h` or `--help` prints the usage text, then runs the default Python with the argument |
| CliLauncher.ProcessSeesFirstLine | CLILauncher/launcher.c:1053-1056 | the script named by the first argument matters only through its first line |
| CliLauncher.ByteOrderMarkIsIgnored | CLILauncher/launcher.c:767-779 | a UTF-8 BOM in front of a script's first line does not change the run |
| GuiLauncher.FirstVirtualPath | GUILauncher/launcher.c:416-420 | the result is the first of the two virtual paths the text starts with; none exactly when it starts with neither |
| GuiLauncher.GuiParseShebangSpec | GUILauncher/launcher.c:423-453 | the windowed `parse_shebang` keeps the line terminated; with no command it is not virtual and the line is unchanged; a command lies inside the line |
| GuiLauncher.GuiParseShebang | GUILauncher/launcher.c:423-453 | the method on the buffer returns what `GuiParseShebangSpec` says and leaves the trimmed line |
| GuiLauncher.GuiVirtualIff | GUILauncher/launcher.c:430-449 | a line is virtual exactly when the text after `#!` and white space starts with a virtual path; the command then starts right after that path |
| GuiLauncher.GuiLocatePythonSpec | GUILauncher/launcher.c:274-305 | the windowed `locate_python` returns a valid catalog index or none |
| GuiLauncher.EnvKeyLocator.constructor | GUILauncher/launcher.c:276-277 | the `env_key` buffer starts as "PY_DEFAULT_PYTHONX" |
| GuiLauncher.EnvKeyLocator.Key | GUILauncher/launcher.c:276-277 | the key reads as `PY_DEFAULT_PYTHON` when its last unit is NUL, else with that unit appended |
| GuiLauncher.EnvKeyLocator.LocatePython | GUILauncher/launcher.c:274-305 | the method returns `GuiLocatePythonSpec`; the key's last unit is left as the major asked for, NUL after a default search, and untouched otherwise |
| GuiLauncher.GuiLocateMajorVersion | GUILauncher/launcher.c:285-292 | a one-unit tag is replaced by a non-blank `PY_DEFAULT_PYTHON<major>`; no configuration file is read |
| GuiLauncher.GuiLocateDefaultPrefersTwo | GUILauncher/launcher.c:293-303 | with no tag and no usable `PY_DEFAULT_PYTHON`, a 2.x is chosen whenever one is installed |
| GuiLauncher.GuiBlankDefaultIsIgnored | GUILauncher/launcher.c:45-56 | a `PY_DEFAULT_PYTHON` holding only white space counts as unset |
| GuiLauncher.GuiHandleShebang | GUILauncher/launcher.c:530-668 | the windowed `maybe_handle_shebang` on its buffers has the outcome `GuiHandleShebangSpec` gives |
| GuiLauncher.GuiDispatchBuffer | GUILauncher/launcher.c:639-665 | parsing and dispatching on the line buffer gives `GuiDispatchLine` of the line as it was |
| GuiLauncher.GuiVirtualCommand | GUILauncher/launcher.c:654-662 | a virtual command not starting with "python" fails with RC_BAD_VIRTUAL_PATH; otherwise the Python located for the rest of it runs with the suffix, or RC_NO_PYTHON when none is found (`GuiRunVirtual`) |
| GuiLauncher.GuiProcess | GUILauncher/launcher.c:696-743 | the windowed `process` has the outcome `GuiProcessSpec` gives |
| GuiLauncher.GuiRunArgument | GUILauncher/launcher.c:721-741 | with no shebang decision, a qualifier (two units with a digit second, or `?d.d`) runs the located Python with the qualifier cut from the command line or ends with RC_NO_PYTHON; any other argument gives the default run (`GuiArgumentRun`) |
| GuiLauncher.GuiRunDefault | GUILauncher/launcher.c:736-741 | the default Python runs the whole command line (`GuiDefaultRun`), RC_NO_PYTHON when none is found |
| GuiLauncher.GuiQualifierIsVersionTag | GUILauncher/launcher.c:721-726 | the windowed qualifier is a major or major.minor version after any first unit; up to four units it agrees with `validate_version` |
| GuiLauncher.GuiOtherInterpreterIsBadVirtualPath | GUILauncher/launcher.c:652-656 | `#!/usr/bin/perl` is virtual in the windowed launcher and ends with RC_BAD_VIRTUAL_PATH |
| GuiLauncher.GuiEnvWithTwoSpacesIsBadVirtualPath | GUILauncher/launcher.c:437-449 | `#!/usr/bin/env  python` (two spaces) is virtual, its command is empty before the space, and it ends with RC_BAD_VIRTUAL_PATH |
| GuiLauncher.GuiBarePythonRunsLiterally | GUILauncher/launcher.c:643-650 | `#!python<v>` is not virtual in the windowed launcher: the text runs as a command of its own, with no suffix |
| GuiLauncher.GuiQualifierSelectsVersion | GUILauncher/launcher.c:721-734 | `-<tag> rest` runs the Python located for the tag with `rest`, or ends with RC_NO_PYTHON, the qualifier being decided by length alone |
| GuiLauncher.VirtualPathOfPython | GUILauncher/launcher.c:416-420 | a text starting with the `j`-th virtual path and "python" is matched by that path |
| GuiLauncher.GuiVirtualShebangRunsLocated | GUILauncher/launcher.c:639-665 | `#!/usr/bin/env python<v>` and `#!/usr/bin/python<v>` run the Python located for `v`, with no suffix, or end with RC_NO_PYTHON |
| GuiLauncher.GuiDispatchPython | GUILauncher/launcher.c:651-663 | a virtual command reading "python" and a tag, with no suffix, runs the Python located for that tag |
| GuiLauncher.GuiProcessSeesFirstLine | GUILauncher/launcher.c:714-715 | the script matters to the windowed launcher only through its first line |
| GuiLauncher.GuiHandleShebangSeesFirstLine | GUILauncher/launcher.c:530-668 | two scripts whose first lines decode alike are handled alike |
| GuiLauncher.GuiByteOrderMarkIsIgnored | GUILauncher/launcher.c:559-570 | a UTF-8 BOM in front of a script's first line does not change the windowed run |
| Reference.KeyLessIsStrictOrder | tests.py:140 | the sort key `(version, -bits)` is a strict order, so `sorted` is well defined |
| Reference.RefSortedOrder | tests.py:140 | in the reference catalog versions descend, and within one version the smaller word size comes first |
| Reference.WordSizeOrdersDiffer | tests.py:140 | for one version, the reference puts 32-bit before 64-bit and the launcher puts 64-bit first |
| Reference.FirstStartingWith | tests.py:149-154 | the first entry whose version starts with the spec; none exactly when no version does |
| Reference.LocatePythonVer | tests.py:149-154 | `locate_python_ver` returns a catalog entry whose version starts with the spec, or None exactly when no version does |
| Reference.StartsWithMatchesAgrees | tests.py:149-154 | when no version is shorter than the tag, the reference's prefix test and the launcher's `wcsncmp` pick the same entry |
| Reference.ShorterVersionMatchesOnlyInLauncher | tests.py:152 | "2.7-32" selects a "2.7" entry in the launcher but not in the reference |
| Reference.RefLocatePython | tests.py:157-176 | `locate_python` without the failing debug line returns a catalog entry or None |
| Reference.LocatePythonRaisesWhenNothingFound | tests.py:174-175 | as written, when nothing is found the debug line raises AttributeError instead of returning None |
| Reference.RefMajorVersionUsesVariable | tests.py:158-161 | a one-unit spec follows `PY_DEFAULT_PYTHON<spec>` when it is set |
| Reference.RefDefaultChain | tests.py:164-173 | with no spec: `PY_DEFAULT_PYTHON` when set and non-empty, with no fallback; otherwise the first 2.x, else the first 3.x |
| Reference.RefAgreesWithGuiLauncher | tests.py:157-176 | with no `PY_DEFAULT_PYTHON` variables and a spec of at most one unit, the reference and the windowed launcher choose the same version |
| Reference.ExpectedPython | tests.py:256-263 | the oracle expects Python 3 for an empty shebang |
| Reference.ExpectedForVersionedShebang | tests.py:256-263 | a shebang ending in "python3" expects Python 3, and one ending in "python2" expects Python 2 |
| Reference.OracleAndLauncherDisagreeWithoutShebang | tests.py:259-260 | without a shebang the oracle expects Python 3, while the launcher with a 2.x and nothing configured runs a 2.x |
| Reference.Without | tests.py:216 | `replace(c, '')` leaves no `c` and never lengthens the text |
| Reference.LfToCrLfProperties | tests.py:216-217 | on a text without CR, every LF becomes CR LF, and dropping the CRs gives the text back |
| Reference.CrLfTextProperties | tests.py:216-217 | the script's line ends are all CR LF; dropping CRs gives the text without CRs; converting twice changes nothing |
| Reference.MakeScriptBom | tests.py:218-219 | the script starts with the requested BOM exactly once: it is added only when missing |
| Reference.TestPython.constructor | tests.py:179-186 | a fresh record holds its version and no derived attributes yet |
| Reference.ShebangTable.constructor | tests.py:39-53 | the table holds the given entries |
| Reference.Dir | tests.py:183 | `'Python%s' % version.replace('.', '')` is "Python" followed by the version without dots |
| Reference.TemplateKeysDiffer | tests.py:188-197 | no two template keys coincide across templates or major versions |
| Reference.AddTemplatesSucceedsIffFresh | tests.py:198-202 | adding one version's shebangs succeeds exactly when none of its keys is present; then every key maps to its shebang and the old entries stay |
| Reference.StepFor | tests.py:180-202 | one pass of the loop that does not raise gives the record its attributes |
| Reference.UpdateFrom | tests.py:179-202 | the update touches records in order; without an error it touches all of them |
| Reference.OtherMajorStaysFresh | tests.py:198-202 | adding the keys of one major version adds none of another's |
| Reference.UpdateSucceedsForDistinctMajors | tests.py:179-202 | with distinct majors and none of their keys present, the update runs to the end and maps every key of every version to its shebang |
| Reference.PresentKeyRaises | tests.py:201 | a version whose first key is already present makes the update raise AssertionError |
| Reference.RepeatedMajorRaises | tests.py:187-201 | two records with one major version make the update raise AssertionError |
| Reference.AttributesOf | tests.py:181-184 | the derived attributes are the directory name and byte strings of the right lengths |
| Reference.Describe | tests.py:181-184 | the record gets the attributes its version gives it |
| Reference.AddShebangs | tests.py:198-202 | the eight shebangs are added as `AddTemplates` says, and success is reported as it says |
| Reference.UpdateOne | tests.py:180-202 | one pass of the loop on the `i`-th record proceeds as `UpdateFrom` says; earlier records keep their attributes |
| Reference.UpdateForInstalledPythons | tests.py:179-202 | the update leaves SHEBANGS and the error as `UpdateFrom` says, and every record touched carries its attributes |
| Associator.Div2 | Associator/main.c:228-229 | C's `/ 2` truncates toward zero: the remainder has the dividend's sign |
| Associator.Centred | Associator/main.c:200-247 | the window keeps its width and height |
| Associator.CentreStartBalancesMargins | Associator/main.c:228-229 | the centred start leaves margins on the two sides that differ by at most one unit |
| Associator.ClampFitsScreen | Associator/main.c:236-243 | after the clamps the window never reaches past the end of the screen |
| Associator.ClampNotNegative | Associator/main.c:236-243 | a window no larger than the screen never starts before 0 |
| Associator.ClampKeepsFittingStart | Associator/main.c:236-243 | a start that already keeps the window on the screen is left as it is |
| Associator.ClampOversized | Associator/main.c:240-243 | a window larger than the screen is put at `screen - size`, before the origin |
| Associator.NoParentCentresOnScreen | Associator/main.c:216-223 | without a parent the window is centred as if the screen were its parent |
| Associator.CentreWindow | Associator/main.c:200-247 | the window keeps its size, ends on the screen, starts at or after 0 when it fits, and the function returns TRUE |
| Messager.SkipTildesSkipsTildes | Messager/main.c:91 | `wcstok_s` skips only `~` before a token |
| Messager.TokenEndSkipsOthers | Messager/main.c:91 | a token runs over units other than `~` |
| Messager.NextToken | Messager/main.c:91 | a token found is non-empty, and the search moves forward |
| Messager.NextTokenFacts | Messager/main.c:91 | a token holds no `~`, and no token is found exactly when only `~`s remain |
| Messager.TokensAreTildeFree | Messager/main.c:90-94 | every token is a non-empty run of units other than `~` |
| Messager.TokensOfJoin | Messager/main.c:90-94 | splitting tokens joined by `~` gives the tokens back when none is empty or holds a `~` |
| Messager.FirstTokens | Messager/main.c:90-94 | at most MAX_TOKENS tokens are kept, and they are the first ones |
| Messager.WcsToL | Messager/main.c:99-103 | `wcstol` always gives a value in the range of a 32-bit `long` |
| Messager.ToUint | Messager/main.c:99-103 | the `(UINT)` cast keeps non-negative values and wraps negative ones by 2^32 |
| Messager.IconOf | Messager/main.c:99-102 | the icon is the hexadecimal token when it is a known icon, and MB_ICONINFORMATION otherwise |
| Messager.DelayOf | Messager/main.c:103-105 | the delay is the decimal token when it lies in 0..10000, and 2000 otherwise |
| Messager.Line | Messager/main.c:89 | the line is a NUL-free prefix of the command line of fewer than MSGSIZE units |
| Messager.BoxShownIffThreeTokens | Messager/main.c:95-114 | a box is shown exactly when the line has at least three tokens |
| Messager.BoxShowsSecondAndThirdTokens | Messager/main.c:107-112 | the box shows the second token as its text and the third as its caption, with a known icon |
| Messager.DefaultDelayTextValue | Messager/main.c:74-76 | `QUOTE(DEFAULT_DELAY)` reads back as 2000 |
| Messager.IconTokenIsHexadecimal | Messager/main.c:99 | the icon token "30" is read in base 16 as MB_ICONWARNING |
| Messager.ThreeTokensWaitTwoSeconds | Messager/main.c:95-97 | three tokens show a timed box of 2000 ms |
| Messager.DelayChoosesBox | Messager/main.c:103-113 | with a delay token, the box is untimed exactly when it reads as 0; otherwise it waits that delay, or 2000 ms when out of range |
| Messager.TimedDelayInRange | Messager/main.c:103-113 | a timed box always waits between 1 and 10000 ms |
| Messager.OnlyTheBufferCounts | Messager/main.c:89 | units past the MSGSIZE buffer are never looked at: the copied line decodes as the whole command line |
| Messager.LineOfShortText | Messager/main.c:89 | a NUL-free text shorter than MSGSIZE is copied into the buffer whole |
| Messager.JoinHasNoNul | Messager/main.c:90-94 | a `~`-join of NUL-free tokens holds no NUL |
| Messager.LaterTokensAreIgnored | Messager/main.c:90-94 | tokens after the tenth are never looked at: appending tokens to a line of ten or more that fits the buffer leaves the box unchanged |
| Messager.CollectTokens | Messager/main.c:90-94 | the token loop collects `FirstTokens` of the line's tokens |
| Messager.WinMain | Messager/main.c:78-116 | `wWinMain` shows the box `Decoded` selects and returns 0 |

## Left out

- The registry enumeration (`locate_pythons_for_key`, `locate_all_pythons`) and `qsort` itself are left out. The catalog is an input. Lemmas that need it sorted say so.
- `tests.py`'s `locate_pythons_for_key` and `is_64_bit_os` are left out for the same reason.
- Process creation is left out: `run_child`, `safe_duplicate_handle`, the job object and waiting for the child. A run ends with the command line that would be spawned.
- Console output is left out: the usage text and `get_version_info`'s output. The model records that the usage would be printed, and proves what the version text reads as.
- `debug` logging and `PYLAUNCH_DEBUG` are left out. The `error` message text and `winerror` are left out too; only the exit code is kept.
- The file system is left out: `_wfopen`, `fread` and `GetFileAttributesW`. Scripts are a map from path to the 256-byte buffer as `fread` leaves it. The `py.ini` files are a map from path to parsed sections.
- `GetPrivateProfileString`'s own parsing of the ini grammar is left out; its observable result is modelled, including the cut of the key-name list to MSGSIZE - 2 units and two NULs when it does not fit.
- `SHGetFolderPathW` and `GetModuleFileNameW` are parameters.
- `GetFileVersionInfoW` is left out; the version words are parameters.
- Encoding.Utf8Decode: models `MultiByteToWideChar` for well-formed UTF-8 only. Each byte that begins no well-formed sequence becomes one U+FFFD; Windows may group ill-formed bytes differently.
- The UTF-32 branches of `maybe_handle_shebang` write only half of the units they count, so the line holds units never written. Such a line is `Undefined` only when `parse_shebang` would read one of those units, that is when the written units start `#!` and no NUL ends the white space after it. Otherwise it is `NoLine` and the run goes on as without a shebang. Which unwritten unit is read, and what it holds, is not modelled.
- The windowed launcher's non-PEP 397 `process` (`GUILauncher/launcher.c:745-758`) is left out. So are the `_tWinMain` / `wmain` entry points of both launchers.
- Reference.MakeScript: `str.encode` with the chosen codec is a parameter, so encoding errors are not modelled. Code points beyond the Basic Multilingual Plane are not modelled.
- The test classes' subprocess runs, output matching and configuration-file setup in `tests.py` are left out.
- Messager.WinMain: tokens are modelled as values; the NULs `wcstok_s` writes into the line buffer are not modelled. The windowed message box is the result.
- `MessageBoxTimeoutW`'s dynamic loading (`Messager/main.c:41-63`) is left out.
- Messager.WcsToL: white space is C-locale `iswspace` on ASCII only.
- Launch.FirstLine: reads the first line with the corrected `find_BOM` (every byte compared) and `find_terminator` (the scan stays inside the buffer). Two kinds of script therefore get a defined line or `NoLine`, where `maybe_handle_shebang` as written reads memory it never wrote and the run would be `Undefined`. The first is a buffer starting with 0x00 but not 00 00 FE FF. The C takes it for UTF-32BE, and when the units it converts from byte 4 on start `#!`, it reads units it never wrote; for any other such buffer both the C and the model go on as without a shebang. The second is a BOM with no CR or LF inside the buffer: the C scans up to 4 bytes past its end. The as-written behaviour is modelled and proved apart from the run; see "## Findings".
- Launch.DecodeFirstLine: uses the corrected `FindBom` and `FindTerminator`, with the same gap as `Launch.FirstLine`.
- CliLauncher.HandleShebang: reads the script through `Launch.FirstLine`, so on those two kinds of script it falls through where the C is `Undefined`.
- CliLauncher.Process: reads the script through `Launch.FirstLine`, with the same gap as `CliLauncher.HandleShebang`.
- GuiLauncher.GuiHandleShebang: the windowed launcher has the same `find_BOM` and `find_terminator`; it reads the script through `Launch.FirstLine`, with the same gap.
- GuiLauncher.GuiProcess: reads the script through `Launch.FirstLine`, with the same gap as `GuiLauncher.GuiHandleShebang`.
- Wide.SkipWhitespace: white space is ASCII (space and 9-13). The C passes `wchar_t` units to `isspace`, whose result for units above 255 is outside its contract; the same holds for the trailing-space trim in Launch.TrimEnd.
- Associator.CentreWindow: computes in unbounded integers. 32-bit `int` overflow of the coordinates is not modelled.
- `GetSystemMetrics`, `GetParent` and `GetWindowRect` are parameters, and `MoveWindow` is the result.
- The associator's dialog, its message loop and the registry writes it makes are left out.

## Findings

| source | as written | input that shows it | evidently intended | confidence | as-written member | corrected member |
|---|---|---|---|---|---|---|
| CLILauncher/launcher.c:693-694 | `find_BOM` compares each signature with `strncmp`, which stops at the first NUL in the signature; the UTF-32BE signature starts with 0x00 | any script whose first byte is 0x00 but does not start 00 00 FE FF, e.g. 00 41 0A: it is taken for UTF-32BE | compare all `length` bytes (`memcmp`) | not executed | Encoding.LeadingNulIsTakenForUtf32Be | Encoding.FindBom |
| CLILauncher/launcher.c:779 | `find_terminator(start, BUFSIZE, bom)` scans BUFSIZE bytes from `start`, which lies `bom->length` bytes into the buffer, so it reads up to 4 bytes past its end | a UTF-8 BOM, 253 bytes with no CR or LF, and a LF byte just after the buffer in memory: a first line is "found" that ends outside the buffer | scan `BUFSIZE - bom->length` bytes | not executed | Encoding.TerminatorScanOverrunsBuffer | Encoding.FindTerminator |
| tests.py:174-175 | the debug line formats `ret.version` before returning, so it raises when `ret` is None | no installed 2.x and no `PY_DEFAULT_PYTHON2`: `locate_python('2')` raises AttributeError | log and return None, so the caller's assertion reports the missing Python | not executed | Reference.LocatePythonRaisesWhenNothingFound | Reference.RefLocatePython |
