/**
 * The argument decoding of the messager's `wWinMain`: the command line is
 * copied into a bounded buffer, split on `~` into icon, text, caption and
 * delay, and turned into the message box to show.  The message boxes
 * themselves become the `Box` value the decoding chooses.
 */
module Messager {
  import opened Wrappers
  import opened Wide

  const MsgSize: nat := 1024
  const MaxTokens: nat := 10
  const IconIndex: nat := 0
  const DetailIndex: nat := 1
  const CaptionIndex: nat := 2
  const DelayIndex: nat := 3
  const MaxDelay: nat := 10000
  const DefaultDelay: nat := 2000

  /** `QUOTE(DEFAULT_DELAY)`: the text "2000". */
  const DefaultDelayText: WString := ['2' as int, '0' as int, '0' as int, '0' as int]

  const Tilde: WChar := '~' as int

  /** The icon styles of MessageBoxW that are accepted. */
  const IconInformation: nat := 0x40
  const IconError: nat := 0x10
  const IconWarning: nat := 0x30
  const IconQuestion: nat := 0x20

  /** `LONG_MIN` and `LONG_MAX` of a 32-bit `long`. */
  const LongMin: int := -0x8000_0000
  const LongMax: int := 0x7FFF_FFFF

  /** The message box the arguments select, if any. */
  datatype Box =
    | NoBox
    | Untimed(text: WString, caption: WString, icon: nat)
    | Timed(text: WString, caption: WString, icon: nat, delay: nat)

  // ---------------------------------------------------------------- wcstok_s on "~"

  /** The first index at or after `i` that is not a `~`, or the end. */
  function SkipTildes(s: WString, i: nat): (j: nat)
    requires i <= |s|
    ensures i <= j <= |s| && (j == |s| || s[j] != Tilde)
    decreases |s| - i
  {
    if i == |s| || s[i] != Tilde then i else SkipTildes(s, i + 1)
  }

  /** The first index at or after `i` that is a `~`, or the end. */
  function TokenEnd(s: WString, i: nat): (j: nat)
    requires i <= |s|
    ensures i <= j <= |s| && (j == |s| || s[j] == Tilde)
    decreases |s| - i
  {
    if i == |s| || s[i] == Tilde then i else TokenEnd(s, i + 1)
  }

  /** Only `~`s are skipped. */
  lemma {:induction false} SkipTildesSkipsTildes(s: WString, i: nat)
    requires i <= |s|
    ensures forall k | i <= k < SkipTildes(s, i) :: s[k] == Tilde
    decreases |s| - i
  {
    if i < |s| && s[i] == Tilde {
      SkipTildesSkipsTildes(s, i + 1);
    }
  }

  /** A token runs over units other than `~`. */
  lemma {:induction false} TokenEndSkipsOthers(s: WString, i: nat)
    requires i <= |s|
    ensures forall k | i <= k < TokenEnd(s, i) :: s[k] != Tilde
    decreases |s| - i
  {
    if i < |s| && s[i] != Tilde {
      TokenEndSkipsOthers(s, i + 1);
    }
  }

  /** A token and where the next search resumes. */
  datatype Token = Token(text: WString, next: nat)

  /**
   * One call of `wcstok_s` with the delimiter `~` and the search resuming
   * at `pos`: leading `~`s are skipped; none is found when only `~`s
   * remain; otherwise the token runs to the next `~`, which is consumed.
   */
  function NextToken(s: WString, pos: nat): (r: Option<Token>)
    requires pos <= |s|
    ensures r.Some? ==> pos < r.value.next <= |s| && |r.value.text| > 0
  {
    var start := SkipTildes(s, pos);
    if start == |s| then None
    else
      var end := TokenEnd(s, start);
      Some(Token(s[start..end], if end < |s| then end + 1 else end))
  }

  /** A token holds no `~`, and no token is found exactly when only `~`s remain. */
  lemma NextTokenFacts(s: WString, pos: nat)
    requires pos <= |s|
    ensures var r := NextToken(s, pos);
      (r.Some? ==> Tilde !in r.value.text) &&
      (r.None? <==> forall k | pos <= k < |s| :: s[k] == Tilde)
  {
    SkipTildesSkipsTildes(s, pos);
    var start := SkipTildes(s, pos);
    if start < |s| {
      TokenEndSkipsOthers(s, start);
      var end := TokenEnd(s, start);
      assert forall k | 0 <= k < end - start :: s[start..end][k] == s[start + k];
    }
  }

  /** All the tokens `wcstok_s` finds from `pos` on. */
  function TokensFrom(s: WString, pos: nat): (ts: seq<WString>)
    requires pos <= |s|
    decreases |s| - pos
  {
    match NextToken(s, pos)
    case None => []
    case Some(t) => [t.text] + TokensFrom(s, t.next)
  }

  function Tokens(s: WString): seq<WString> {
    TokensFrom(s, 0)
  }

  /** The tokens joined back together, one `~` between two of them. */
  function Join(ts: seq<WString>): WString {
    if |ts| == 0 then []
    else if |ts| == 1 then ts[0]
    else ts[0] + [Tilde] + Join(ts[1..])
  }

  /** Every token is a non-empty run of units other than `~`. */
  lemma {:induction false} TokensAreTildeFree(s: WString, pos: nat)
    requires pos <= |s|
    ensures forall k | 0 <= k < |TokensFrom(s, pos)| ::
      |TokensFrom(s, pos)[k]| > 0 && Tilde !in TokensFrom(s, pos)[k]
    decreases |s| - pos
  {
    var r := NextToken(s, pos);
    NextTokenFacts(s, pos);
    if r.Some? {
      TokensAreTildeFree(s, r.value.next);
    }
  }

  /** One token search in `prefix + rest` past `prefix` finds what the search in `rest` finds, shifted. */
  lemma NextTokenShift(prefix: WString, rest: WString, i: nat)
    requires i <= |rest|
    ensures var r, q := NextToken(prefix + rest, |prefix| + i), NextToken(rest, i);
      r.Some? == q.Some? &&
      (q.Some? ==> r.value.text == q.value.text && r.value.next == |prefix| + q.value.next)
  {
    var s := prefix + rest;
    SkipTildesShift(prefix, rest, i);
    var b := SkipTildes(rest, i);
    if b < |rest| {
      TokenEndShift(prefix, rest, b);
      var e := TokenEnd(rest, b);
      assert s[|prefix| + b..|prefix| + e] == rest[b..e];
    }
  }

  /** The tokens of `prefix + rest` past `prefix` are the tokens of `rest`. */
  lemma {:induction false} TokensFromShift(prefix: WString, rest: WString, i: nat)
    requires i <= |rest|
    ensures TokensFrom(prefix + rest, |prefix| + i) == TokensFrom(rest, i)
    decreases |rest| - i
  {
    NextTokenShift(prefix, rest, i);
    var q := NextToken(rest, i);
    if q.Some? {
      TokensFromShift(prefix, rest, q.value.next);
    }
  }

  lemma {:induction false} SkipTildesShift(prefix: WString, rest: WString, i: nat)
    requires i <= |rest|
    ensures SkipTildes(prefix + rest, |prefix| + i) == |prefix| + SkipTildes(rest, i)
    decreases |rest| - i
  {
    if i < |rest| && rest[i] == Tilde {
      assert (prefix + rest)[|prefix| + i] == rest[i];
      SkipTildesShift(prefix, rest, i + 1);
    } else if i < |rest| {
      assert (prefix + rest)[|prefix| + i] == rest[i];
    }
  }

  lemma {:induction false} TokenEndShift(prefix: WString, rest: WString, i: nat)
    requires i <= |rest|
    ensures TokenEnd(prefix + rest, |prefix| + i) == |prefix| + TokenEnd(rest, i)
    decreases |rest| - i
  {
    if i < |rest| {
      assert (prefix + rest)[|prefix| + i] == rest[i];
      if rest[i] != Tilde {
        TokenEndShift(prefix, rest, i + 1);
      }
    }
  }

  /** Splitting what `Join` built gives the tokens back, when none is empty or holds a `~`. */
  lemma {:induction false} TokensOfJoin(ts: seq<WString>)
    requires forall k | 0 <= k < |ts| :: |ts[k]| > 0 && Tilde !in ts[k]
    ensures Tokens(Join(ts)) == ts
  {
    if |ts| == 1 {
      TokensOfOneToken(ts[0]);
    } else if |ts| > 1 {
      TokensOfJoinStep(ts);
      TokensOfJoin(ts[1..]);
      assert ts == [ts[0]] + ts[1..];
    }
  }

  /** A lone non-empty `~`-free text is one token. */
  lemma TokensOfOneToken(head: WString)
    requires |head| > 0 && Tilde !in head
    ensures Tokens(head) == [head]
  {
    assert head + [] == head;
    TokenOfTildeFree(head, []);
    assert NextToken(head, 0) == Some(Token(head, |head|));
    assert SkipTildes(head, |head|) == |head|;
    assert TokensFrom(head, |head|) == [];
  }

  /** The first of several joined tokens comes first, and the rest are the tokens of the rest of the join. */
  lemma TokensOfJoinStep(ts: seq<WString>)
    requires |ts| > 1 && |ts[0]| > 0 && Tilde !in ts[0]
    ensures Tokens(Join(ts)) == [ts[0]] + Tokens(Join(ts[1..]))
  {
    var head, rest := ts[0], Join(ts[1..]);
    var s := Join(ts);
    assert s == head + ([Tilde] + rest) == (head + [Tilde]) + rest;
    TokenOfTildeFree(head, [Tilde] + rest);
    assert TokensFrom(s, 0) == [head] + TokensFrom(s, |head| + 1);
    TokensFromShift(head + [Tilde], rest, 0);
  }

  /** A non-empty `~`-free head is the first token, and the search resumes after the `~` that follows it. */
  lemma TokenOfTildeFree(head: WString, tail: WString)
    requires |head| > 0 && Tilde !in head
    requires tail == [] || tail[0] == Tilde
    ensures NextToken(head + tail, 0) == Some(Token(head, if tail == [] then |head| else |head| + 1))
  {
    var s := head + tail;
    assert s[0] == head[0];
    assert SkipTildes(s, 0) == 0;
    TokenEndOfTildeFree(head, tail, 0);
    assert s[0..|head|] == head;
  }

  lemma {:induction false} TokenEndOfTildeFree(head: WString, tail: WString, i: nat)
    requires i <= |head| && Tilde !in head
    requires tail == [] || tail[0] == Tilde
    ensures TokenEnd(head + tail, i) == |head|
    decreases |head| - i
  {
    var s := head + tail;
    if i < |head| {
      assert s[i] == head[i];
      TokenEndOfTildeFree(head, tail, i + 1);
    } else if tail != [] {
      assert s[i] == tail[0];
    }
  }

  /** At most `MAX_TOKENS` of them are kept. */
  function FirstTokens(ts: seq<WString>): (r: seq<WString>)
    ensures |r| == if |ts| < MaxTokens then |ts| else MaxTokens
    ensures r == ts[..|r|]
  {
    if |ts| <= MaxTokens then ts else ts[..MaxTokens]
  }

  // ---------------------------------------------------------------- wcstol

  /** The value of a digit in bases up to 36, letters of either case counting from 10. */
  function DigitValue(c: WChar): (d: Option<nat>)
    ensures d.Some? ==> d.value < 36
  {
    if '0' as int <= c <= '9' as int then Some(c - '0' as int)
    else if 'a' as int <= c <= 'z' as int then Some(c - 'a' as int + 10)
    else if 'A' as int <= c <= 'Z' as int then Some(c - 'A' as int + 10)
    else None
  }

  predicate IsDigitIn(c: WChar, base: nat) {
    DigitValue(c).Some? && DigitValue(c).value < base
  }

  /** The digits of `base` from `i` on, accumulated onto `acc`. */
  function DigitsValue(s: WString, i: nat, base: nat, acc: nat): (v: nat)
    requires i <= |s|
    ensures acc <= v || base == 0
    decreases |s| - i
  {
    if i < |s| && IsDigitIn(s[i], base) then DigitsValue(s, i + 1, base, acc * base + DigitValue(s[i]).value)
    else acc
  }

  /** The first index at or after `i` that is not white space. */
  function SkipSpaces(s: WString, i: nat): (j: nat)
    requires i <= |s|
    ensures i <= j <= |s| && (j == |s| || !IsSpace(s[j]))
    decreases |s| - i
  {
    if i < |s| && IsSpace(s[i]) then SkipSpaces(s, i + 1) else i
  }

  /**
   * `wcstol(s, &end, base)` for base 10 or 16: white space, a sign, for
   * base 16 an optional `0x` or `0X`, then digits; no digits give 0 and a
   * value out of the range of `long` gives `LONG_MIN` or `LONG_MAX`.
   */
  function WcsToL(s: WString, base: nat): (r: int)
    requires base == 10 || base == 16
    ensures LongMin <= r <= LongMax
  {
    var i := SkipSpaces(s, 0);
    var negative := i < |s| && s[i] == '-' as int;
    var j := if i < |s| && (s[i] == '-' as int || s[i] == '+' as int) then i + 1 else i;
    var k := if base == 16 && j + 1 < |s| && s[j] == '0' as int && (s[j + 1] == 'x' as int || s[j + 1] == 'X' as int)
      then j + 2 else j;
    var magnitude := DigitsValue(s, k, base, 0);
    if negative then (if magnitude > -LongMin then LongMin else -(magnitude as int))
    else if magnitude > LongMax then LongMax else magnitude
  }

  /** The cast `(UINT)` of a 32-bit value: negative values wrap around to 2^32 and above. */
  function ToUint(n: int): (u: nat)
    requires LongMin <= n <= LongMax
    ensures u < 0x1_0000_0000
    ensures 0 <= n ==> u == n
    ensures n < 0 ==> u == n + 0x1_0000_0000
  {
    if n < 0 then n + 0x1_0000_0000 else n
  }

  // ---------------------------------------------------------------- icon and delay

  predicate KnownIcon(icon: nat) {
    icon == IconInformation || icon == IconError || icon == IconWarning || icon == IconQuestion
  }

  /** The icon of the box: the hexadecimal icon token if it is a known icon, the information icon otherwise. */
  function IconOf(token: WString): (icon: nat)
    ensures KnownIcon(icon)
    ensures KnownIcon(ToUint(WcsToL(token, 16))) ==> icon == ToUint(WcsToL(token, 16))
    ensures !KnownIcon(ToUint(WcsToL(token, 16))) ==> icon == IconInformation
  {
    var icon := ToUint(WcsToL(token, 16));
    if KnownIcon(icon) then icon else IconInformation
  }

  /** The delay of the box: the decimal delay token as an unsigned value, replaced by 2000 above 10000. */
  function DelayOf(token: WString): (delay: nat)
    ensures delay <= MaxDelay
    ensures var v := WcsToL(token, 10); 0 <= v <= MaxDelay ==> delay == v
    ensures var v := WcsToL(token, 10); (v < 0 || v > MaxDelay) ==> delay == DefaultDelay
  {
    var delay := ToUint(WcsToL(token, 10));
    if delay > MaxDelay then DefaultDelay else delay
  }

  /** The line as copied into the buffer of `MSGSIZE` units: the command line's C string, truncated. */
  function Line(cmdLine: WString): (line: WString)
    ensures |line| < MsgSize && StartsWith(cmdLine, line) && NoNul(line)
  {
    Truncate(CStrAt(cmdLine, 0), MsgSize - 1)
  }

  /** The box the command line asks for. */
  function Decoded(cmdLine: WString): Box {
    var found := FirstTokens(Tokens(Line(cmdLine)));
    var tokens := if |found| == DelayIndex then found + [DefaultDelayText] else found;
    if |tokens| <= DelayIndex then NoBox
    else
      var icon := IconOf(tokens[IconIndex]);
      var delay := DelayOf(tokens[DelayIndex]);
      if delay == 0 then Untimed(tokens[DetailIndex], tokens[CaptionIndex], icon)
      else Timed(tokens[DetailIndex], tokens[CaptionIndex], icon, delay)
  }

  // ---------------------------------------------------------------- properties of the decoding

  /** A box is shown exactly when the line has at least three tokens. */
  lemma BoxShownIffThreeTokens(cmdLine: WString)
    ensures Decoded(cmdLine) != NoBox <==> |Tokens(Line(cmdLine))| >= 3
  {
  }

  /** The text and caption are the second and third tokens, and the icon is always a known one. */
  lemma BoxShowsSecondAndThirdTokens(cmdLine: WString)
    requires Decoded(cmdLine) != NoBox
    ensures var ts := Tokens(Line(cmdLine)); var b := Decoded(cmdLine);
      b.text == ts[DetailIndex] && b.caption == ts[CaptionIndex] && KnownIcon(b.icon) &&
      b.icon == IconOf(ts[IconIndex])
  {
  }

  /** "2000" reads as 2000. */
  lemma DefaultDelayTextValue()
    ensures WcsToL(DefaultDelayText, 10) == DefaultDelay
  {
    var s := DefaultDelayText;
    assert SkipSpaces(s, 0) == 0;
    assert DigitsValue(s, 4, 10, 2000) == 2000;
    assert DigitsValue(s, 3, 10, 200) == 2000;
    assert DigitsValue(s, 2, 10, 20) == 2000;
    assert DigitsValue(s, 1, 10, 2) == 2000;
  }

  /** The icon token is hexadecimal: "30" is the warning icon, 0x30. */
  lemma IconTokenIsHexadecimal()
    ensures IconOf(['3' as int, '0' as int]) == IconWarning
  {
    var s: WString := ['3' as int, '0' as int];
    assert SkipSpaces(s, 0) == 0;
    assert DigitsValue(s, 2, 16, 0x30) == 0x30;
    assert DigitsValue(s, 1, 16, 3) == 0x30;
  }

  /** Three tokens show a timed box of 2000 ms. */
  lemma ThreeTokensWaitTwoSeconds(cmdLine: WString)
    requires |Tokens(Line(cmdLine))| == 3
    ensures Decoded(cmdLine).Timed? && Decoded(cmdLine).delay == DefaultDelay
  {
    DefaultDelayTextValue();
  }

  /**
   * With a delay token the box is untimed exactly when it reads as 0, and
   * otherwise waits for the delay read, or for 2000 ms when that is
   * negative or above 10000.
   */
  lemma DelayChoosesBox(cmdLine: WString)
    requires |Tokens(Line(cmdLine))| > DelayIndex
    ensures var v := WcsToL(Tokens(Line(cmdLine))[DelayIndex], 10); var b := Decoded(cmdLine);
      (b.Untimed? <==> v == 0) &&
      (0 < v <= MaxDelay ==> b.Timed? && b.delay == v) &&
      (v < 0 || v > MaxDelay ==> b.Timed? && b.delay == DefaultDelay)
  {
  }

  /** A timed box always waits between 1 and 10000 ms. */
  lemma TimedDelayInRange(cmdLine: WString)
    requires Decoded(cmdLine).Timed?
    ensures 0 < Decoded(cmdLine).delay <= MaxDelay
  {
  }

  /** Units past the buffer are never looked at: the line as copied decodes as the whole command line does. */
  lemma OnlyTheBufferCounts(cmdLine: WString)
    ensures Decoded(cmdLine) == Decoded(Line(cmdLine))
  {
    var line := Line(cmdLine);
    CStrAtOfString(line);
    assert CStrAt(line, 0) == line;
  }

  /** A NUL-free text that fits the buffer is copied whole. */
  lemma LineOfShortText(s: WString)
    requires NoNul(s) && |s| < MsgSize
    ensures Line(s) == s
  {
    CStrAtIs(s, 0, |s|);
    assert s[0..|s|] == s;
  }

  /** Joining NUL-free tokens with `~` gives a NUL-free text. */
  lemma {:induction false} JoinHasNoNul(ts: seq<WString>)
    requires forall k | 0 <= k < |ts| :: NoNul(ts[k])
    ensures NoNul(Join(ts))
  {
    if |ts| > 1 {
      JoinHasNoNul(ts[1..]);
      var rest := Join(ts[1..]);
      var s := ts[0] + [Tilde] + rest;
      assert NoNul(ts[0]);
      forall i | 0 <= i < |s|
        ensures s[i] != Nul
      {
        if i > |ts[0]| {
          assert s[i] == rest[i - |ts[0]| - 1];
        }
      }
    }
  }

  /**
   * Tokens after the tenth are never looked at: for a command line of ten
   * or more tokens that fits the buffer, more tokens after them leave the
   * box as it was.
   */
  lemma LaterTokensAreIgnored(ts: seq<WString>, more: seq<WString>)
    requires forall k | 0 <= k < |ts| :: |ts[k]| > 0 && Tilde !in ts[k] && NoNul(ts[k])
    requires forall k | 0 <= k < |more| :: |more[k]| > 0 && Tilde !in more[k] && NoNul(more[k])
    requires |ts| >= MaxTokens && |Join(ts)| < MsgSize && |Join(ts + more)| < MsgSize
    ensures Decoded(Join(ts + more)) == Decoded(Join(ts))
  {
    var all := ts + more;
    assert forall k | 0 <= k < |all| :: |all[k]| > 0 && Tilde !in all[k] && NoNul(all[k]) by {
      assert forall k | |ts| <= k < |all| :: all[k] == more[k - |ts|];
    }
    JoinHasNoNul(ts);
    JoinHasNoNul(all);
    LineOfShortText(Join(ts));
    LineOfShortText(Join(all));
    TokensOfJoin(ts);
    TokensOfJoin(all);
    assert FirstTokens(all) == all[..MaxTokens] == ts[..MaxTokens] == FirstTokens(ts);
  }

  // ---------------------------------------------------------------- wWinMain

  /**
   * The `wcstok_s` loop of `wWinMain`: up to `MAX_TOKENS` calls, stopping
   * at the first that finds no token; the tokens found fill `tokens`.
   */
  method CollectTokens(line: WString) returns (tokens: array<WString>, count: nat)
    ensures fresh(tokens) && tokens.Length == MaxTokens
    ensures count <= MaxTokens && tokens[..count] == FirstTokens(Tokens(line))
  {
    tokens := new WString[MaxTokens](_ => []);
    count := 0;
    var pos: nat := 0;
    while count < MaxTokens
      invariant 0 <= count <= MaxTokens && pos <= |line|
      invariant tokens[..count] + TokensFrom(line, pos) == Tokens(line)
    {
      var next := NextToken(line, pos);
      if next.None? {
        break;
      }
      ghost var found := tokens[..count];
      tokens[count] := next.value.text;
      assert tokens[..count + 1] == found + [next.value.text];
      TokenFound(line, pos, found);
      pos := next.value.next;
      count := count + 1;
    }
    FirstTokensFound(line, tokens[..count], pos);
  }

  /** One more token found: it moves from what is left to what was found. */
  lemma TokenFound(line: WString, pos: nat, found: seq<WString>)
    requires pos <= |line| && NextToken(line, pos).Some? && found + TokensFrom(line, pos) == Tokens(line)
    ensures (found + [NextToken(line, pos).value.text]) + TokensFrom(line, NextToken(line, pos).value.next) == Tokens(line)
  {
    var t := NextToken(line, pos).value;
    assert TokensFrom(line, pos) == [t.text] + TokensFrom(line, t.next);
    assert (found + [t.text]) + TokensFrom(line, t.next) == found + ([t.text] + TokensFrom(line, t.next));
  }

  /** Ten tokens found, or none left: what was found are the first tokens of the line. */
  lemma FirstTokensFound(line: WString, found: seq<WString>, pos: nat)
    requires pos <= |line| && found + TokensFrom(line, pos) == Tokens(line) && |found| <= MaxTokens
    requires |found| == MaxTokens || NextToken(line, pos).None?
    ensures found == FirstTokens(Tokens(line))
  {
    assert Tokens(line)[..|found|] == found;
  }

  /**
   * `wWinMain`: copy the command line into `line`, collect up to ten
   * tokens in `tokens`, append the default delay to exactly three, then
   * settle the icon and the delay and choose the box; the result is 0.
   */
  method WinMain(cmdLine: WString) returns (box: Box, exitCode: int)
    ensures box == Decoded(cmdLine)
    ensures box != NoBox <==> |Tokens(Line(cmdLine))| >= 3
    ensures exitCode == 0
  {
    var line := Truncate(CStrAt(cmdLine, 0), MsgSize - 1);
    var tokens, i := CollectTokens(line);
    ghost var found := tokens[..i];
    if i == DelayIndex {
      tokens[i] := DefaultDelayText;
      i := i + 1;
      assert tokens[..i] == found + [DefaultDelayText];
    }
    if i >= DelayIndex {
      var icon := ToUint(WcsToL(tokens[IconIndex], 16));
      if icon != IconInformation && icon != IconError && icon != IconWarning && icon != IconQuestion {
        icon := IconInformation;
      }
      assert icon == IconOf(tokens[IconIndex]);
      var delay := ToUint(WcsToL(tokens[DelayIndex], 10));
      if delay > MaxDelay {
        delay := DefaultDelay;
      }
      assert delay == DelayOf(tokens[DelayIndex]);
      if delay == 0 {
        box := Untimed(tokens[DetailIndex], tokens[CaptionIndex], icon);
      } else {
        box := Timed(tokens[DetailIndex], tokens[CaptionIndex], icon, delay);
      }
    } else {
      box := NoBox;
    }
    return box, 0;
  }
}
