/**
 * Wide strings as the Windows C runtime sees them: a `wchar_t` is a UTF-16
 * code unit, a string is the sequence of units before its NUL terminator,
 * and a buffer is a sequence of units that may contain NULs.  This module
 * holds the string primitives the launchers rely on (`isspace`, `wcschr`,
 * `wcspbrk`, `wcsstr`, `wcscmp`, `wcsncmp`, `_wcsicmp`, `_TRUNCATE` copies)
 * and `skip_whitespace`.
 */
module Wide {
  import opened Wrappers

  /** A UTF-16 code unit, the launcher's `wchar_t`. */
  type WChar = c: int | 0 <= c < 0x1_0000

  /** A sequence of code units: a C wide string (without its terminator) or a buffer. */
  type WString = seq<WChar>

  const Nul: WChar := 0

  /** The space character, as a code unit. */
  const Space: WChar := ' ' as int

  /** The code units of a literal written in this model (all of them in the BMP). */
  function Lit(s: string): (w: WString)
    ensures |w| == |s|
  {
    seq(|s|, i requires 0 <= i < |s| => if s[i] as int < 0x1_0000 then s[i] as int else 0xFFFD)
  }

  /** `isspace` in the C locale: space, tab, line feed, vertical tab, form feed, carriage return. */
  predicate IsSpace(c: WChar) {
    c == 32 || 9 <= c <= 13
  }

  /** `isdigit` in the C locale. */
  predicate IsDigit(c: WChar) {
    '0' as int <= c <= '9' as int
  }

  /** A string holds no NUL, so it is the whole of a C string. */
  predicate NoNul(s: WString) {
    forall i | 0 <= i < |s| :: s[i] != Nul
  }

  /** The index of the first NUL at or after `i`, or the end of `buf`: where a C string starting at `i` stops. */
  function CStrEnd(buf: WString, i: nat): (e: nat)
    requires i <= |buf|
    ensures i <= e <= |buf|
    ensures forall k | i <= k < e :: buf[k] != Nul
    ensures e == |buf| || buf[e] == Nul
    decreases |buf| - i
  {
    if i == |buf| || buf[i] == Nul then i else CStrEnd(buf, i + 1)
  }

  /** The C string that starts at index `i` of `buf`: its units up to the first NUL, or to the end. */
  function CStrAt(buf: WString, i: nat): (s: WString)
    requires i <= |buf|
    ensures NoNul(s)
    ensures i + |s| <= |buf| && s == buf[i..i + |s|]
    ensures i + |s| == |buf| || buf[i + |s|] == Nul
  {
    buf[i..CStrEnd(buf, i)]
  }

  /** A C string read from a buffer is the buffer's C string when the buffer holds only that string. */
  lemma {:induction false} CStrAtOfString(s: WString)
    requires NoNul(s)
    ensures CStrAt(s + [Nul], 0) == s
  {
    var t := CStrAt(s + [Nul], 0);
    assert (s + [Nul])[|s|] == Nul;
  }

  /** The C string at `i` is the NUL-free run that the buffer's end or a NUL closes. */
  lemma CStrAtIs(buf: WString, i: nat, n: nat)
    requires i + n <= |buf| && NoNul(buf[i..i + n])
    requires i + n == |buf| || buf[i + n] == Nul
    ensures CStrAt(buf, i) == buf[i..i + n]
  {
  }

  /** Concatenation is associative. */
  lemma Associative(a: WString, b: WString, c: WString)
    ensures a + b + c == a + (b + c)
  {
  }

  /** A slice of a slice is a slice of the whole. */
  lemma SliceOfSlice(buf: WString, i: nat, n: nat, f: nat, m: nat)
    requires i + n <= |buf| && f + m <= n
    ensures buf[i..i + n][f..f + m] == buf[i + f..i + f + m]
  {
    var inner := buf[i..i + n];
    var x, y := inner[f..f + m], buf[i + f..i + f + m];
    forall k | 0 <= k < m
      ensures x[k] == y[k]
    {
      assert inner[f + k] == buf[i + f + k];
    }
  }

  /** A NUL-free stretch from `i` on is the start of the C string at `i`. */
  lemma CStrAtCovers(buf: WString, i: nat, n: nat)
    requires i + n <= |buf| && NoNul(buf[i..i + n])
    ensures n <= |CStrAt(buf, i)| && CStrAt(buf, i)[..n] == buf[i..i + n]
  {
  }

  /** Reading from inside a C string gives the rest of it. */
  lemma CStrAtFrom(buf: WString, i: nat, j: nat)
    requires i <= |buf| && i <= j <= i + |CStrAt(buf, i)|
    ensures CStrAt(buf, j) == CStrAt(buf, i)[j - i..]
  {
    var c := CStrAt(buf, i);
    assert buf[j..i + |c|] == c[j - i..];
    CStrAtIs(buf, j, i + |c| - j);
  }

  /** Writing a NUL inside a C string cuts it there, and leaves the rest readable after the cut. */
  lemma CStrAtCut(buf: WString, i: nat, p: nat)
    requires i <= |buf| && i <= p < i + |CStrAt(buf, i)|
    ensures CStrAt(buf[p := Nul], i) == CStrAt(buf, i)[..p - i]
    ensures CStrAt(buf[p := Nul], p + 1) == CStrAt(buf, i)[p - i + 1..]
  {
    var c := CStrAt(buf, i);
    var b := buf[p := Nul];
    assert b[i..p] == c[..p - i];
    CStrAtIs(b, i, p - i);
    assert b[p + 1..i + |c|] == c[p - i + 1..];
    CStrAtIs(b, p + 1, i + |c| - (p + 1));
  }

  /** `CStrAtCut` with the NUL written `k` characters into the string. */
  lemma CStrAtCutAt(buf: WString, i: nat, k: nat)
    requires i <= |buf| && k < |CStrAt(buf, i)|
    ensures CStrAt(buf[i + k := Nul], i) == CStrAt(buf, i)[..k]
    ensures CStrAt(buf[i + k := Nul], i + k + 1) == CStrAt(buf, i)[k + 1..]
  {
    CStrAtCut(buf, i, i + k);
  }

  /** A write after a C string's terminator, or a NUL written over it, leaves the string as it was. */
  lemma CStrAtUntouched(buf: WString, i: nat, p: nat, v: WChar)
    requires i <= |buf| && p < |buf|
    requires p < i || p > i + |CStrAt(buf, i)| || (p == i + |CStrAt(buf, i)| && v == Nul)
    ensures CStrAt(buf[p := v], i) == CStrAt(buf, i)
  {
    var c := CStrAt(buf, i);
    var b := buf[p := v];
    assert b[i..i + |c|] == c;
    CStrAtIs(b, i, |c|);
  }

  /** A NUL-free string read as a C string is the whole string. */
  lemma {:induction false} CStrAtOfNulFree(s: WString)
    requires NoNul(s)
    ensures CStrAt(s, 0) == s
  {
  }

  /**
   * `skip_whitespace`: the first index at or after `i` whose unit is not
   * white space (the end of `s` plays the terminator's part).
   */
  function SkipWs(s: WString, i: nat): (j: nat)
    requires i <= |s|
    ensures i <= j <= |s|
    ensures forall k | i <= k < j :: IsSpace(s[k])
    ensures j == |s| || !IsSpace(s[j])
    decreases |s| - i
  {
    if i == |s| || !IsSpace(s[i]) then i else SkipWs(s, i + 1)
  }

  /** The loop of `skip_whitespace`, advancing over white space from `i`. */
  method SkipWhitespace(s: WString, i: nat) returns (j: nat)
    requires i <= |s|
    ensures j == SkipWs(s, i)
  {
    j := i;
    while j < |s| && IsSpace(s[j])
      invariant i <= j <= |s|
      invariant SkipWs(s, j) == SkipWs(s, i)
      decreases |s| - j
    {
      j := j + 1;
    }
  }

  /** A string with its leading white space removed. */
  function TrimStart(s: WString): (t: WString)
    ensures |t| <= |s| && t == s[|s| - |t|..]
    ensures |t| == 0 || !IsSpace(t[0])
  {
    s[SkipWs(s, 0)..]
  }

  /** The index `SkipWs` finds is the only one with white space before it and none at it. */
  lemma SkipWsIs(s: WString, i: nat, j: nat)
    requires i <= j <= |s| && forall k | i <= k < j :: IsSpace(s[k])
    requires j == |s| || !IsSpace(s[j])
    ensures SkipWs(s, i) == j
  {
  }

  /** One unit of white space, then none: skipping stops just after it. */
  lemma SkipWsOne(s: WString, i: nat)
    requires i + 1 < |s| && IsSpace(s[i]) && !IsSpace(s[i + 1])
    ensures SkipWs(s, i) == i + 1
  {
  }

  /** Skipping white space from `i` is trimming what follows `i`. */
  lemma SkipWsFrom(s: WString, i: nat)
    requires i <= |s|
    ensures s[SkipWs(s, i)..] == TrimStart(s[i..])
  {
    var t := s[i..];
    var j := SkipWs(s, i);
    forall k | 0 <= k < j - i ensures IsSpace(t[k]) {
      assert t[k] == s[i + k];
    }
    SkipWsIs(t, 0, j - i);
    assert t[j - i..] == s[j..];
  }

  /** Skipping white space in a buffer from `i` is trimming the C string at `i`. */
  lemma SkipWsInCStr(buf: WString, i: nat)
    requires i <= |buf|
    ensures i <= SkipWs(buf, i) <= i + |CStrAt(buf, i)|
    ensures CStrAt(buf, SkipWs(buf, i)) == TrimStart(CStrAt(buf, i))
  {
    var c := CStrAt(buf, i);
    var j := SkipWs(buf, i);
    assert forall x | 0 <= x < |c| :: c[x] == buf[i + x];
    SkipWsIs(c, 0, j - i);
    CStrAtFrom(buf, i, j);
  }

  /** Leading white space in front of a string does not change what trimming yields. */
  lemma {:induction false} TrimStartSkipsPrefix(w: WString, s: WString)
    requires forall k | 0 <= k < |w| :: IsSpace(w[k])
    requires |s| == 0 || !IsSpace(s[0])
    ensures TrimStart(w + s) == s
  {
    var ws := w + s;
    assert ws[|w|..] == s;
  }

  predicate StartsWith(s: WString, prefix: WString) {
    |prefix| <= |s| && s[..|prefix|] == prefix
  }

  /** The index of the first occurrence of `c` in `s` at or after `i`. */
  function IndexOfFrom(s: WString, c: WChar, i: nat): (r: Option<nat>)
    requires i <= |s|
    ensures r.Some? ==> i <= r.value < |s| && s[r.value] == c
    ensures r.Some? ==> forall k | i <= k < r.value :: s[k] != c
    ensures r.None? <==> forall k | i <= k < |s| :: s[k] != c
    decreases |s| - i
  {
    if i == |s| then None
    else if s[i] == c then Some(i)
    else IndexOfFrom(s, c, i + 1)
  }

  /** `wcschr`: the index of the first occurrence of `c` in the C string `s`. */
  function IndexOf(s: WString, c: WChar): (r: Option<nat>)
    ensures r.Some? ==> r.value < |s| && s[r.value] == c && c !in s[..r.value]
    ensures r.None? <==> c !in s
  {
    var r := IndexOfFrom(s, c, 0);
    assert r.Some? ==> forall k | 0 <= k < r.value :: s[..r.value][k] != c;
    r
  }

  /** A unit at `k` with none before it is the first occurrence. */
  lemma IndexOfIs(s: WString, c: WChar, k: nat)
    requires k < |s| && s[k] == c && c !in s[..k]
    ensures IndexOf(s, c) == Some(k)
  {
  }

  /** `wcsrchr`: the index of the last occurrence of `c` in the C string `s`. */
  function LastIndexOf(s: WString, c: WChar): (r: Option<nat>)
    ensures r.Some? ==> r.value < |s| && s[r.value] == c && c !in s[r.value + 1..]
    ensures r.None? <==> c !in s
  {
    if |s| == 0 then None
    else if s[|s| - 1] == c then Some(|s| - 1)
    else
      var r := LastIndexOf(s[..|s| - 1], c);
      assert s == s[..|s| - 1] + [s[|s| - 1]];
      r
  }

  /** `wcspbrk`: the index of the first unit of `s` that is one of `set`. */
  function IndexOfAny(s: WString, set_: WString): (r: Option<nat>)
    ensures r.Some? ==> r.value < |s| && s[r.value] in set_
    ensures r.Some? ==> forall k | 0 <= k < r.value :: s[k] !in set_
    ensures r.None? <==> forall k | 0 <= k < |s| :: s[k] !in set_
  {
    if |s| == 0 then None
    else if s[0] in set_ then Some(0)
    else match IndexOfAny(s[1..], set_)
      case None => None
      case Some(k) => Some(k + 1)
  }

  /** The first unit of `s` in `set_` is found by `IndexOfAny`. */
  lemma {:induction false} IndexOfAnyIs(s: WString, set_: WString, k: nat)
    requires k < |s| && s[k] in set_ && forall j | 0 <= j < k :: s[j] !in set_
    ensures IndexOfAny(s, set_) == Some(k)
  {
    if k > 0 {
      IndexOfAnyIs(s[1..], set_, k - 1);
    }
  }

  /** `pat` occurs in `s` at index `k`. */
  predicate OccursAt(s: WString, pat: WString, k: nat) {
    k + |pat| <= |s| && s[k..k + |pat|] == pat
  }

  /** `wcsstr`: the index of the first occurrence of `pat` in `s`, searching from `i`. */
  function FindSubFrom(s: WString, pat: WString, i: nat): (r: Option<nat>)
    requires i <= |s|
    ensures r.Some? ==> i <= r.value && OccursAt(s, pat, r.value)
    ensures r.Some? ==> forall k | i <= k < r.value :: !OccursAt(s, pat, k)
    ensures r.None? <==> forall k | i <= k <= |s| :: !OccursAt(s, pat, k)
    decreases |s| - i
  {
    if OccursAt(s, pat, i) then Some(i)
    else if i == |s| then None
    else FindSubFrom(s, pat, i + 1)
  }

  function FindSub(s: WString, pat: WString): Option<nat> {
    FindSubFrom(s, pat, 0)
  }

  /** A pattern that is a prefix of `s` is found at index 0. */
  lemma FindSubOfPrefix(s: WString, pat: WString)
    requires StartsWith(s, pat)
    ensures FindSub(s, pat) == Some(0)
  {
    assert OccursAt(s, pat, 0);
  }

  /**
   * Strict lexicographic order on code units, the order `wcscmp` reports:
   * a proper prefix comes first, otherwise the first differing unit decides.
   */
  predicate LexLess(a: WString, b: WString) {
    (|a| < |b| && a == b[..|a|]) ||
    exists k | 0 <= k < |a| && k < |b| :: a[..k] == b[..k] && a[k] < b[k]
  }

  lemma LexLessTail(a: WString, b: WString)
    requires |a| > 0 && |b| > 0 && a[0] == b[0]
    ensures LexLess(a, b) <==> LexLess(a[1..], b[1..])
  {
    if LexLess(a, b) {
      if |a| < |b| && a == b[..|a|] {
        assert a[1..] == b[1..][..|a[1..]|];
      } else {
        var k :| 0 <= k < |a| && k < |b| && a[..k] == b[..k] && a[k] < b[k];
        assert k != 0;
        assert a[1..][..k - 1] == a[1..k] == b[1..k] == b[1..][..k - 1];
        assert a[1..][k - 1] < b[1..][k - 1];
      }
    }
    if LexLess(a[1..], b[1..]) {
      if |a[1..]| < |b[1..]| && a[1..] == b[1..][..|a[1..]|] {
        assert a == [a[0]] + a[1..];
        assert b[..|a|] == [b[0]] + b[1..][..|a[1..]|];
      } else {
        var k :| 0 <= k < |a[1..]| && k < |b[1..]| && a[1..][..k] == b[1..][..k] && a[1..][k] < b[1..][k];
        assert a[..k + 1] == [a[0]] + a[1..][..k];
        assert b[..k + 1] == [b[0]] + b[1..][..k];
        assert a[k + 1] < b[k + 1];
      }
    }
  }

  lemma LexLessHead(a: WString, b: WString)
    requires |a| > 0 && |b| > 0 && a[0] != b[0]
    ensures LexLess(a, b) <==> a[0] < b[0]
  {
    if a[0] < b[0] {
      assert a[..0] == b[..0];
    }
    if LexLess(a, b) && !(|a| < |b| && a == b[..|a|]) {
      var k :| 0 <= k < |a| && k < |b| && a[..k] == b[..k] && a[k] < b[k];
      if k > 0 {
        assert a[0] == a[..k][0];
      }
    }
  }

  /** The lexicographic order is transitive. */
  lemma {:induction false} LexLessTransitive(a: WString, b: WString, c: WString)
    requires LexLess(a, b) && LexLess(b, c)
    ensures LexLess(a, c)
    decreases |a|
  {
    LexLessNonEmpty(b, c);
    if |a| == 0 {
      assert a == c[..0];
    } else {
      LexLessNonEmpty(a, b);
      if a[0] != b[0] { LexLessHead(a, b); }
      if b[0] != c[0] { LexLessHead(b, c); }
      if a[0] != c[0] {
        LexLessHead(a, c);
      } else {
        LexLessTail(a, b);
        LexLessTail(b, c);
        LexLessTransitive(a[1..], b[1..], c[1..]);
        LexLessTail(a, c);
      }
    }
  }

  lemma LexLessNonEmpty(a: WString, b: WString)
    requires LexLess(a, b)
    ensures |b| > 0
  {
  }

  /** `wcscmp`, reduced to the sign of its result. */
  function WcsCmp(a: WString, b: WString): (r: int)
    ensures -1 <= r <= 1
    ensures r == 0 <==> a == b
    ensures r < 0 <==> LexLess(a, b)
    ensures r > 0 <==> LexLess(b, a)
  {
    if |a| == 0 && |b| == 0 then 0
    else if |a| == 0 then
      assert a == b[..0];
      -1
    else if |b| == 0 then
      assert b == a[..0];
      1
    else if a[0] < b[0] then
      LexLessHead(a, b); LexLessHead(b, a);
      -1
    else if a[0] > b[0] then
      LexLessHead(a, b); LexLessHead(b, a);
      1
    else
      var r := WcsCmp(a[1..], b[1..]);
      LexLessTail(a, b); LexLessTail(b, a);
      assert a == [a[0]] + a[1..] && b == [b[0]] + b[1..];
      r
  }

  /** The first `n` units of a C string, or all of it when it is shorter. */
  function Take(s: WString, n: nat): (t: WString)
    ensures |t| <= n && StartsWith(s, t)
  {
    if |s| <= n then s else s[..n]
  }

  /**
   * `wcsncmp(a, b, n) == 0` for C strings: the first `n` units agree, where
   * a terminator reached early must be matched by a terminator.
   */
  predicate AgreeUpTo(a: WString, b: WString, n: nat) {
    Take(a, n) == Take(b, n)
  }

  /** `wcsncmp(a, b, wcslen(b)) == 0` says exactly that `a` starts with `b`. */
  lemma AgreeUpToWhole(a: WString, b: WString)
    ensures AgreeUpTo(a, b, |b|) <==> StartsWith(a, b)
  {
  }

  /** A copy with `_TRUNCATE` into a buffer of `n + 1` units keeps at most `n` of them. */
  function Truncate(s: WString, n: nat): (t: WString)
    ensures |t| == if |s| <= n then |s| else n
    ensures StartsWith(s, t)
  {
    Take(s, n)
  }

  /** The case folding of `_wcsicmp`: ASCII capitals become lower case, nothing else changes. */
  function LowerUnit(c: WChar): WChar {
    if 'A' as int <= c <= 'Z' as int then c + 32 else c
  }

  function Fold(s: WString): WString {
    seq(|s|, i requires 0 <= i < |s| => LowerUnit(s[i]))
  }

  /** `_wcsicmp(a, b) == 0`. */
  predicate SameIgnoringCase(a: WString, b: WString) {
    Fold(a) == Fold(b)
  }

  /** Case-insensitive comparison ignores exactly ASCII case. */
  lemma SameIgnoringCaseUnits(a: WString, b: WString)
    ensures SameIgnoringCase(a, b) <==>
      |a| == |b| && forall i | 0 <= i < |a| :: LowerUnit(a[i]) == LowerUnit(b[i])
  {
    if |a| == |b| && forall i | 0 <= i < |a| :: LowerUnit(a[i]) == LowerUnit(b[i]) {
      assert forall i | 0 <= i < |a| :: Fold(a)[i] == Fold(b)[i];
    }
    if SameIgnoringCase(a, b) {
      assert forall i | 0 <= i < |a| :: Fold(a)[i] == LowerUnit(a[i]);
    }
  }
}
