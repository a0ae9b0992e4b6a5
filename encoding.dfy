/**
 * The first bytes of a script and how the launcher turns them into its
 * first line: byte-order-mark detection (`find_BOM`), the search for the
 * line terminator (`find_terminator`) and the decoding of the header into
 * UTF-16 code units for UTF-8, UTF-16LE and UTF-16BE.  The byte-order marks
 * are the encodings of U+FEFF listed in section 23.8 of the Unicode
 * Standard; the UTF-8 form is the one of RFC 3629, section 6.
 */
module Encoding {
  import opened Wrappers
  import opened Wide

  type Byte = b: int | 0 <= b < 0x100

  /** BUFSIZE: how many bytes of the script the launcher reads. */
  const BufSize: nat := 256

  /**
   * The `buffer` the launcher inspects: the bytes `fread` stored, followed
   * (when the file is shorter) by whatever the stack held before.
   */
  type HeadBuffer = b: seq<Byte> | |b| == BufSize witness seq(BufSize, _ => 0)

  const CpUtf8: int := 65001
  const CpUtf16Le: int := 1200
  const CpUtf16Be: int := 1201
  const CpUtf32Le: int := 12000
  const CpUtf32Be: int := 12001

  datatype Bom = Bom(sequence: seq<Byte>, codePage: int)

  /** The BOM table, in the order it is searched; UTF-8 is first and is also the default. */
  const Boms: seq<Bom> := [
    Bom([0xEF, 0xBB, 0xBF], CpUtf8),
    Bom([0xFF, 0xFE], CpUtf16Le),
    Bom([0xFE, 0xFF], CpUtf16Be),
    Bom([0xFF, 0xFE, 0x00, 0x00], CpUtf32Le),
    Bom([0x00, 0x00, 0xFE, 0xFF], CpUtf32Be)
  ]

  predicate HasPrefix(s: seq<Byte>, p: seq<Byte>) {
    |p| <= |s| && s[..|p|] == p
  }

  /** The first entry at or after `k` in the table whose bytes begin `buf` (a `memcmp` match). */
  function FirstBomFrom(buf: HeadBuffer, k: nat): (r: Option<nat>)
    requires k <= |Boms|
    ensures r.Some? ==> k <= r.value < |Boms| && HasPrefix(buf, Boms[r.value].sequence)
    ensures r.Some? ==> forall j | k <= j < r.value :: !HasPrefix(buf, Boms[j].sequence)
    ensures r.None? <==> forall j | k <= j < |Boms| :: !HasPrefix(buf, Boms[j].sequence)
    decreases |Boms| - k
  {
    if k == |Boms| then None
    else if HasPrefix(buf, Boms[k].sequence) then Some(k)
    else FirstBomFrom(buf, k + 1)
  }

  /** `find_BOM`, comparing whole signatures: the index of the matching table entry. */
  method FindBom(buf: HeadBuffer) returns (r: Option<nat>)
    ensures r == FirstBomFrom(buf, 0)
  {
    var k := 0;
    while k < |Boms|
      invariant 0 <= k <= |Boms|
      invariant FirstBomFrom(buf, k) == FirstBomFrom(buf, 0)
    {
      if HasPrefix(buf, Boms[k].sequence) {
        return Some(k);
      }
      k := k + 1;
    }
    return None;
  }

  /** A UTF-16LE signature is always reported as UTF-16LE, never as the UTF-32LE signature it begins. */
  lemma {:induction false} Utf32LeNeverFound(buf: HeadBuffer)
    ensures FirstBomFrom(buf, 0) != Some(3)
  {
  }

  /**
   * `strncmp(a, b, n) == 0` on bytes: the first `n` bytes agree, except
   * that the comparison stops after a NUL both share.
   */
  predicate StrNEqual(a: seq<Byte>, b: seq<Byte>, n: nat)
    requires n <= |a| && n <= |b|
    decreases n
  {
    n == 0 || (a[0] == b[0] && (a[0] == 0 || StrNEqual(a[1..], b[1..], n - 1)))
  }

  /** `find_BOM` as written: it compares signatures with `strncmp`. */
  function FirstBomAsWrittenFrom(buf: HeadBuffer, k: nat): (r: Option<nat>)
    requires k <= |Boms|
    ensures r.Some? ==> k <= r.value < |Boms|
    ensures r.Some? ==> StrNEqual(Boms[r.value].sequence, buf, |Boms[r.value].sequence|)
    decreases |Boms| - k
  {
    if k == |Boms| then None
    else if StrNEqual(Boms[k].sequence, buf, |Boms[k].sequence|) then Some(k)
    else FirstBomAsWrittenFrom(buf, k + 1)
  }

  /**
   * `strncmp` stops at the NUL that starts the UTF-32BE signature, so every
   * buffer whose first byte is 0 is taken for UTF-32BE; comparing whole
   * signatures reports no BOM for such a buffer unless it really starts
   * 00 00 FE FF.
   */
  lemma LeadingNulIsTakenForUtf32Be(buf: HeadBuffer)
    requires buf[0] == 0 && buf[..4] != [0x00, 0x00, 0xFE, 0xFF]
    ensures FirstBomAsWrittenFrom(buf, 0) == Some(4)
    ensures FirstBomFrom(buf, 0) == None
  {
    assert !StrNEqual(Boms[0].sequence, buf, 3);
    assert !StrNEqual(Boms[1].sequence, buf, 2);
    assert !StrNEqual(Boms[2].sequence, buf, 2);
    assert !StrNEqual(Boms[3].sequence, buf, 4);
    assert StrNEqual(Boms[4].sequence, buf, 4);
  }

  /** Outside that case the two comparisons agree. */
  lemma FindBomAgreesOtherwise(buf: HeadBuffer)
    requires buf[0] != 0
    ensures FirstBomAsWrittenFrom(buf, 0) == FirstBomFrom(buf, 0)
  {
    var s0, s1, s2, s3 := Boms[0].sequence, Boms[1].sequence, Boms[2].sequence, Boms[3].sequence;
    assert StrNEqual(s0, buf, 3) <==> HasPrefix(buf, s0) by {
      assert StrNEqual(s0, buf, 3) <==> buf[0] == 0xEF && buf[1] == 0xBB && buf[2] == 0xBF;
    }
    assert StrNEqual(s1, buf, 2) <==> HasPrefix(buf, s1) by {
      assert StrNEqual(s1, buf, 2) <==> buf[0] == 0xFF && buf[1] == 0xFE;
    }
    assert StrNEqual(s2, buf, 2) <==> HasPrefix(buf, s2) by {
      assert StrNEqual(s2, buf, 2) <==> buf[0] == 0xFE && buf[1] == 0xFF;
    }
    assert !StrNEqual(Boms[4].sequence, buf, 4) && !HasPrefix(buf, Boms[4].sequence);
    if HasPrefix(buf, s1) {
      assert FirstBomFrom(buf, 0) == Some(1);
    } else {
      assert !StrNEqual(s3, buf, 4) && !HasPrefix(buf, s3);
    }
  }

  predicate IsLineEnd(b: Byte) {
    b == '\r' as int || b == '\n' as int
  }

  /** The index of the first CR or LF in `s[i..end]`. */
  function LineEndIn(s: seq<Byte>, i: nat, end: nat): (r: Option<nat>)
    requires i <= end <= |s|
    ensures r.Some? ==> i <= r.value < end && IsLineEnd(s[r.value])
    ensures r.Some? ==> forall k | i <= k < r.value :: !IsLineEnd(s[k])
    ensures r.None? <==> forall k | i <= k < end :: !IsLineEnd(s[k])
    decreases end - i
  {
    if i == end then None
    else if IsLineEnd(s[i]) then Some(i)
    else LineEndIn(s, i + 1, end)
  }

  /** How many bytes of the terminating character follow its first byte. */
  function TerminatorTail(codePage: int): nat {
    if codePage == CpUtf16Le then 1 else if codePage == CpUtf32Le then 3 else 0
  }

  /** The corrected `find_terminator`: the index just past the first line's terminator, searching only inside the buffer. */
  function TerminatorEnd(buf: HeadBuffer, start: nat, codePage: int): Option<nat>
    requires start <= |buf|
  {
    match LineEndIn(buf, start, |buf|)
    case None => None
    case Some(p) => Some(p + TerminatorTail(codePage) + 1)
  }

  method FindTerminator(buf: HeadBuffer, start: nat, codePage: int) returns (r: Option<nat>)
    requires start <= |buf|
    ensures r.Some? <==> exists p | start <= p < |buf| :: IsLineEnd(buf[p])
    ensures r == TerminatorEnd(buf, start, codePage)
  {
    var p := start;
    while p < |buf|
      invariant start <= p <= |buf|
      invariant LineEndIn(buf, p, |buf|) == LineEndIn(buf, start, |buf|)
    {
      if IsLineEnd(buf[p]) {
        return Some(p + TerminatorTail(codePage) + 1);
      }
      p := p + 1;
    }
    return None;
  }

  /**
   * `find_terminator` as written is called with the length BUFSIZE however
   * far `start` lies into the buffer: it scans `mem[start..start + BufSize]`,
   * where `mem` is the memory from `buffer` onwards.
   */
  function TerminatorEndAsWritten(mem: seq<Byte>, start: nat, codePage: int): Option<nat>
    requires start + BufSize <= |mem|
  {
    match LineEndIn(mem, start, start + BufSize)
    case None => None
    case Some(p) => Some(p + TerminatorTail(codePage) + 1)
  }

  /**
   * After a BOM, a first line that has no terminator inside the buffer is
   * ended by whatever byte follows the buffer in memory; the corrected scan
   * finds no line.
   */
  lemma TerminatorScanOverrunsBuffer(mem: seq<Byte>, start: nat, codePage: int)
    requires 0 < start <= 4 && start + BufSize <= |mem|
    requires forall k | start <= k < BufSize :: !IsLineEnd(mem[k])
    requires mem[BufSize] == '\n' as int
    ensures TerminatorEndAsWritten(mem, start, codePage) == Some(BufSize + TerminatorTail(codePage) + 1)
    ensures TerminatorEnd(mem[..BufSize], start, codePage) == None
  {
    var r := LineEndIn(mem, start, start + BufSize);
    assert r == Some(BufSize) by {
      assert IsLineEnd(mem[BufSize]);
    }
    var buf: HeadBuffer := mem[..BufSize];
    assert forall k | start <= k < |buf| :: buf[k] == mem[k];
  }

  /** A line end with none before it is the first one, whatever the end of the scan. */
  lemma LineEndInIsFirst(s: seq<Byte>, i: nat, end: nat, p: nat)
    requires i <= p < end <= |s| && IsLineEnd(s[p])
    requires forall k | i <= k < p :: !IsLineEnd(s[k])
    ensures LineEndIn(s, i, end) == Some(p)
  {
  }

  /** Without a BOM, or when a terminator lies inside the buffer, the two scans agree. */
  lemma TerminatorScansAgreeInside(mem: seq<Byte>, start: nat, codePage: int)
    requires start <= 4 && start + BufSize <= |mem|
    requires start == 0 || exists k | start <= k < BufSize :: IsLineEnd(mem[k])
    ensures TerminatorEndAsWritten(mem, start, codePage) == TerminatorEnd(mem[..BufSize], start, codePage)
  {
    var buf: HeadBuffer := mem[..BufSize];
    assert forall k | start <= k < BufSize :: buf[k] == mem[k];
    match LineEndIn(buf, start, BufSize)
    case Some(p) =>
      LineEndInIsFirst(mem, start, start + BufSize, p);
    case None =>
      assert start == 0;
      assert forall k | 0 <= k < BufSize :: !IsLineEnd(mem[k]);
  }

  /** Little-endian UTF-16: each pair of bytes is one code unit, low byte first. */
  function Utf16Le(bytes: seq<Byte>): (u: WString)
    requires |bytes| % 2 == 0
    ensures |u| == |bytes| / 2
  {
    seq(|bytes| / 2, i requires 0 <= i < |bytes| / 2 => bytes[2 * i] as int + 256 * (bytes[2 * i + 1] as int))
  }

  /** Big-endian UTF-16: each pair of bytes is one code unit, high byte first. */
  function Utf16Be(bytes: seq<Byte>): (u: WString)
    requires |bytes| % 2 == 0
    ensures |u| == |bytes| / 2
  {
    seq(|bytes| / 2, i requires 0 <= i < |bytes| / 2 => 256 * (bytes[2 * i] as int) + bytes[2 * i + 1] as int)
  }

  /** The bytes with each pair exchanged. */
  function SwapPairs(bytes: seq<Byte>): seq<Byte>
    requires |bytes| % 2 == 0
  {
    seq(|bytes|, i requires 0 <= i < |bytes| => if i % 2 == 0 then bytes[i + 1] else bytes[i - 1])
  }

  /** Decoding big-endian text is decoding little-endian text after exchanging every byte pair. */
  lemma BigEndianIsSwappedLittleEndian(bytes: seq<Byte>)
    requires |bytes| % 2 == 0
    ensures Utf16Be(bytes) == Utf16Le(SwapPairs(bytes))
  {
  }

  /** The little-endian bytes of code units: the inverse of `Utf16Le`. */
  function Utf16LeBytes(u: WString): (b: seq<Byte>)
    ensures |b| == 2 * |u|
  {
    if |u| == 0 then [] else [u[0] % 256, u[0] / 256] + Utf16LeBytes(u[1..])
  }

  lemma {:induction false} Utf16LeRoundTrip(u: WString)
    ensures Utf16Le(Utf16LeBytes(u)) == u
  {
    if |u| > 0 {
      Utf16LeRoundTrip(u[1..]);
      var b := Utf16LeBytes(u);
      assert b[2..] == Utf16LeBytes(u[1..]);
      forall i | 0 <= i < |u|
        ensures Utf16Le(b)[i] == u[i]
      {
        if i > 0 {
          assert b[2 * i] == b[2..][2 * (i - 1)];
          assert b[2 * i + 1] == b[2..][2 * (i - 1) + 1];
          assert Utf16Le(b[2..])[i - 1] == u[1..][i - 1];
        }
      }
    }
  }

  /**
   * The byte-swapping loop for UTF-16BE: working back from the end of the
   * header, each byte pair becomes one code unit of `line`.
   */
  method SwapUtf16Be(bytes: seq<Byte>, line: array<WChar>)
    requires |bytes| % 2 == 0 && |bytes| / 2 <= line.Length
    modifies line
    ensures line[..|bytes| / 2] == Utf16Be(bytes)
    ensures line[|bytes| / 2..] == old(line[|bytes| / 2..])
  {
    var i := |bytes|;
    while i > 0
      invariant 0 <= i <= |bytes| && i % 2 == 0
      invariant forall k | i / 2 <= k < |bytes| / 2 :: line[k] == Utf16Be(bytes)[k]
      invariant forall k | 0 <= k < i / 2 :: line[k] == old(line[k])
      invariant line[|bytes| / 2..] == old(line[|bytes| / 2..])
    {
      line[i / 2 - 1] := 256 * (bytes[i - 2] as int) + bytes[i - 1] as int;
      i := i - 2;
    }
  }

  predicate IsContinuation(b: Byte) {
    0x80 <= b <= 0xBF
  }

  /**
   * The length of the well-formed UTF-8 sequence at the front of `b`
   * (the table of well-formed byte sequences of RFC 3629, section 4), or 0
   * when the front of `b` is ill-formed.
   */
  function SequenceLength(b: seq<Byte>): (n: nat)
    requires |b| > 0
    ensures n <= 4 && n <= |b|
  {
    var b0 := b[0];
    if b0 < 0x80 then 1
    else if 0xC2 <= b0 <= 0xDF then
      if |b| >= 2 && IsContinuation(b[1]) then 2 else 0
    else if 0xE0 <= b0 <= 0xEF then
      var lo := if b0 == 0xE0 then 0xA0 else 0x80;
      var hi := if b0 == 0xED then 0x9F else 0xBF;
      if |b| >= 3 && lo <= b[1] <= hi && IsContinuation(b[2]) then 3 else 0
    else if 0xF0 <= b0 <= 0xF4 then
      var lo := if b0 == 0xF0 then 0x90 else 0x80;
      var hi := if b0 == 0xF4 then 0x8F else 0xBF;
      if |b| >= 4 && lo <= b[1] <= hi && IsContinuation(b[2]) && IsContinuation(b[3]) then 4 else 0
    else 0
  }

  /** The code point a well-formed sequence encodes, as UTF-16 code units. */
  function SequenceUnits(b: seq<Byte>): (u: WString)
    requires |b| > 0 && SequenceLength(b) > 0
    ensures 1 <= |u| <= SequenceLength(b)
  {
    var n := SequenceLength(b);
    var b0, b1, b2, b3 := b[0] as int, if n > 1 then b[1] as int else 0, if n > 2 then b[2] as int else 0, if n > 3 then b[3] as int else 0;
    if n == 1 then [b0]
    else if n == 2 then [(b0 - 0xC0) * 64 + (b1 - 0x80)]
    else if n == 3 then [(b0 - 0xE0) * 4096 + (b1 - 0x80) * 64 + (b2 - 0x80)]
    else
      var cp := (b0 - 0xF0) * 262144 + (b1 - 0x80) * 4096 + (b2 - 0x80) * 64 + (b3 - 0x80);
      [0xD800 + (cp - 0x10000) / 1024, 0xDC00 + (cp - 0x10000) % 1024]
  }

  /**
   * UTF-8 to UTF-16, as `MultiByteToWideChar` does it for well-formed
   * input; each byte that does not begin a well-formed sequence becomes
   * U+FFFD.
   */
  function Utf8Decode(b: seq<Byte>): (u: WString)
    ensures |u| <= |b|
    ensures |b| > 0 ==> |u| > 0
    decreases |b|
  {
    if |b| == 0 then []
    else
      var n := SequenceLength(b);
      if n == 0 then [0xFFFD] + Utf8Decode(b[1..])
      else SequenceUnits(b) + Utf8Decode(b[n..])
  }

  predicate IsSurrogate(c: WChar) {
    0xD800 <= c <= 0xDFFF
  }

  /** The UTF-8 form of a code point of the Basic Multilingual Plane. */
  function EncodeUnit(c: WChar): (b: seq<Byte>)
    requires !IsSurrogate(c)
    ensures 1 <= |b| <= 3
  {
    if c < 0x80 then [c]
    else if c < 0x800 then [0xC0 + c / 64, 0x80 + c % 64]
    else [0xE0 + c / 4096, 0x80 + (c / 64) % 64, 0x80 + c % 64]
  }

  /** UTF-8 encoding of a string of BMP code points; a lone surrogate cannot be encoded. */
  function Utf8Encode(s: WString): (r: Option<seq<Byte>>)
    ensures r.Some? <==> forall i | 0 <= i < |s| :: !IsSurrogate(s[i])
  {
    if |s| == 0 then Some([])
    else if IsSurrogate(s[0]) then None
    else match Utf8Encode(s[1..])
      case None => None
      case Some(rest) => Some(EncodeUnit(s[0]) + rest)
  }

  lemma DecodeEncodedUnit(c: WChar, rest: seq<Byte>)
    requires !IsSurrogate(c)
    ensures var b := EncodeUnit(c) + rest;
      SequenceLength(b) == |EncodeUnit(c)| && SequenceUnits(b) == [c]
  {
    var e := EncodeUnit(c);
    var b := e + rest;
    if c < 0x80 {
    } else if c < 0x800 {
      assert b[0] == 0xC0 + c / 64 && b[1] == 0x80 + c % 64;
      assert (c / 64) * 64 + c % 64 == c;
    } else {
      var hi, mid, lo := c / 4096, (c / 64) % 64, c % 64;
      assert b[0] == 0xE0 + hi && b[1] == 0x80 + mid && b[2] == 0x80 + lo;
      assert c == hi * 4096 + mid * 64 + lo by {
        assert c == (c / 64) * 64 + lo;
        assert c / 64 == hi * 64 + mid;
      }
      assert hi == 0 ==> mid >= 32;
      assert hi == 13 ==> mid < 32;
    }
  }

  /** Decoding what was encoded gives back the string. */
  lemma {:induction false} Utf8RoundTrip(s: WString)
    requires Utf8Encode(s).Some?
    ensures Utf8Decode(Utf8Encode(s).value) == s
  {
    if |s| > 0 {
      var rest := Utf8Encode(s[1..]).value;
      Utf8RoundTrip(s[1..]);
      var e := EncodeUnit(s[0]);
      DecodeEncodedUnit(s[0], rest);
      assert (e + rest)[|e|..] == rest;
      assert s == [s[0]] + s[1..];
    }
  }

  /**
   * The first line as decoded code units, before its last unit is dropped:
   * `NoLine` when nothing decides the run (no unit decoded, an odd UTF-16
   * length, or a UTF-32 line that `parse_shebang` rejects from the units
   * that were written), `Garbage` when the run would read uninitialised
   * units of a UTF-32 line or bytes past the buffer.
   */
  datatype Header = NoLine | Line(units: WString) | Garbage

  function DecodeHeader(buf: HeadBuffer, start: nat, end: nat, codePage: int): (h: Header)
    requires start <= end
    ensures h.Line? ==> 0 < |h.units| <= end - start && end <= |buf|
  {
    var len := end - start;
    if codePage == CpUtf8 then
      if end > |buf| then Garbage
      else var u := Utf8Decode(buf[start..end]); if |u| == 0 then NoLine else Line(u)
    else if codePage == CpUtf16Be || codePage == CpUtf16Le then
      if len % 2 != 0 || len == 0 then NoLine
      else if end > |buf| then Garbage
      else if codePage == CpUtf16Be then Line(Utf16Be(buf[start..end]))
      else Line(Utf16Le(buf[start..end]))
    else
      if len % 4 != 0 || len < 4 then NoLine
      else if end > |buf| then Garbage
      else Utf32Header(Utf32Units(buf[start..end], codePage == CpUtf32Be))
  }

  /**
   * A UTF-32 line of the written `units`: `parse_shebang` rejects it from
   * them unless they start `#!`, and after `#!` only a NUL reached over
   * white space within them keeps it from the unwritten units.
   */
  function Utf32Header(units: WString): (h: Header)
    ensures !h.Line?
  {
    if |units| < 2 || units[0] != '#' as int || units[1] != '!' as int then NoLine
    else
      var k := SkipWs(units, 2);
      if k < |units| && units[k] == Nul then NoLine else Garbage
  }

  /**
   * The units the UTF-32 loops of `maybe_handle_shebang` write: one per four
   * header bytes, the low 16 bits of the code point, big- or little-endian.
   */
  function Utf32Units(bytes: seq<Byte>, bigEndian: bool): (units: WString)
    requires |bytes| % 4 == 0
    ensures |units| == |bytes| / 4
    ensures forall k | 0 <= k < |units| ::
      units[k] == if bigEndian then bytes[4 * k + 2] as int * 256 + bytes[4 * k + 3] as int else bytes[4 * k + 1] as int * 256 + bytes[4 * k] as int
  {
    seq(|bytes| / 4, k requires 0 <= k < |bytes| / 4 =>
      if bigEndian then bytes[4 * k + 2] as int * 256 + bytes[4 * k + 3] as int else bytes[4 * k + 1] as int * 256 + bytes[4 * k] as int)
  }

  /**
   * The `shebang_line` buffer after a UTF-32 conversion of `n` units: `nchars`
   * is set to `2n` (bytes over `sizeof(wchar_t)`), so units `0..n-1` hold the
   * line, units `n..2n-2` are never written (`None`) and unit `2n-1` is the NUL
   * of `shebang_line[--nchars]`.
   */
  function Utf32ShebangBuffer(units: WString): (line: seq<Option<WChar>>)
    requires |units| > 0
    ensures |line| == 2 * |units|
  {
    seq(2 * |units|, i requires 0 <= i < 2 * |units| =>
      if i < |units| then Some(units[i]) else if i == 2 * |units| - 1 then Some(Nul) else None)
  }

  /** `skip_whitespace` (or the windowed launcher's loop) over a buffer with unwritten cells: it stops at one of them. */
  function SkipWsCells(line: seq<Option<WChar>>, i: nat): (k: nat)
    requires i <= |line|
    ensures i <= k <= |line|
    ensures forall j | i <= j < k :: line[j].Some? && IsSpace(line[j].value)
    ensures k == |line| || line[k].None? || !IsSpace(line[k].value)
    decreases |line| - i
  {
    if i == |line| || line[i].None? || !IsSpace(line[i].value) then i else SkipWsCells(line, i + 1)
  }

  /**
   * Whether `parse_shebang`, of either launcher, reads a unit that was never
   * written, given the line it is passed (of `nchars + 1` cells): it reads
   * unit 0, then unit 1 when unit 0 is `#`, then skips white space from
   * unit 2 when unit 1 is `!`; a NUL there ends it, anything else leads on
   * to the trailing-space trim, which starts at `endp`, unit `nchars - 1`.
   */
  function ShebangReadsUnwritten(line: seq<Option<WChar>>): bool
    requires |line| >= 2
  {
    if line[0] != Some('#' as int) then line[0].None?
    else if line[1] != Some('!' as int) then line[1].None?
    else
      var k := SkipWsCells(line, 2);
      if k == |line| then false
      else if line[k].None? then true
      else if line[k] == Some(Nul) then false
      else line[|line| - 2].None?
  }

  /** Past the written units, skipping over the cells stops at the first unwritten one, where skipping the units stops at their end. */
  lemma {:induction false} SkipWsCellsOfUtf32(units: WString, i: nat)
    requires 2 <= |units| && i <= |units|
    ensures SkipWsCells(Utf32ShebangBuffer(units), i) == SkipWs(units, i)
    decreases |units| - i
  {
    var line := Utf32ShebangBuffer(units);
    if i < |units| && IsSpace(units[i]) {
      assert line[i] == Some(units[i]);
      SkipWsCellsOfUtf32(units, i + 1);
    } else if i < |units| {
      assert line[i] == Some(units[i]);
    } else {
      assert line[i].None?;
    }
  }

  /**
   * A UTF-32 line is `Garbage` exactly when `parse_shebang` reads a unit the
   * conversion never wrote, and `NoLine` otherwise: the launcher then goes
   * on as for a script without a shebang.
   */
  lemma Utf32GarbageIffUnwrittenRead(units: WString)
    requires |units| > 0
    ensures Utf32Header(units) == Garbage <==> ShebangReadsUnwritten(Utf32ShebangBuffer(units))
    ensures Utf32Header(units) == Garbage || Utf32Header(units) == NoLine
  {
    var line := Utf32ShebangBuffer(units);
    var n := |units|;
    assert line[0] == Some(units[0]);
    if n >= 2 {
      assert line[1] == Some(units[1]);
      SkipWsCellsOfUtf32(units, 2);
      var k := SkipWs(units, 2);
      if k < n {
        assert line[k] == Some(units[k]);
      }
      assert line[|line| - 2].None?;
    } else {
      assert line[1] == Some(Nul);
    }
  }

  /** A UTF-32BE script whose first line is "i": no `#`, so nothing unwritten is read and the line decides nothing. */
  lemma Utf32BeLineWithoutShebang(buf: HeadBuffer)
    requires buf[..12] == [0x00, 0x00, 0xFE, 0xFF, 0x00, 0x00, 0x00, 0x69, 0x00, 0x00, 0x00, 0x0A]
    ensures DecodeHeader(buf, 4, 12, CpUtf32Be) == NoLine
  {
    var units := Utf32Units(buf[4..12], true);
    assert buf[4..12][2] == 0 && buf[4..12][3] == 0x69;
    assert units[0] == 0x69;
  }

  /** A UTF-32BE `#!p` line: the white-space skip and the trim reach units the conversion never wrote. */
  lemma Utf32BeShebangIsGarbage(buf: HeadBuffer)
    requires buf[4..20] == [0, 0, 0, 0x23, 0, 0, 0, 0x21, 0, 0, 0, 0x70, 0, 0, 0, 0x0A]
    ensures DecodeHeader(buf, 4, 20, CpUtf32Be) == Garbage
  {
    var units := Utf32Units(buf[4..20], true);
    assert units == ['#' as int, '!' as int, 'p' as int, '\n' as int];
    assert SkipWs(units, 2) == 2;
  }
}
