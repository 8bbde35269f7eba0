/** Text and byte helpers shared by the server (Rust) and the browser client
    (TypeScript) models: prefixes of sequences, prefix tests,
    first-occurrence search, whitespace trimming, ASCII lower-casing,
    decimal formatting and parsing, UTF-8 encoding and hexadecimal
    conversion. Strings are sequences of Unicode
    scalar values. */
module Strings {
  import opened Wrappers

  type byte = b: int | 0 <= b < 256

  const I64_MIN: int := -0x8000_0000_0000_0000
  const I64_MAX: int := 0x7FFF_FFFF_FFFF_FFFF
  const U64_MAX: int := 0xFFFF_FFFF_FFFF_FFFF

  function Min(a: nat, b: nat): nat { if a <= b then a else b }

  /** The first `limit` entries, or all of them (Rust's `iter().take(limit)`,
      JavaScript's `slice(0, limit)`). */
  function Take<T>(window: seq<T>, limit: nat): (r: seq<T>)
    ensures |r| == Min(limit, |window|)
    ensures forall i :: 0 <= i < |r| ==> r[i] == window[i]
  {
    window[..Min(limit, |window|)]
  }

  // ---------------------------------------------------------------------------
  // Prefixes and occurrences
  // ---------------------------------------------------------------------------

  predicate StartsWith<T(==)>(s: seq<T>, p: seq<T>) {
    |p| <= |s| && s[..|p|] == p
  }

  /** `p` occurs in `s` starting at index `i`. */
  predicate OccursAt<T(==)>(s: seq<T>, p: seq<T>, i: int) {
    0 <= i && i + |p| <= |s| && s[i..i + |p|] == p
  }

  predicate Contains<T(==)>(s: seq<T>, p: seq<T>) {
    exists i :: 0 <= i <= |s| - |p| && OccursAt(s, p, i)
  }

  /** The first index at or after `from` where `p` occurs (Rust's `str::find`,
      JavaScript's `indexOf` when `from` is 0). */
  function IndexOfFrom<T(==)>(s: seq<T>, p: seq<T>, from: nat): (r: Option<nat>)
    ensures r.Some? ==> from <= r.value && OccursAt(s, p, r.value)
    ensures r.Some? ==> forall j :: from <= j < r.value ==> !OccursAt(s, p, j)
    ensures r.None? ==> forall j :: from <= j ==> !OccursAt(s, p, j)
    decreases |s| - from
  {
    if from + |p| > |s| then None
    else if s[from..from + |p|] == p then Some(from)
    else IndexOfFrom(s, p, from + 1)
  }

  function IndexOf<T(==)>(s: seq<T>, p: seq<T>): (r: Option<nat>)
    ensures r.Some? <==> Contains(s, p)
    ensures r.Some? ==> OccursAt(s, p, r.value) && forall j :: 0 <= j < r.value ==> !OccursAt(s, p, j)
  {
    IndexOfFrom(s, p, 0)
  }

  /** A first occurrence is recognised from the fact that no earlier index matches. */
  lemma IndexOfIs<T>(s: seq<T>, p: seq<T>, i: nat)
    requires OccursAt(s, p, i)
    requires forall j :: 0 <= j < i ==> !OccursAt(s, p, j)
    ensures IndexOf(s, p) == Some(i)
  {
    assert 0 <= i <= |s| - |p| && OccursAt(s, p, i);
  }

  /** No occurrence of a pattern that starts with `c` can start at a position
      holding another character. */
  lemma NotOccursAtOtherHead<T>(s: seq<T>, p: seq<T>, i: int)
    requires |p| > 0 && 0 <= i < |s| && s[i] != p[0]
    ensures !OccursAt(s, p, i)
  {
    assert i + |p| <= |s| ==> s[i..i + |p|][0] == s[i];
  }

  // ---------------------------------------------------------------------------
  // Whitespace and case
  // ---------------------------------------------------------------------------

  /** Unicode White_Space characters in the space separator category (Zs). */
  predicate IsSpaceSeparator(c: char) {
    c == ' ' || c == '\U{00A0}' || c == '\U{1680}' || ('\U{2000}' <= c <= '\U{200A}')
    || c == '\U{202F}' || c == '\U{205F}' || c == '\U{3000}'
  }

  /** Rust's `char::is_whitespace` (the Unicode White_Space property). */
  predicate IsRustWhitespace(c: char) {
    ('\U{0009}' <= c <= '\U{000D}') || c == '\U{0085}' || c == '\U{2028}' || c == '\U{2029}'
    || IsSpaceSeparator(c)
  }

  /** The characters JavaScript's `String.prototype.trim` removes
      (WhiteSpace and LineTerminator of ECMA-262). */
  predicate IsJsWhitespace(c: char) {
    ('\U{0009}' <= c <= '\U{000D}') || c == '\U{FEFF}' || c == '\U{2028}' || c == '\U{2029}'
    || IsSpaceSeparator(c)
  }

  /** The number of leading characters of `s` satisfying `ws`. */
  function LeadingCount(s: string, ws: char -> bool): (n: nat)
    ensures n <= |s|
    ensures forall k :: 0 <= k < n ==> ws(s[k])
    ensures n < |s| ==> !ws(s[n])
  {
    if |s| > 0 && ws(s[0]) then
      var n := 1 + LeadingCount(s[1..], ws);
      assert forall k :: 1 <= k < n ==> s[k] == s[1..][k - 1];
      n
    else 0
  }

  /** The number of trailing characters of `s` satisfying `ws`. */
  function TrailingCount(s: string, ws: char -> bool): (n: nat)
    ensures n <= |s|
    ensures forall k :: |s| - n <= k < |s| ==> ws(s[k])
    ensures n < |s| ==> !ws(s[|s| - n - 1])
  {
    if |s| > 0 && ws(s[|s| - 1]) then 1 + TrailingCount(s[..|s| - 1], ws) else 0
  }

  function TrimStart(s: string, ws: char -> bool): (r: string)
    ensures |r| > 0 ==> !ws(r[0])
  {
    s[LeadingCount(s, ws)..]
  }

  function TrimEnd(s: string, ws: char -> bool): (r: string)
    ensures |r| > 0 ==> !ws(r[|r| - 1])
  {
    s[..|s| - TrailingCount(s, ws)]
  }

  /** Rust's `str::trim`. */
  function RustTrim(s: string): string {
    TrimEnd(TrimStart(s, IsRustWhitespace), IsRustWhitespace)
  }

  /** JavaScript's `String.prototype.trim`. */
  function JsTrim(s: string): string {
    TrimEnd(TrimStart(s, IsJsWhitespace), IsJsWhitespace)
  }

  /** Trimming a string whose two ends are not whitespace changes nothing. */
  lemma TrimNoop(s: string, ws: char -> bool)
    requires |s| > 0 ==> !ws(s[0]) && !ws(s[|s| - 1])
    ensures TrimEnd(TrimStart(s, ws), ws) == s
  {
  }

  /** Text that begins and ends with a visible ASCII character is its own
      JavaScript trim. */
  lemma JsTrimNoop(s: string)
    requires |s| > 0 ==> '!' <= s[0] <= '~' && '!' <= s[|s| - 1] <= '~'
    ensures JsTrim(s) == s
  {
    if |s| > 0 {
      assert !IsJsWhitespace(s[0]) && !IsJsWhitespace(s[|s| - 1]);
    }
    TrimNoop(s, IsJsWhitespace);
  }

  /** One trailing whitespace character is removed by trimming. */
  lemma TrimTrailing(s: string, c: char, ws: char -> bool)
    requires |s| > 0 && !ws(s[0]) && !ws(s[|s| - 1]) && ws(c)
    ensures TrimEnd(TrimStart(s + [c], ws), ws) == s
  {
    var t := s + [c];
    assert TrimStart(t, ws) == t;
    assert t[..|t| - 1] == s;
  }

  function AsciiLowerChar(c: char): char {
    if 'A' <= c <= 'Z' then (c as int + 32) as char else c
  }

  /** JavaScript's `toLowerCase`, on the ASCII letters. */
  function AsciiLower(s: string): (r: string)
    ensures |r| == |s|
    ensures forall k :: 0 <= k < |s| ==> r[k] == AsciiLowerChar(s[k])
  {
    seq(|s|, k requires 0 <= k < |s| => AsciiLowerChar(s[k]))
  }

  /** Text without upper-case ASCII letters is its own lower case. */
  lemma AsciiLowerNoop(s: string)
    requires forall k :: 0 <= k < |s| ==> !('A' <= s[k] <= 'Z')
    ensures AsciiLower(s) == s
  {
    assert forall k :: 0 <= k < |s| ==> AsciiLower(s)[k] == s[k];
  }

  // ---------------------------------------------------------------------------
  // Decimal numbers
  // ---------------------------------------------------------------------------

  predicate IsDigit(c: char) { '0' <= c <= '9' }

  function DigitChar(d: nat): (c: char)
    requires d < 10
    ensures IsDigit(c) && DigitValue(c) == d
  {
    ('0' as int + d) as char
  }

  function DigitValue(c: char): (d: nat)
    requires IsDigit(c)
    ensures d < 10
  {
    c as int - '0' as int
  }

  /** The value of a run of decimal digits, most significant first. */
  function DigitsValue(s: string): nat
    requires forall k :: 0 <= k < |s| ==> IsDigit(s[k])
  {
    if |s| == 0 then 0
    else DigitsValue(s[..|s| - 1]) * 10 + DigitValue(s[|s| - 1])
  }

  /** Parses a non-empty run of ASCII digits. */
  function ParseDigits(s: string): (r: Option<nat>)
    ensures r.Some? <==> |s| > 0 && forall k :: 0 <= k < |s| ==> IsDigit(s[k])
  {
    if |s| > 0 && forall k :: 0 <= k < |s| ==> IsDigit(s[k]) then Some(DigitsValue(s)) else None
  }

  /** Decimal rendering of a natural number, as Rust's and JavaScript's formatters print it. */
  function NatToString(n: nat): (r: string)
    ensures |r| > 0 && forall k :: 0 <= k < |r| ==> IsDigit(r[k])
  {
    if n < 10 then [DigitChar(n)] else NatToString(n / 10) + [DigitChar(n % 10)]
  }

  /** Decimal rendering of an integer with a leading `-` when negative (Rust's `{}` on `i64`). */
  function IntToString(i: int): (r: string)
    ensures |r| > 0 && (r[0] == '-' || IsDigit(r[0])) && IsDigit(r[|r| - 1])
    ensures forall k :: 0 <= k < |r| ==> r[k] == '-' || IsDigit(r[k])
  {
    if i < 0 then "-" + NatToString(-i) else NatToString(i)
  }

  lemma {:induction false} DigitsOfNat(n: nat)
    ensures DigitsValue(NatToString(n)) == n
    decreases n
  {
    var s := NatToString(n);
    if n >= 10 {
      DigitsOfNat(n / 10);
      assert s[..|s| - 1] == NatToString(n / 10);
    }
  }

  /** Rust's `str::parse::<i64>`: an optional `+` or `-`, then at least one
      digit, and a value within the 64-bit signed range. */
  function ParseI64(s: string): (r: Option<int>)
    ensures r.Some? ==> I64_MIN <= r.value <= I64_MAX
  {
    if |s| > 0 && s[0] == '-' then
      match ParseDigits(s[1..])
      case Some(v) => var n: int := 0 - (v as int); if n >= I64_MIN then Some(n) else None
      case None => None
    else
      var digits := if |s| > 0 && s[0] == '+' then s[1..] else s;
      match ParseDigits(digits)
      case Some(v) => if v <= I64_MAX then Some(v) else None
      case None => None
  }

  /** Rust's `str::parse::<u64>` (and `usize` on a 64-bit target): an optional
      `+`, then at least one digit, and a value below 2^64. */
  function ParseU64(s: string): (r: Option<nat>)
    ensures r.Some? ==> r.value <= U64_MAX
  {
    var digits := if |s| > 0 && s[0] == '+' then s[1..] else s;
    match ParseDigits(digits)
    case Some(v) => if v <= U64_MAX then Some(v) else None
    case None => None
  }

  /** Formatting an `i64` and parsing it back gives the same number. */
  lemma IntToStringParses(i: int)
    requires I64_MIN <= i <= I64_MAX
    ensures ParseI64(IntToString(i)) == Some(i)
  {
    var s := IntToString(i);
    if i < 0 {
      assert s[1..] == NatToString(-i);
      DigitsOfNat(-i);
    } else {
      DigitsOfNat(i);
    }
  }

  // ---------------------------------------------------------------------------
  // UTF-8 and hexadecimal
  // ---------------------------------------------------------------------------

  /** The UTF-8 encoding of one Unicode scalar value (RFC 3629). */
  function Utf8Char(c: char): (r: seq<byte>)
    ensures 1 <= |r| <= 4
    ensures (c as int < 0x80) <==> (|r| == 1 && r[0] == c as int)
  {
    var cp := c as int;
    if cp < 0x80 then [cp]
    else if cp < 0x800 then [0xC0 + cp / 64, 0x80 + cp % 64]
    else if cp < 0x10000 then [0xE0 + cp / 4096, 0x80 + (cp / 64) % 64, 0x80 + cp % 64]
    else [0xF0 + cp / 262144, 0x80 + (cp / 4096) % 64, 0x80 + (cp / 64) % 64, 0x80 + cp % 64]
  }

  /** Rust's `str::as_bytes` and JavaScript's `Buffer.from(s, 'utf8')`. */
  function Utf8(s: string): (r: seq<byte>)
    ensures |r| >= |s|
  {
    if |s| == 0 then [] else Utf8Char(s[0]) + Utf8(s[1..])
  }

  lemma {:induction false} Utf8Append(a: string, b: string)
    ensures Utf8(a + b) == Utf8(a) + Utf8(b)
  {
    if |a| > 0 {
      assert (a + b)[1..] == a[1..] + b;
      Utf8Append(a[1..], b);
    } else {
      assert a + b == b;
    }
  }

  /** An ASCII string encodes to one byte per character, each its code. */
  lemma {:induction false} Utf8Ascii(s: string)
    requires forall k :: 0 <= k < |s| ==> s[k] as int < 0x80
    ensures |Utf8(s)| == |s|
    ensures forall k :: 0 <= k < |s| ==> Utf8(s)[k] == s[k] as int
  {
    if |s| > 0 {
      Utf8Ascii(s[1..]);
    }
  }

  function HexValue(c: char): (r: Option<nat>)
    ensures r.Some? ==> r.value < 16
  {
    if '0' <= c <= '9' then Some(c as int - '0' as int)
    else if 'a' <= c <= 'f' then Some(c as int - 'a' as int + 10)
    else if 'A' <= c <= 'F' then Some(c as int - 'A' as int + 10)
    else None
  }

  predicate IsHexDigit(c: char) { HexValue(c).Some? }

  /** The `hex` crate's `decode`: an even number of hexadecimal digits of
      either case, two per byte; any other input is an error. */
  function HexDecode(s: string): (r: Option<seq<byte>>)
    ensures r.Some? ==> |s| == 2 * |r.value|
    ensures r.Some? <==> |s| % 2 == 0 && forall k :: 0 <= k < |s| ==> IsHexDigit(s[k])
    decreases |s|
  {
    if |s| % 2 == 1 then None
    else if |s| == 0 then Some([])
    else
      match (HexValue(s[0]), HexValue(s[1]))
      case (Some(hi), Some(lo)) =>
        (match HexDecode(s[2..])
         case Some(rest) => Some([hi * 16 + lo] + rest)
         case None => None)
      case _ => None
  }

  function HexDigitLower(d: nat): (c: char)
    requires d < 16
    ensures HexValue(c) == Some(d)
  {
    if d < 10 then ('0' as int + d) as char else ('a' as int + d - 10) as char
  }

  /** Lower-case hexadecimal, two digits per byte (`Buffer.toString('hex')`). */
  function HexEncode(bytes: seq<byte>): (r: string)
    ensures |r| == 2 * |bytes|
    ensures forall k :: 0 <= k < |r| ==> IsHexDigit(r[k]) && !('A' <= r[k] <= 'Z')
  {
    if |bytes| == 0 then ""
    else [HexDigitLower(bytes[0] / 16), HexDigitLower(bytes[0] % 16)] + HexEncode(bytes[1..])
  }

  lemma {:induction false} HexRoundTrip(bytes: seq<byte>)
    ensures HexDecode(HexEncode(bytes)) == Some(bytes)
  {
    if |bytes| > 0 {
      var s := HexEncode(bytes);
      assert s[2..] == HexEncode(bytes[1..]);
      HexRoundTrip(bytes[1..]);
      assert [bytes[0]] + bytes[1..] == bytes;
    }
  }
}
