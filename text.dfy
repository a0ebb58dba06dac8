/**
 * Text helpers shared by the readers and the writers: the whitespace classes of
 * Python and Rust, `str.strip()` / `str::trim()`, and the decimal rendering of
 * integers (Python's `str(int)` / `format`, Rust's `to_string`) with its inverse.
 */
module Text {
  import opened Wrappers

  predicate IsDigit(c: char) {
    '0' <= c <= '9'
  }

  /** Rust's `char::is_whitespace`: the Unicode White_Space property. */
  predicate IsRustSpace(c: char) {
    var u := c as int;
    (9 <= u <= 13) || u == 32 || u == 0x85 || u == 0xA0 || u == 0x1680
    || (0x2000 <= u <= 0x200A) || u == 0x2028 || u == 0x2029 || u == 0x202F
    || u == 0x205F || u == 0x3000
  }

  /**
   * Python's `str.isspace()`, which is also what the regex class `\s` accepts on
   * `str` patterns: White_Space plus the separators U+001C..U+001F.
   */
  predicate IsPySpace(c: char) {
    IsRustSpace(c) || (0x1C <= c as int <= 0x1F)
  }

  predicate AllDigits(s: string) {
    forall k :: 0 <= k < |s| ==> IsDigit(s[k])
  }

  /** Removes the leading characters that `isSpace` accepts. */
  function TrimStart(s: string, isSpace: char -> bool): string {
    if s != [] && isSpace(s[0]) then TrimStart(s[1..], isSpace) else s
  }

  /** Removes the trailing characters that `isSpace` accepts. */
  function TrimEnd(s: string, isSpace: char -> bool): string {
    if s != [] && isSpace(s[|s| - 1]) then TrimEnd(s[..|s| - 1], isSpace) else s
  }

  /**
   * Trimming the start drops exactly a run of leading spaces: what is left is a
   * suffix that is empty or starts with a non-space.
   */
  lemma {:induction false} TrimStartSpec(s: string, isSpace: char -> bool)
    ensures var r := TrimStart(s, isSpace);
      && |r| <= |s| && r == s[|s| - |r|..]
      && (forall k :: 0 <= k < |s| - |r| ==> isSpace(s[k]))
      && (r != [] ==> !isSpace(r[0]))
  {
    if s != [] && isSpace(s[0]) {
      var t := s[1..];
      TrimStartSpec(t, isSpace);
      var r := TrimStart(t, isSpace);
      assert t[|t| - |r|..] == s[|s| - |r|..];
      forall k | 1 <= k < |s| - |r| ensures isSpace(s[k]) {
        assert s[k] == t[k - 1];
      }
    }
  }

  /**
   * Trimming the end drops exactly a run of trailing spaces: what is left is a
   * prefix that is empty or ends with a non-space.
   */
  lemma {:induction false} TrimEndSpec(s: string, isSpace: char -> bool)
    ensures var r := TrimEnd(s, isSpace);
      && |r| <= |s| && r == s[..|r|]
      && (forall k :: |r| <= k < |s| ==> isSpace(s[k]))
      && (r != [] ==> !isSpace(r[|r| - 1]))
  {
    if s != [] && isSpace(s[|s| - 1]) {
      TrimEndSpec(s[..|s| - 1], isSpace);
    }
  }

  /** Python's `str.strip()` with no argument. */
  function Strip(s: string): string {
    TrimEnd(TrimStart(s, IsPySpace), IsPySpace)
  }

  /** Rust's `str::trim()`. */
  function Trim(s: string): string {
    TrimEnd(TrimStart(s, IsRustSpace), IsRustSpace)
  }

  /** Every line stripped: `[line.strip() for line in lines]`. */
  function StripAll(lines: seq<string>): (t: seq<string>)
    ensures |t| == |lines|
    ensures forall k {:trigger Strip(lines[k])} :: 0 <= k < |lines| ==> t[k] == Strip(lines[k])
  {
    if lines == [] then []
    else
      var rest := StripAll(lines[1..]);
      assert forall k :: 1 <= k < |lines| ==> lines[1..][k - 1] == lines[k];
      [Strip(lines[0])] + rest
  }

  /** A text with no surrounding whitespace strips to itself. */
  lemma StripNoSpace(s: string)
    requires s != [] ==> !IsPySpace(s[0]) && !IsPySpace(s[|s| - 1])
    ensures Strip(s) == s
  {
  }

  /** A text with no surrounding whitespace trims to itself. */
  lemma TrimNoSpace(s: string)
    requires s != [] ==> !IsRustSpace(s[0]) && !IsRustSpace(s[|s| - 1])
    ensures Trim(s) == s
  {
  }

  function DigitChar(d: nat): (c: char)
    requires d < 10
    ensures IsDigit(c) && c as int - '0' as int == d
  {
    ('0' as int + d) as char
  }

  /** The value of a string of decimal digits. */
  function DigitsValue(s: string): nat
    requires AllDigits(s)
  {
    if s == [] then 0
    else DigitsValue(s[..|s| - 1]) * 10 + (s[|s| - 1] as int - '0' as int)
  }

  /** Python's `str(n)` / `format(n)` and Rust's `n.to_string()` for a natural number. */
  function NatToString(n: nat): (r: string)
    ensures |r| >= 1 && AllDigits(r)
    ensures |r| > 1 ==> r[0] != '0'
  {
    if n < 10 then [DigitChar(n)] else NatToString(n / 10) + [DigitChar(n % 10)]
  }

  /** Reading the decimal rendering back gives the number. */
  lemma {:induction false} NatToStringRoundTrip(n: nat)
    ensures DigitsValue(NatToString(n)) == n
  {
    if n >= 10 {
      NatToStringRoundTrip(n / 10);
      var s := NatToString(n);
      assert s[..|s| - 1] == NatToString(n / 10);
    }
  }

  lemma NatToStringInjective(a: nat, b: nat)
    requires NatToString(a) == NatToString(b)
    ensures a == b
  {
    NatToStringRoundTrip(a);
    NatToStringRoundTrip(b);
  }

  /** `str(i)` / `i.to_string()` for any integer. */
  function IntToString(i: int): (r: string)
    ensures r != []
    ensures forall k :: 0 <= k < |r| ==> IsDigit(r[k]) || (k == 0 && r[k] == '-')
  {
    if i < 0 then "-" + NatToString(-i) else NatToString(i)
  }

  lemma IntToStringInjective(a: int, b: int)
    requires IntToString(a) == IntToString(b)
    ensures a == b
  {
    if a < 0 && b < 0 {
      assert NatToString(-a) == IntToString(a)[1..];
      NatToStringInjective(-a, -b);
    } else if a >= 0 && b >= 0 {
      NatToStringInjective(a, b);
    }
  }

  const I32Min: int := -0x8000_0000
  const I32Max: int := 0x7FFF_FFFF

  /**
   * Rust's `str::parse::<i32>()`: an optional `+` or `-`, then one or more ASCII
   * digits, and a value in the 32-bit range; anything else is an error.
   */
  function ParseI32(s: string): (r: Option<int>)
    ensures r.Some? ==> I32Min <= r.value <= I32Max
  {
    if s == [] then None
    else
      var neg := s[0] == '-';
      var digits := if s[0] == '-' || s[0] == '+' then s[1..] else s;
      if digits == [] || !AllDigits(digits) then None
      else
        var v: int := if neg then -(DigitsValue(digits) as int) else DigitsValue(digits);
        if I32Min <= v <= I32Max then Some(v) else None
  }

  /** Every 32-bit integer is read back from its own rendering. */
  lemma ParseI32OfIntToString(i: int)
    requires I32Min <= i <= I32Max
    ensures ParseI32(IntToString(i)) == Some(i)
  {
    if i < 0 {
      NatToStringRoundTrip(-i);
      assert IntToString(i)[1..] == NatToString(-i);
    } else {
      NatToStringRoundTrip(i);
    }
  }

  /** Python's `sep.join(parts)`. */
  function Join(sep: string, parts: seq<string>): (r: string)
    ensures parts == [] ==> r == []
  {
    if parts == [] then []
    else if |parts| == 1 then parts[0]
    else parts[0] + sep + Join(sep, parts[1..])
  }
}
