/**
 * The Python string operations the backend relies on, written out on `seq<char>`:
 * `str.isspace`/`str.strip`, `str.splitlines`, `str.split`, `int(s, base)`,
 * decimal and hexadecimal rendering, `str.zfill`, `str.startswith`, and the
 * ASCII part of `str.isalnum`/`str.lower`/`str.upper`.
 */
module Text {
  import opened Wrappers

  /** Python's `str.isspace` for one character. */
  predicate IsSpace(c: char) {
    if c < '\U{80}' then c == ' ' || ('\t' <= c <= '\r') || ('\U{1C}' <= c <= '\U{1F}')
    else (c == '\U{85}' || c == '\U{A0}' || c == '\U{1680}' || ('\U{2000}' <= c <= '\U{200A}')
      || c == '\U{2028}' || c == '\U{2029}' || c == '\U{202F}' || c == '\U{205F}' || c == '\U{3000}')
  }

  /** The characters at which Python's `str.splitlines` breaks a line ("\r\n" counts once). */
  predicate IsLineBreak(c: char) {
    if c < '\U{80}' then ('\n' <= c <= '\r') || ('\U{1C}' <= c <= '\U{1E}')
    else c == '\U{85}' || c == '\U{2028}' || c == '\U{2029}'
  }

  function StripLeft(s: string): (r: string)
    ensures |r| <= |s| && r == s[|s| - |r|..]
    ensures r == [] || !IsSpace(r[0])
  {
    if |s| > 0 && IsSpace(s[0]) then StripLeft(s[1..]) else s
  }

  function StripRight(s: string): (r: string)
    ensures |r| <= |s| && r == s[..|r|]
    ensures r == [] || !IsSpace(r[|r| - 1])
  {
    if |s| > 0 && IsSpace(s[|s| - 1]) then StripRight(s[..|s| - 1]) else s
  }

  /** Python's `str.strip()` with no argument. */
  function Strip(s: string): (r: string)
    ensures r == [] || (!IsSpace(r[0]) && !IsSpace(r[|r| - 1]))
  {
    var l := StripLeft(s);
    var r := StripRight(l);
    assert r == [] || r[0] == l[0];
    r
  }

  /** A string with no leading or trailing whitespace is its own `strip()`. */
  lemma StripOfTrimmed(s: string)
    requires s == [] || (!IsSpace(s[0]) && !IsSpace(s[|s| - 1]))
    ensures Strip(s) == s
  {
  }

  /** The index of the first occurrence of `c` in `s`, or `|s|` when there is none. */
  function IndexOf(s: string, c: char): (i: nat)
    ensures i <= |s|
    ensures i < |s| ==> s[i] == c
    ensures forall k :: 0 <= k < i ==> s[k] != c
  {
    if |s| == 0 then 0 else if s[0] == c then 0 else 1 + IndexOf(s[1..], c)
  }

  lemma {:induction false} IndexOfAppend(a: string, c: char, b: string)
    requires forall k :: 0 <= k < |a| ==> a[k] != c
    ensures IndexOf(a + [c] + b, c) == |a|
  {
    if |a| > 0 {
      assert (a + [c] + b)[1..] == a[1..] + [c] + b;
      IndexOfAppend(a[1..], c, b);
    }
  }

  /** Python's `s.split(sep)` on a one-character separator: always at least one piece. */
  function Split(s: string, sep: char): (r: seq<string>)
    ensures |r| >= 1
    decreases |s|
  {
    var i := IndexOf(s, sep);
    if i == |s| then [s] else [s[..i]] + Split(s[i + 1..], sep)
  }

  lemma SplitJoin(a: string, sep: char, b: string)
    requires forall k :: 0 <= k < |a| ==> a[k] != sep
    ensures Split(a + [sep] + b, sep) == [a] + Split(b, sep)
  {
    IndexOfAppend(a, sep, b);
    var s := a + [sep] + b;
    assert s[..|a|] == a;
    assert s[|a| + 1..] == b;
  }

  lemma SplitNone(a: string, sep: char)
    requires forall k :: 0 <= k < |a| ==> a[k] != sep
    ensures Split(a, sep) == [a]
  {
  }

  /** Python's `str.splitlines()`: no trailing empty piece, "\r\n" is one break. */
  function SplitLines(s: string): (r: seq<string>)
    ensures forall k, j :: 0 <= k < |r| && 0 <= j < |r[k]| ==> !IsLineBreak(r[k][j])
    decreases |s|
  {
    var i := FirstLineBreak(s);
    if i == |s| then (if s == [] then [] else [s])
    else
      var skip := if s[i] == '\r' && i + 1 < |s| && s[i + 1] == '\n' then 2 else 1;
      [s[..i]] + SplitLines(s[i + skip..])
  }

  function FirstLineBreak(s: string): (i: nat)
    ensures i <= |s|
    ensures i < |s| ==> IsLineBreak(s[i])
    ensures forall k :: 0 <= k < i ==> !IsLineBreak(s[k])
  {
    if |s| == 0 then 0 else if IsLineBreak(s[0]) then 0 else 1 + FirstLineBreak(s[1..])
  }

  lemma SplitLinesSingle(s: string)
    requires s != []
    requires forall k :: 0 <= k < |s| ==> !IsLineBreak(s[k])
    ensures SplitLines(s) == [s]
  {
  }

  /** Python's `s.lstrip(c)` for one character. */
  function LStripChar(s: string, c: char): (r: string)
    ensures |r| <= |s| && r == s[|s| - |r|..]
    ensures r == [] || r[0] != c
  {
    if |s| > 0 && s[0] == c then LStripChar(s[1..], c) else s
  }

  predicate StartsWith(s: string, prefix: string) {
    |prefix| <= |s| && s[..|prefix|] == prefix
  }

  // ---------------------------------------------------------------------
  // Digits, `int(s, base)` and rendering

  predicate IsDecimalDigit(c: char) { '0' <= c <= '9' }

  predicate IsDigitIn(c: char, base: nat) {
    if base == 16 then IsDecimalDigit(c) || ('a' <= c <= 'f') || ('A' <= c <= 'F')
    else IsDecimalDigit(c)
  }

  function DigitValue(c: char): (v: nat)
    requires IsDigitIn(c, 16)
    ensures v < 16
    ensures IsDecimalDigit(c) ==> v < 10
  {
    if IsDecimalDigit(c) then c as nat - '0' as nat
    else if 'a' <= c <= 'f' then c as nat - 'a' as nat + 10
    else c as nat - 'A' as nat + 10
  }

  predicate AllDigits(s: string, base: nat) {
    forall k :: 0 <= k < |s| ==> IsDigitIn(s[k], base)
  }

  /** The value of a string of digits, most significant first. */
  function DigitsValue(s: string, base: nat): (v: nat)
    requires base == 10 || base == 16
    requires AllDigits(s, base)
  {
    if |s| == 0 then 0 else DigitsValue(s[..|s| - 1], base) * base + DigitValue(s[|s| - 1])
  }

  /**
   * The digit body Python's `int` accepts: digits, with single underscores allowed
   * only between two digits.
   */
  predicate ValidBody(s: string, base: nat)
    decreases |s|
  {
    |s| > 0 && IsDigitIn(s[0], base)
    && (|s| == 1 || (if s[1] == '_' then ValidBody(s[2..], base) else ValidBody(s[1..], base)))
  }

  /** The digits of a valid body, underscores removed. */
  function BodyDigits(s: string, base: nat): (r: string)
    requires ValidBody(s, base)
    ensures AllDigits(r, base)
    decreases |s|
  {
    [s[0]] + (if |s| == 1 then [] else if s[1] == '_' then BodyDigits(s[2..], base) else BodyDigits(s[1..], base))
  }

  lemma {:induction false} PlainDigitsBody(s: string, base: nat)
    requires |s| > 0 && AllDigits(s, base)
    ensures ValidBody(s, base) && BodyDigits(s, base) == s
    decreases |s|
  {
    if |s| > 1 {
      PlainDigitsBody(s[1..], base);
    }
  }

  /** The sign Python's `int` accepts in front of the digits: (negative, rest). */
  function SplitSign(t: string): (string, bool) {
    if |t| > 0 && (t[0] == '-' || t[0] == '+') then (t[1..], t[0] == '-') else (t, false)
  }

  /** For base 16, the optional `0x`/`0X` prefix, which one underscore may follow. */
  function DropRadixPrefix(u: string, base: nat): string {
    if base == 16 && |u| >= 2 && u[0] == '0' && (u[1] == 'x' || u[1] == 'X') then
      (if |u| > 2 && u[2] == '_' then u[3..] else u[2..])
    else u
  }

  /**
   * U+001C..U+001F: whitespace to `str.isspace` and `str.strip`, but CPython's `int` skips
   * only the space and `\t`..`\r` below U+0080, and none of the four is a digit, a sign or
   * an underscore, so `int` raises on a text holding one anywhere.
   */
  predicate IsInfoSeparator(c: char) {
    '\U{1C}' <= c <= '\U{1F}'
  }

  /** Some character of `s` is one of U+001C..U+001F. */
  predicate HasInfoSeparator(s: string) {
    |s| > 0 && (IsInfoSeparator(s[0]) || HasInfoSeparator(s[1..]))
  }

  /**
   * CPython's default `sys.int_max_str_digits` (Python 3.11 and later, and the security
   * releases before it): `int` refuses a text in a base that is not a power of two whose
   * digits, leading zeros counted and underscores not, are more than this many.
   */
  const MaxStrDigits: nat := 4300

  /** A valid body that `int` refuses for its length. */
  predicate TooManyDigits(body: string, base: nat)
    requires ValidBody(body, base)
  {
    base == 10 && |BodyDigits(body, base)| > MaxStrDigits
  }

  /** Python's `int(s, base)` for base 10 or 16: `None` where Python raises ValueError. */
  function ParseInt(s: string, base: nat): (r: Option<int>)
    requires base == 10 || base == 16
    ensures HasInfoSeparator(s) ==> r.None?
  {
    var (u, neg) := SplitSign(Strip(s));
    var body := DropRadixPrefix(u, base);
    if ValidBody(body, base) && !HasInfoSeparator(s) && !TooManyDigits(body, base) then
      var v := DigitsValue(BodyDigits(body, base), base);
      var signed := if neg then -(v as int) else v as int;
      Some(signed)
    else None
  }

  /** U+001F is whitespace to `str.strip` yet `int` refuses it: `int("\x1fA", 16)` raises. */
  lemma IntRefusesInfoSeparator()
    ensures IsSpace('\U{1F}') && Strip("\U{1F}A") == "A"
    ensures ParseInt("\U{1F}A", 16) == None
  {
    var a := "\U{1F}A";
    assert HasInfoSeparator(a);
    assert a[1..] == "A";
    assert !IsSpace("A"[0]);
    assert StripLeft("A") == "A";
    assert StripLeft(a) == "A";
    assert StripRight("A") == "A";
  }

  /** `int` skips ASCII whitespace on both sides of the digits: `int(" A\n", 16) == 10`. */
  lemma IntSkipsSpaces()
    ensures ParseInt(" A\n", 16) == Some(10)
  {
    var a := " A\n";
    var b := "A\n";
    assert a[1..] == b;
    assert !IsSpace(b[0]);
    assert StripLeft(b) == b;
    assert StripLeft(a) == b;
    assert b[..1] == "A";
    assert StripRight("A") == "A";
    assert StripRight(b) == "A";
    assert a[1..][1..][1..] == [];
    assert !HasInfoSeparator(a);
    ParsePlainDigits("A", 16);
    assert "A"[..0] == [];
  }

  /** A digit string holds none of U+001C..U+001F. */
  lemma {:induction false} DigitsHaveNoSeparator(s: string, base: nat)
    requires AllDigits(s, base)
    ensures !HasInfoSeparator(s)
  {
    if |s| > 0 {
      assert IsDigitIn(s[0], base);
      assert AllDigits(s[1..], base) by {
        forall k | 0 <= k < |s[1..]| ensures IsDigitIn(s[1..][k], base) { assert s[1..][k] == s[k + 1]; }
      }
      DigitsHaveNoSeparator(s[1..], base);
    }
  }

  /** A trimmed, unsigned, underscore-free digit string parses to its own value. */
  lemma ParsePlainDigits(s: string, base: nat)
    requires base == 10 || base == 16
    requires |s| > 0 && AllDigits(s, base)
    requires base == 10 ==> |s| <= MaxStrDigits
    requires base == 16 ==> !(|s| >= 2 && s[0] == '0' && (s[1] == 'x' || s[1] == 'X'))
    ensures ParseInt(s, base) == Some(DigitsValue(s, base))
  {
    assert !IsSpace(s[0]) && !IsSpace(s[|s| - 1]);
    StripOfTrimmed(s);
    DigitsHaveNoSeparator(s, base);
    assert SplitSign(s) == (s, false);
    assert DropRadixPrefix(s, base) == s;
    PlainDigitsBody(s, base);
  }

  /**
   * A decimal digit string longer than the limit is refused whatever its value, while a
   * hexadecimal one of any length is read.
   */
  lemma LongDecimalRefused(s: string)
    requires |s| > MaxStrDigits && AllDigits(s, 10)
    ensures ParseInt(s, 10).None?
    ensures AllDigits(s, 16) && ParseInt(s, 16) == Some(DigitsValue(s, 16))
  {
    LongDecimalBody(s);
    DecimalDigitsAreHex(s);
    ParsePlainDigits(s, 16);
  }

  lemma LongDecimalBody(s: string)
    requires |s| > MaxStrDigits && AllDigits(s, 10)
    ensures ParseInt(s, 10).None?
  {
    var body := DropRadixPrefix(SplitSign(Strip(s)).0, 10);
    assert !IsSpace(s[0]) && !IsSpace(s[|s| - 1]);
    StripOfTrimmed(s);
    assert SplitSign(s) == (s, false);
    assert body == s;
    PlainDigitsBody(s, 10);
    assert TooManyDigits(body, 10);
  }

  lemma DecimalDigitsAreHex(s: string)
    requires |s| > 1 && AllDigits(s, 10)
    ensures AllDigits(s, 16) && !(s[0] == '0' && (s[1] == 'x' || s[1] == 'X'))
  {
    forall k | 0 <= k < |s| ensures IsDigitIn(s[k], 16) {
      assert IsDigitIn(s[k], 10);
    }
    assert IsDigitIn(s[1], 10);
  }

  function DecimalDigitChar(d: nat): (c: char)
    requires d < 10
    ensures IsDecimalDigit(c) && DigitValue(c) == d
  {
    ('0' as nat + d) as char
  }

  function HexDigitChar(d: nat): (c: char)
    requires d < 16
    ensures IsDigitIn(c, 16) && DigitValue(c) == d
    ensures c != 'x' && c != 'X' && c != '_' && c != '#' && c != ',' && c != ':'
  {
    if d < 10 then DecimalDigitChar(d) else ('A' as nat + (d - 10)) as char
  }

  /** Python's `str(n)` for a non-negative integer. */
  function NatToString(n: nat): (s: string)
    ensures |s| > 0 && AllDigits(s, 10)
    ensures forall k :: 0 <= k < |s| ==> IsDecimalDigit(s[k])
  {
    if n < 10 then [DecimalDigitChar(n)] else NatToString(n / 10) + [DecimalDigitChar(n % 10)]
  }

  lemma {:induction false} NatToStringValue(n: nat)
    ensures DigitsValue(NatToString(n), 10) == n
  {
    var s := NatToString(n);
    if n >= 10 {
      NatToStringValue(n / 10);
      assert s[..|s| - 1] == NatToString(n / 10);
    }
  }

  /** Numbers below 1000 render in three digits at most. */
  lemma NatToStringShort(n: nat)
    requires n < 1000
    ensures |NatToString(n)| <= 3
  {
    if n >= 10 {
      assert |NatToString(n / 10)| <= 2 by {
        if n / 10 >= 10 {
          assert |NatToString(n / 10 / 10)| == 1;
        }
      }
    }
  }

  /** Rendering followed by `int(_, 10)` gives the number back, within the digit limit. */
  lemma NatToStringParses(n: nat)
    requires |NatToString(n)| <= MaxStrDigits
    ensures ParseInt(NatToString(n), 10) == Some(n)
  {
    ParsePlainDigits(NatToString(n), 10);
    NatToStringValue(n);
  }

  /** Two upper-case hexadecimal digits of a byte, as `"%02X"` renders it. */
  function HexByte(v: nat): (s: string)
    requires v < 256
    ensures |s| == 2 && AllDigits(s, 16) && s[1] != 'x' && s[1] != 'X'
    ensures DigitValue(s[0]) * 16 + DigitValue(s[1]) == v
  {
    [HexDigitChar(v / 16), HexDigitChar(v % 16)]
  }

  lemma DigitsValuePair(a: char, b: char)
    requires IsDigitIn(a, 16) && IsDigitIn(b, 16)
    ensures DigitsValue([a, b], 16) == DigitValue(a) * 16 + DigitValue(b)
  {
    var s := [a, b];
    assert s[..|s| - 1] == [a];
    assert [a][..|[a]| - 1] == [];
    assert DigitsValue([a], 16) == DigitValue(a);
  }

  /** Two hexadecimal digits, the second not an `x`, parse to their value. */
  lemma HexPairParses(a: char, b: char)
    requires IsDigitIn(a, 16) && IsDigitIn(b, 16) && b != 'x' && b != 'X'
    ensures ParseInt([a, b], 16) == Some(DigitValue(a) * 16 + DigitValue(b))
  {
    calc {
      ParseInt([a, b], 16);
      == { ParsePlainDigits([a, b], 16); }
      Some(DigitsValue([a, b], 16));
      == { DigitsValuePair(a, b); }
      Some(DigitValue(a) * 16 + DigitValue(b));
    }
  }

  /** Rendering followed by `int(_, 16)` gives the byte back. */
  lemma HexByteParses(v: nat)
    requires v < 256
    ensures ParseInt(HexByte(v), 16) == Some(v)
  {
    TwoHexDigitsParse(HexByte(v), v);
  }

  lemma TwoHexDigitsParse(s: string, v: nat)
    requires |s| == 2 && AllDigits(s, 16) && s[1] != 'x' && s[1] != 'X'
    requires DigitValue(s[0]) * 16 + DigitValue(s[1]) == v
    ensures ParseInt(s, 16) == Some(v)
  {
    TwoHexDigitsValue(s, v);
    ParsePlainDigits(s, 16);
  }

  lemma TwoHexDigitsValue(s: string, v: nat)
    requires |s| == 2 && AllDigits(s, 16)
    requires DigitValue(s[0]) * 16 + DigitValue(s[1]) == v
    ensures DigitsValue(s, 16) == v
  {
    assert s == [s[0], s[1]];
    DigitsValuePair(s[0], s[1]);
  }

  // ---------------------------------------------------------------------
  // Padding and ASCII case

  function Repeat(c: char, n: nat): (r: string)
    ensures |r| == n && forall k :: 0 <= k < n ==> r[k] == c
  {
    if n == 0 then [] else [c] + Repeat(c, n - 1)
  }

  /** Python's `str.zfill(width)`: zeros go after a leading sign. */
  function ZFill(s: string, width: nat): (r: string)
    ensures |r| == if |s| >= width then |s| else width
    ensures |s| >= width ==> r == s
  {
    if |s| >= width then s
    else if |s| > 0 && (s[0] == '+' || s[0] == '-') then [s[0]] + Repeat('0', width - |s|) + s[1..]
    else Repeat('0', width - |s|) + s
  }

  predicate IsAsciiAlnum(c: char) {
    ('a' <= c <= 'z') || ('A' <= c <= 'Z') || IsDecimalDigit(c)
  }

  function LowerChar(c: char): (r: char)
    ensures 'A' <= c <= 'Z' ==> 'a' <= r <= 'z'
    ensures !('A' <= c <= 'Z') ==> r == c
  {
    if 'A' <= c <= 'Z' then (c as int + 32) as char else c
  }

  function UpperChar(c: char): (r: char)
    ensures 'a' <= c <= 'z' ==> 'A' <= r <= 'Z'
    ensures !('a' <= c <= 'z') ==> r == c
  {
    if 'a' <= c <= 'z' then (c as int - 32) as char else c
  }

  /** `str.lower()` on the ASCII letters; every other character is kept. */
  function Lower(s: string): (r: string)
    ensures |r| == |s| && forall k :: 0 <= k < |s| ==> r[k] == LowerChar(s[k])
  {
    if |s| == 0 then [] else [LowerChar(s[0])] + Lower(s[1..])
  }

  /** `str.upper()` on the ASCII letters; every other character is kept. */
  function Upper(s: string): (r: string)
    ensures |r| == |s| && forall k :: 0 <= k < |s| ==> r[k] == UpperChar(s[k])
  {
    if |s| == 0 then [] else [UpperChar(s[0])] + Upper(s[1..])
  }
}
