/**
 * The .NET `int` (System.Int32): its range, unchecked (wrapping) addition, and the
 * decimal text forms produced by `int.ToString()` and accepted by `int.Parse`.
 */
module Int32 {
  import opened Wrappers

  const MinValue: int := -0x8000_0000
  const MaxValue: int := 0x7FFF_FFFF
  const Modulus: int := 0x1_0000_0000

  type int32 = x: int | MinValue <= x <= MaxValue

  /** Addition in C#'s default unchecked context: the exact sum reduced into the Int32 range mod 2^32. */
  function WrapAdd(a: int32, b: int32): (r: int32)
    ensures (r - (a + b)) % Modulus == 0
    ensures MinValue <= a + b <= MaxValue ==> r == a + b
  {
    var s := (a + b - MinValue) % Modulus + MinValue;
    assert (s - (a + b)) % Modulus == 0;
    s
  }

  // ---------------------------------------------------------------------------
  // Decimal formatting, as `int.ToString()` writes it (no group separators).

  function DigitChar(d: nat): (c: char)
    requires d < 10
  {
    (48 + d) as char
  }

  predicate IsDigit(c: char) {
    '0' <= c <= '9'
  }

  function DigitValue(c: char): (d: nat)
    requires IsDigit(c)
    ensures d < 10
  {
    c as int - 48
  }

  predicate AllDigits(s: string) {
    forall i :: 0 <= i < |s| ==> IsDigit(s[i])
  }

  /** The shortest decimal digit string of `n` (no leading zeros, "0" for zero). */
  function Digits(n: nat): (s: string)
    ensures |s| > 0 && AllDigits(s)
    ensures n >= 10 ==> s[0] != '0'
    ensures n < 10 <==> |s| == 1
  {
    if n < 10 then [DigitChar(n)] else Digits(n / 10) + [DigitChar(n % 10)]
  }

  function ToString(n: int): string {
    if n < 0 then "-" + Digits(-n) else Digits(n)
  }

  // ---------------------------------------------------------------------------
  // Parsing, as `int.Parse(s)` with NumberStyles.Integer: optional white space
  // (U+0009..U+000D, U+0020) on both ends, an optional leading '+' or '-', then
  // one or more ASCII digits. Anything else is a FormatException; a value outside
  // the Int32 range is an OverflowException.

  datatype ParseError = FormatError | OverflowError

  predicate IsNumberWhite(c: char) {
    c == ' ' || '\t' <= c <= '\r'
  }

  function TrimStart(s: string): (t: string)
    ensures |t| <= |s| && t == s[|s| - |t|..]
    ensures t != [] ==> !IsNumberWhite(t[0])
  {
    if s != [] && IsNumberWhite(s[0]) then TrimStart(s[1..]) else s
  }

  function TrimEnd(s: string): (t: string)
    ensures |t| <= |s| && t == s[..|t|]
    ensures t != [] ==> !IsNumberWhite(t[|t| - 1])
  {
    if s != [] && IsNumberWhite(s[|s| - 1]) then TrimEnd(s[..|s| - 1]) else s
  }

  /** The value of a non-empty digit string, read most significant digit first. */
  function DigitsValue(s: string): nat
    requires AllDigits(s)
  {
    if s == [] then 0 else 10 * DigitsValue(s[..|s| - 1]) + DigitValue(s[|s| - 1])
  }

  function Parse(s: string): Result<int32, ParseError> {
    ParseTrimmed(TrimEnd(TrimStart(s)))
  }

  /** `int.Parse` once the surrounding white space is gone: a sign, then digits. */
  function ParseTrimmed(t: string): Result<int32, ParseError> {
    if t == [] then Err(FormatError)
    else if t[0] == '-' then ParseMagnitude(true, t[1..])
    else if t[0] == '+' then ParseMagnitude(false, t[1..])
    else ParseMagnitude(false, t)
  }

  function ParseMagnitude(negative: bool, body: string): Result<int32, ParseError> {
    if body == [] || !AllDigits(body) then Err(FormatError)
    else
      var v := if negative then -(DigitsValue(body) as int) else DigitsValue(body) as int;
      if MinValue <= v <= MaxValue then Ok(v) else Err(OverflowError)
  }

  lemma {:induction false} DigitsValueOfDigits(n: nat)
    ensures DigitsValue(Digits(n)) == n
  {
    if n >= 10 {
      var s := Digits(n);
      DigitsValueOfDigits(n / 10);
      assert s[..|s| - 1] == Digits(n / 10);
    }
  }

  lemma TrimmedText(s: string)
    requires s != [] && !IsNumberWhite(s[0]) && !IsNumberWhite(s[|s| - 1])
    ensures TrimEnd(TrimStart(s)) == s
  {
  }

  /** `int.Parse` reads back exactly what `int.ToString()` wrote. */
  lemma ParseToString(n: int32)
    ensures Parse(ToString(n)) == Ok(n)
  {
    var s := ToString(n);
    var a: nat := if n < 0 then -(n as int) else n as int;
    var d := Digits(a);
    assert IsDigit(d[0]) && IsDigit(d[|d| - 1]);
    DigitsValueOfDigits(a);
    assert ParseMagnitude(n < 0, d) == Ok(n);
    if n < 0 {
      assert s == "-" + d;
      assert s[1..] == d;
      assert ParseTrimmed(s) == Ok(n);
    } else {
      assert s == d;
      assert ParseTrimmed(s) == Ok(n);
    }
    TrimmedText(s);
  }

  /** Different numbers have different text forms: the counters and seeds written into file names and arguments never collide. */
  lemma ToStringInjective(m: int32, n: int32)
    requires ToString(m) == ToString(n)
    ensures m == n
  {
    ParseToString(m);
    ParseToString(n);
  }
}
