/** Decimal text of integers: `ToString()` of `Int32`/`Int64`, and `Int32.Parse`/`Int64.Parse`. */
module Numbers {
  import opened Wrappers

  const INT32_MIN: int := -0x8000_0000
  const INT32_MAX: int := 0x7FFF_FFFF
  const INT64_MIN: int := -0x8000_0000_0000_0000
  const INT64_MAX: int := 0x7FFF_FFFF_FFFF_FFFF

  predicate IsDigit(c: char) {
    '0' <= c <= '9'
  }

  predicate AllDigits(s: string) {
    forall i :: 0 <= i < |s| ==> IsDigit(s[i])
  }

  function DigitChar(d: nat): (c: char)
    requires d < 10
    ensures IsDigit(c)
  {
    (48 + d) as char
  }

  function DigitValue(c: char): (d: nat)
    requires IsDigit(c)
    ensures d < 10
  {
    c as int - 48
  }

  /** Decimal digits of a natural number, most significant first, no leading zeros. */
  function NatToString(n: nat): (s: string)
    ensures |s| > 0
    decreases n
  {
    if n < 10 then [DigitChar(n)] else NatToString(n / 10) + [DigitChar(n % 10)]
  }

  /** `ToString()` of an integer with the invariant culture's '-' sign: a '-' for negatives, then the digits. */
  function IntToString(n: int): (s: string)
    ensures |s| > 0
  {
    if n < 0 then "-" + NatToString(-n) else NatToString(n)
  }

  /** The text of an integer is digits after a first character that is '-' or a digit, and ends in a digit. */
  lemma IntToStringChars(n: int)
    ensures var s := IntToString(n);
      && IsDigit(s[|s| - 1])
      && (s[0] == '-' || IsDigit(s[0]))
      && (forall i :: 1 <= i < |s| ==> IsDigit(s[i]))
      && (s[0] == '-' <==> n < 0)
  {
    if n < 0 {
      DigitsRoundTrip(-n);
    } else {
      DigitsRoundTrip(n);
    }
  }

  /** The value of a run of decimal digits, most significant first; the empty run has value 0. */
  function DigitsValue(s: string): nat
    requires AllDigits(s)
  {
    if |s| == 0 then 0 else 10 * DigitsValue(s[..|s| - 1]) + DigitValue(s[|s| - 1])
  }

  /** The characters `Int32.Parse` skips around a number (NumberStyles.Integer: tab to carriage return, space). */
  predicate IsWhite(c: char) {
    c == ' ' || '\t' <= c <= '\r'
  }

  function TrimStart(s: string): string {
    if |s| > 0 && IsWhite(s[0]) then TrimStart(s[1..]) else s
  }

  function TrimEnd(s: string): string {
    if |s| > 0 && IsWhite(s[|s| - 1]) then TrimEnd(s[..|s| - 1]) else s
  }

  /**
   * `Int32.Parse` / `Int64.Parse` with NumberStyles.Integer: optional surrounding white space,
   * an optional sign, at least one decimal digit, and a value inside [lo, hi].  `None` stands for
   * the exception the parse throws (ArgumentNullException, FormatException, OverflowException).
   */
  function ParseInteger(s: Option<string>, lo: int, hi: int): (r: Option<int>)
    ensures r.Some? ==> lo <= r.value <= hi
    ensures s.None? ==> r.None?
  {
    if s.None? then None
    else
      var t := TrimEnd(TrimStart(s.value));
      var negative := |t| > 0 && t[0] == '-';
      var digits := if |t| > 0 && (t[0] == '-' || t[0] == '+') then t[1..] else t;
      if |digits| == 0 || !AllDigits(digits) then None
      else
        var magnitude: int := DigitsValue(digits);
        var v := if negative then -magnitude else magnitude;
        if lo <= v <= hi then Some(v) else None
  }

  /** The characters a number text may hold: white space, a sign, decimal digits. */
  predicate NumberChar(c: char) {
    IsWhite(c) || c == '-' || c == '+' || IsDigit(c)
  }

  /** `TrimStart` drops a prefix of white space and keeps the rest. */
  lemma {:induction false} TrimStartDrops(s: string)
    ensures |TrimStart(s)| <= |s| && TrimStart(s) == s[|s| - |TrimStart(s)|..]
    ensures forall j :: 0 <= j < |s| - |TrimStart(s)| ==> IsWhite(s[j])
    decreases |s|
  {
    if |s| > 0 && IsWhite(s[0]) {
      TrimStartDrops(s[1..]);
      assert forall j :: 1 <= j < |s| ==> s[j] == s[1..][j - 1];
    }
  }

  /** `TrimEnd` drops a suffix of white space and keeps the rest. */
  lemma {:induction false} TrimEndDrops(s: string)
    ensures |TrimEnd(s)| <= |s| && TrimEnd(s) == s[..|TrimEnd(s)|]
    ensures forall j :: |TrimEnd(s)| <= j < |s| ==> IsWhite(s[j])
    decreases |s|
  {
    if |s| > 0 && IsWhite(s[|s| - 1]) {
      TrimEndDrops(s[..|s| - 1]);
      assert forall j :: 0 <= j < |s| - 1 ==> s[j] == s[..|s| - 1][j];
    }
  }

  /**
   * A text that parses holds only white space, signs and digits, and at least one digit: any
   * other character, or no digit at all, makes the parse throw.
   */
  lemma ParseAccepts(s: string, lo: int, hi: int)
    requires ParseInteger(Some(s), lo, hi).Some?
    ensures forall i :: 0 <= i < |s| ==> NumberChar(s[i])
    ensures exists i :: 0 <= i < |s| && IsDigit(s[i])
  {
    var u := TrimStart(s);
    var t := TrimEnd(u);
    TrimStartDrops(s);
    TrimEndDrops(u);
    var a := |s| - |u|;
    var off := if |t| > 0 && (t[0] == '-' || t[0] == '+') then 1 else 0;
    var digits := t[off..];
    forall i | 0 <= i < |s|
      ensures NumberChar(s[i])
    {
      if a <= i {
        assert s[i] == u[i - a];
        if i - a < |t| {
          assert u[i - a] == t[i - a];
          if off <= i - a {
            assert t[i - a] == digits[i - a - off];
          }
        }
      }
    }
    assert s[a + off] == u[off] == t[off] == digits[0];
  }

  function ParseInt32(s: Option<string>): Option<int> {
    ParseInteger(s, INT32_MIN, INT32_MAX)
  }

  function ParseInt64(s: Option<string>): Option<int> {
    ParseInteger(s, INT64_MIN, INT64_MAX)
  }

  lemma {:induction false} DigitsRoundTrip(n: nat)
    ensures AllDigits(NatToString(n)) && DigitsValue(NatToString(n)) == n
    decreases n
  {
    if n >= 10 {
      var s := NatToString(n);
      assert s == NatToString(n / 10) + [DigitChar(n % 10)];
      DigitsRoundTrip(n / 10);
      assert s[..|s| - 1] == NatToString(n / 10);
    }
  }

  /**
   * Parsing the text `ToString()` produces gives the number back when it is in range, and
   * throws (overflow) when it is not.
   */
  lemma ParseRoundTrip(n: int, lo: int, hi: int)
    ensures ParseInteger(Some(IntToString(n)), lo, hi) == if lo <= n <= hi then Some(n) else None
  {
    var s := IntToString(n);
    IntToStringChars(n);
    assert TrimStart(s) == s;
    assert TrimEnd(s) == s;
    if n < 0 {
      assert s[1..] == NatToString(-n);
      DigitsRoundTrip(-n);
    } else {
      DigitsRoundTrip(n);
    }
  }

  /** Different numbers have different decimal text. */
  lemma IntToStringInjective(a: int, b: int)
    ensures IntToString(a) == IntToString(b) <==> a == b
  {
    if IntToString(a) == IntToString(b) {
      var lo := if a < b then a else b;
      var hi := if a < b then b else a;
      ParseRoundTrip(a, lo, hi);
      ParseRoundTrip(b, lo, hi);
    }
  }
}
