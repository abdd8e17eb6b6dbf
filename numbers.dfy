/** Decimal integers as text: `Number.prototype.toString`, `parseInt(s, 10)`
  * and `Number(s)` restricted to integers. */
module Numbers {
  import opened Wrappers
  import Text

  predicate IsDigit(c: char) { '0' <= c <= '9' }

  predicate AllDigits(s: string)
  {
    forall i :: 0 <= i < |s| ==> IsDigit(s[i])
  }

  function DigitChar(d: nat): (c: char)
    requires d < 10
    ensures IsDigit(c)
  {
    ('0' as int + d) as char
  }

  /** The value of a string of decimal digits, most significant first. */
  function DigitsValue(s: string): nat
    requires AllDigits(s)
  {
    if s == [] then 0
    else DigitsValue(s[..|s| - 1]) * 10 + (s[|s| - 1] as int - '0' as int)
  }

  /** The decimal numeral of `n`, without leading zeros. */
  function NatToString(n: nat): (r: string)
    ensures |r| > 0 && AllDigits(r)
  {
    if n < 10 then [DigitChar(n)] else NatToString(n / 10) + [DigitChar(n % 10)]
  }

  /** `String(i)` for an integer `i`. */
  function IntToString(i: int): string
  {
    if i < 0 then "-" + NatToString(-i) else NatToString(i)
  }

  lemma {:induction false} NatToStringValue(n: nat)
    ensures DigitsValue(NatToString(n)) == n
  {
    if n >= 10 {
      NatToStringValue(n / 10);
      var s := NatToString(n);
      assert s[..|s| - 1] == NatToString(n / 10);
    }
  }

  /** The longest prefix of `s` made of decimal digits. */
  function LeadingDigits(s: string): (r: string)
    ensures r <= s && AllDigits(r)
    ensures |r| < |s| ==> !IsDigit(s[|r|])
  {
    if |s| > 0 && IsDigit(s[0]) then [s[0]] + LeadingDigits(s[1..]) else []
  }

  lemma {:induction false} LeadingDigitsAll(s: string)
    requires AllDigits(s)
    ensures LeadingDigits(s) == s
  {
    if s != [] { LeadingDigitsAll(s[1..]); }
  }

  /** Splits an optional leading `+` or `-` off `s`. */
  function SignOf(s: string): (bool, string)
  {
    if |s| > 0 && s[0] == '-' then (true, s[1..])
    else if |s| > 0 && s[0] == '+' then (false, s[1..])
    else (false, s)
  }

  function Signed(negative: bool, n: nat): int
  {
    if negative then -(n as int) else n as int
  }

  /** `parseInt(s, 10)`: leading white space is skipped, an optional sign is
    * read, then the longest run of digits; `None` stands for `NaN`. */
  function ParseInt(s: string): (r: Option<int>)
    ensures r.None? <==> LeadingDigits(SignOf(Text.TrimStart(s)).1) == []
  {
    var (negative, body) := SignOf(Text.TrimStart(s));
    var digits := LeadingDigits(body);
    if digits == [] then None
    else Some(Signed(negative, DigitsValue(digits)))
  }

  lemma {:induction false} TrimStartNonWhite(s: string)
    requires |s| > 0 && !Text.IsWhite(s[0])
    ensures Text.TrimStart(s) == s
  {
  }

  /** Reading back a written integer gives the integer. */
  lemma {:induction false} ParseIntToString(i: int)
    ensures ParseInt(IntToString(i)) == Some(i)
  {
    var n: nat := if i < 0 then -i else i;
    var digits := NatToString(n);
    var s := IntToString(i);
    assert s == (if i < 0 then "-" else "") + digits;
    assert s[0] == '-' || IsDigit(s[0]);
    TrimStartNonWhite(s);
    assert SignOf(s) == (i < 0, digits);
    LeadingDigitsAll(digits);
    NatToStringValue(n);
  }

  /** `Number(s)` for the integer forms the application reads: surrounding
    * white space is ignored, the empty string is 0, an optionally signed run
    * of digits is its value and anything else is `NaN` (`None`). */
  function NumberOf(s: string): (r: Option<int>)
    ensures Text.Trim(s) == [] ==> r == Some(0)
    ensures r.Some? && Text.Trim(s) != [] ==> AllDigits(SignOf(Text.Trim(s)).1)
  {
    var t := Text.Trim(s);
    if t == [] then Some(0)
    else
      var (negative, body) := SignOf(t);
      if body != [] && AllDigits(body) then
        Some(Signed(negative, DigitsValue(body)))
      else None
  }
}
