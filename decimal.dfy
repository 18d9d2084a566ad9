/**
 * Decimal text for integers: the parse that `int(...)` performs on the
 * first argument of `/ban`, and the rendering that an f-string gives an
 * `int` in the ban confirmation.
 */
module Decimal {
  import opened Wrappers

  predicate IsDigit(c: char) {
    '0' <= c <= '9'
  }

  function DigitValue(c: char): (d: nat)
    requires IsDigit(c)
    ensures d < 10
  {
    c as int - '0' as int
  }

  function DigitChar(d: nat): (c: char)
    requires d < 10
    ensures IsDigit(c) && DigitValue(c) == d
  {
    ('0' as int + d) as char
  }

  predicate AllDigits(s: string) {
    forall i :: 0 <= i < |s| ==> IsDigit(s[i])
  }

  /** The value of a string of decimal digits, most significant first. */
  function DigitsValue(s: string): nat
    requires AllDigits(s)
    decreases |s|
  {
    if s == [] then 0 else DigitsValue(s[..|s| - 1]) * 10 + DigitValue(s[|s| - 1])
  }

  /**
   * The digit part of a base-10 integer literal as `int()` accepts it:
   * at least one digit, and single underscores allowed between digits.
   */
  predicate WellFormedDigits(s: string) {
    && |s| > 0
    && IsDigit(s[0])
    && IsDigit(s[|s| - 1])
    && (forall i :: 0 <= i < |s| ==> IsDigit(s[i]) || s[i] == '_')
    && (forall i :: 0 <= i < |s| - 1 && s[i] == '_' ==> IsDigit(s[i + 1]))
  }

  function StripUnderscores(s: string): (t: string)
    ensures (forall i :: 0 <= i < |s| ==> IsDigit(s[i]) || s[i] == '_') ==> AllDigits(t)
    ensures AllDigits(s) ==> t == s
  {
    if s == [] then []
    else (if s[0] == '_' then [] else [s[0]]) + StripUnderscores(s[1..])
  }

  function ParseUnsigned(s: string): (r: Option<int>)
    ensures r.Some? ==> r.value >= 0
  {
    if WellFormedDigits(s) then Some(DigitsValue(StripUnderscores(s))) else None
  }

  /**
   * A base-10 integer literal: an optional `+` or `-`, then digits grouped
   * as WellFormedDigits says. Anything else is the parse failure that
   * `int()` signals by raising.
   */
  function ParseInt(s: string): (r: Option<int>)
    ensures s == [] ==> r == None
    ensures r.Some? ==> forall i :: 0 <= i < |s| ==> IsDigit(s[i]) || s[i] in "+-_"
    ensures s != [] && AllDigits(s) ==> r == Some(DigitsValue(s))
  {
    if |s| > 0 && (s[0] == '+' || s[0] == '-') then
      match ParseUnsigned(s[1..])
      case None => None
      case Some(n) => Some(if s[0] == '-' then -n else n)
    else
      ParseUnsigned(s)
  }

  /** Decimal digits of n without leading zeros, as Python's `str` writes them. */
  function NatToString(n: nat): (s: string)
    ensures s != [] && AllDigits(s)
    ensures |s| > 1 ==> s[0] != '0'
    decreases n
  {
    if n < 10 then [DigitChar(n)] else NatToString(n / 10) + [DigitChar(n % 10)]
  }

  /** Python's `str` of an int: a `-` for negatives, then canonical digits. */
  function IntToString(n: int): (s: string)
    ensures s != []
    ensures s[0] == '-' <==> n < 0
    ensures var d := if n < 0 then s[1..] else s;
      d != [] && AllDigits(d) && (|d| > 1 ==> d[0] != '0')
  {
    if n < 0 then "-" + NatToString(-n) else NatToString(n)
  }

  lemma {:induction false} NatToStringValue(n: nat)
    ensures DigitsValue(NatToString(n)) == n
    decreases n
  {
    if n >= 10 {
      var s := NatToString(n);
      NatToStringValue(n / 10);
      assert s[..|s| - 1] == NatToString(n / 10);
    }
  }

  /** Reading back the digits NatToString writes gives the same number. */
  lemma {:induction false} ParseNatToString(k: nat)
    ensures ParseUnsigned(NatToString(k)) == Some(k)
  {
    NatToStringValue(k);
    assert WellFormedDigits(NatToString(k));
  }

  /** Reading back what IntToString writes gives the same integer. */
  lemma {:induction false} ParseIntToString(n: int)
    ensures ParseInt(IntToString(n)) == Some(n)
  {
    var k: nat := if n < 0 then -n else n;
    ParseNatToString(k);
    if n < 0 {
      assert IntToString(n)[1..] == NatToString(k);
    }
  }
}
