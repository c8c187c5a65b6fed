/**
 * Severities of log records and their printed form (include/logging/log.hpp).
 * `Severity` is a C++ `enum class` whose underlying type is `int`, so a value
 * outside the five named enumerators can still be formed by a cast; the
 * model keeps that possibility by making `Severity` an integer type.
 */
module Log {
  import opened Wrappers

  newtype Severity = int

  const Debug: Severity := 0
  const Info: Severity := 1
  const Warning: Severity := 2
  const Error: Severity := 3
  const Critical: Severity := 4

  /** `to_string(Severity)`: the fixed-width label of a named severity, and
      `None` (the null pointer) for any other value. */
  function ToString(severity: Severity): (r: Option<string>)
    ensures r.Some? <==> Debug <= severity <= Critical
    ensures r.Some? ==> |r.value| == 8
  {
    if severity == Debug then Some("DEBUG   ")
    else if severity == Info then Some("INFO    ")
    else if severity == Warning then Some("WARNING ")
    else if severity == Error then Some("ERROR   ")
    else if severity == Critical then Some("CRITICAL")
    else None
  }

  /** The five labels, as the `switch` lists them. */
  lemma SeverityLabels()
    ensures ToString(Debug) == Some("DEBUG   ")
    ensures ToString(Info) == Some("INFO    ")
    ensures ToString(Warning) == Some("WARNING ")
    ensures ToString(Error) == Some("ERROR   ")
    ensures ToString(Critical) == Some("CRITICAL")
  {
  }

  /** The enumerators are declared in increasing order of severity. */
  lemma SeverityOrder()
    ensures Debug < Info < Warning < Error < Critical
  {
  }

  /** Different severities have different labels. */
  lemma ToStringInjective(a: Severity, b: Severity)
    requires ToString(a).Some? && ToString(a) == ToString(b)
    ensures a == b
  {
  }

  // Decimal rendering of an `int`, as `std::ostream` prints one.

  function DigitChar(d: nat): char
    requires d < 10
  {
    "0123456789"[d]
  }

  predicate IsDigit(c: char)
  {
    '0' <= c <= '9'
  }

  function DigitValue(c: char): nat
    requires IsDigit(c)
  {
    (c - '0') as nat
  }

  /** Decimal digits of `n`, most significant first, without leading zeros. */
  function NatToDecimal(n: nat): (s: string)
    ensures |s| > 0 && forall i :: 0 <= i < |s| ==> IsDigit(s[i])
  {
    if n < 10 then [DigitChar(n)] else NatToDecimal(n / 10) + [DigitChar(n % 10)]
  }

  /** `n` printed in decimal, with a leading '-' when negative. */
  function IntToDecimal(n: int): string
  {
    if n < 0 then "-" + NatToDecimal(-n) else NatToDecimal(n)
  }

  /** The value of a string of decimal digits. */
  function ParseNat(s: string): nat
    requires forall i :: 0 <= i < |s| ==> IsDigit(s[i])
  {
    if |s| == 0 then 0 else ParseNat(s[..|s| - 1]) * 10 + DigitValue(s[|s| - 1])
  }

  /** Decimal digits, with an optional leading '-'. */
  predicate IsNumeral(s: string)
  {
    |s| > 0 && forall i :: 0 <= i < |s| ==> IsDigit(s[i]) || (i == 0 && s[i] == '-')
  }

  /** The value of an optionally negative decimal numeral. */
  function ParseInt(s: string): int
    requires IsNumeral(s)
  {
    if s[0] == '-' then -(ParseNat(s[1..]) as int) else ParseNat(s)
  }

  lemma {:induction false} ParseNatToDecimal(n: nat)
    ensures ParseNat(NatToDecimal(n)) == n
  {
    var s := NatToDecimal(n);
    if n < 10 {
      assert s[..|s| - 1] == [];
    } else {
      assert s[..|s| - 1] == NatToDecimal(n / 10);
      ParseNatToDecimal(n / 10);
    }
  }

  /** Printing an `int` in decimal loses nothing: parsing gives it back. */
  lemma ParseIntToDecimal(n: int)
    ensures IsNumeral(IntToDecimal(n)) && ParseInt(IntToDecimal(n)) == n
  {
    var s := IntToDecimal(n);
    if n < 0 {
      var digits := NatToDecimal(-n);
      assert s == "-" + digits;
      assert s[1..] == digits;
      assert IsNumeral(s) by {
        forall i | 0 <= i < |s|
          ensures IsDigit(s[i]) || (i == 0 && s[i] == '-')
        {
          if i > 0 {
            assert s[i] == digits[i - 1];
          }
        }
      }
      assert s[0] == '-';
      ParseNatToDecimal(-n);
    } else {
      assert s == NatToDecimal(n);
      assert IsNumeral(s);
      assert s[0] != '-';
      ParseNatToDecimal(n);
    }
  }

  /** `operator<<(std::ostream&, Severity)`: the label when `to_string` has
      one, otherwise the underlying integer in decimal. */
  function Render(severity: Severity): (r: string)
    ensures |r| > 0
    ensures IsNumeral(r) <==> !(Debug <= severity <= Critical)
  {
    match ToString(severity)
    case Some(text) => assert !IsDigit(text[0]) && text[0] != '-'; text
    case None => ParseIntToDecimal(severity as int); IntToDecimal(severity as int)
  }

  /** A named severity prints as its label; any other value prints as a
      numeral that reads back as that value. */
  lemma RenderCases(severity: Severity)
    ensures Debug <= severity <= Critical ==> Render(severity) == ToString(severity).value
    ensures !(Debug <= severity <= Critical) ==>
              IsNumeral(Render(severity)) && ParseInt(Render(severity)) == severity as int
  {
    ParseIntToDecimal(severity as int);
  }

  /** Distinct severities never print alike, whether named or not. */
  lemma RenderInjective(a: Severity, b: Severity)
    requires Render(a) == Render(b)
    ensures a == b
  {
    RenderCases(a);
    RenderCases(b);
  }
}
