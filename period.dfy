/**
 * The period key under which a trip is saved: `f"{year}_{month}"`, the
 * decimal year, an underscore, then the month name.
 */
module Period {

  /** The decimal digit for `d`. */
  function DigitChar(d: nat): (c: char)
    requires d < 10
    ensures '0' <= c <= '9'
  {
    "0123456789"[d]
  }

  /** The value of a decimal digit character. */
  function DigitValue(c: char): (d: nat)
    requires '0' <= c <= '9'
    ensures d < 10
  {
    (c - '0') as nat
  }

  predicate IsDigits(s: string)
  {
    forall i | 0 <= i < |s| :: '0' <= s[i] <= '9'
  }

  /** The number a string of decimal digits denotes. */
  function DecimalValue(s: string): nat
    requires IsDigits(s)
  {
    if s == [] then 0 else 10 * DecimalValue(s[..|s| - 1]) + DigitValue(s[|s| - 1])
  }

  /** `str(n)` for a non-negative integer: its decimal digits, without leading zeros. */
  function Decimal(n: nat): (s: string)
    ensures |s| > 0 && IsDigits(s)
    ensures s[0] == '0' ==> s == "0"
    ensures DecimalValue(s) == n
  {
    var last := [DigitChar(n % 10)];
    assert DigitValue(last[0]) == n % 10;
    if n < 10 then last
    else
      var prefix := Decimal(n / 10);
      assert (prefix + last)[..|prefix|] == prefix;
      prefix + last
  }

  /** The key of the period of `month` in `year`. */
  function PeriodKey(year: nat, month: string): (key: string)
    ensures |key| > |Decimal(year)| && key[|Decimal(year)|] == '_'
    ensures key[..|Decimal(year)|] == Decimal(year) && key[|Decimal(year)| + 1..] == month
  {
    Decimal(year) + "_" + month
  }

  /** The first underscore of a key is the one after the year, whatever the month contains. */
  lemma FirstUnderscore(year: nat, month: string, i: nat)
    requires i < |PeriodKey(year, month)| && PeriodKey(year, month)[i] == '_'
    ensures i >= |Decimal(year)|
  {
  }

  /** Distinct periods never share a key: the key determines the year and the month. */
  lemma PeriodKeyInjective(y1: nat, m1: string, y2: nat, m2: string)
    requires PeriodKey(y1, m1) == PeriodKey(y2, m2)
    ensures y1 == y2 && m1 == m2
  {
    var d1, d2 := Decimal(y1), Decimal(y2);
    FirstUnderscore(y1, m1, |d2|);
    FirstUnderscore(y2, m2, |d1|);
    assert d1 == d2;
  }
}
