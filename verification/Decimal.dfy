// Decimal text of integers: Go's %d and strconv.ParseInt(s, 10, 64).
module Decimal {
  import opened Types

  const INT64_MAX := 0x7fff_ffff_ffff_ffff
  const INT64_MIN := -0x8000_0000_0000_0000

  predicate IsDigit(c: char) { '0' <= c <= '9' }

  predicate AllDigits(s: string) { forall i :: 0 <= i < |s| ==> IsDigit(s[i]) }

  function DigitChar(d: nat): char
    requires d < 10
  {
    '0' + d as char
  }

  function PrintNat(n: nat): (s: string)
    ensures s != [] && AllDigits(s)
  {
    if n < 10 then [DigitChar(n)] else PrintNat(n / 10) + [DigitChar(n % 10)]
  }

  function PrintInt(n: int): string {
    if n < 0 then "-" + PrintNat(-n) else PrintNat(n)
  }

  /** The value of a string of digits, read left to right. */
  function DigitsValue(s: string): nat
    requires AllDigits(s)
  {
    if s == [] then 0
    else DigitsValue(s[..|s| - 1]) * 10 + (s[|s| - 1] as int - '0' as int)
  }

  /** An optional sign, at least one digit, nothing else, and a value that fits 64 bits. */
  function ParseInt(s: string): Option<int> {
    if s != [] && s[0] == '-' then Fit(Negated(ParseDigits(s[1..])))
    else if s != [] && s[0] == '+' then Fit(ParseDigits(s[1..]))
    else Fit(ParseDigits(s))
  }

  function ParseDigits(s: string): Option<int> {
    if s == [] || !AllDigits(s) then None else Some(DigitsValue(s))
  }

  function Negated(v: Option<int>): Option<int> {
    if v.Some? then Some(-v.value) else None
  }

  function Fit(v: Option<int>): Option<int> {
    if v.Some? && INT64_MIN <= v.value <= INT64_MAX then v else None
  }

  lemma {:induction false} ValueOfPrinted(n: nat)
    ensures DigitsValue(PrintNat(n)) == n
  {
    if n >= 10 {
      var s := PrintNat(n);
      assert s[..|s| - 1] == PrintNat(n / 10);
      ValueOfPrinted(n / 10);
    }
  }

  lemma ParseUnsigned(s: string)
    requires s != [] && AllDigits(s)
    ensures ParseInt(s) == Fit(Some(DigitsValue(s)))
    ensures ParseInt("-" + s) == Fit(Negated(Some(DigitsValue(s))))
  {
    assert IsDigit(s[0]);
    assert ("-" + s)[1..] == s;
  }

  /** Printing then parsing an int64 is the identity, and nothing wider is accepted. */
  lemma ParsePrinted(n: int)
    ensures ParseInt(PrintInt(n)) == if INT64_MIN <= n <= INT64_MAX then Some(n) else None
  {
    var m: nat := if n < 0 then -n else n;
    ValueOfPrinted(m);
    ParseUnsigned(PrintNat(m));
  }

  lemma PrintNatInjective(m: nat, n: nat)
    requires PrintNat(m) == PrintNat(n)
    ensures m == n
  {
    ValueOfPrinted(m);
    ValueOfPrinted(n);
  }
}
