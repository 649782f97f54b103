/** Decimal text of integers: strconv.Itoa for the counts the controller writes, and the integer
    parsing the scheduler applies to both sides of a Gt or Lt requirement. */
module Decimal {
  import opened Options

  function Digit(d: nat): (c: char)
    requires d < 10
    ensures IsDigit(c) && DigitValue(c) == d
  {
    ('0' as int + d) as char
  }

  predicate IsDigit(c: char)
  {
    '0' <= c <= '9'
  }

  function DigitValue(c: char): nat
    requires IsDigit(c)
  {
    c as int - '0' as int
  }

  function Itoa(n: nat): (s: string)
    ensures s != ""
    ensures forall c :: c in s ==> IsDigit(c)
  {
    if n < 10 then [Digit(n)] else Itoa(n / 10) + [Digit(n % 10)]
  }

  function ParseDigits(s: string): Option<nat>
  {
    if s == "" || !IsDigit(s[|s| - 1]) then None
    else if |s| == 1 then Some(DigitValue(s[0]))
    else
      match ParseDigits(s[..|s| - 1])
      case None => None
      case Some(n) => Some(10 * n + DigitValue(s[|s| - 1]))
  }

  /** strconv.ParseInt(s, 10, 64) on an unbounded range: an optional sign and at least one digit. */
  function ParseInt(s: string): Option<int>
  {
    if s != "" && (s[0] == '-' || s[0] == '+') then
      match ParseDigits(s[1..])
      case None => None
      case Some(n) => Some(if s[0] == '-' then -(n as int) else n as int)
    else
      match ParseDigits(s)
      case None => None
      case Some(n) => Some(n)
  }

  lemma {:induction false} ParseDigitsItoa(n: nat)
    ensures ParseDigits(Itoa(n)) == Some(n)
  {
    if n >= 10 {
      ParseDigitsItoa(n / 10);
      assert Itoa(n)[..|Itoa(n)| - 1] == Itoa(n / 10);
    }
  }

  /** Every count the controller writes is read back as itself. */
  lemma {:induction false} ParseIntItoa(n: nat)
    ensures ParseInt(Itoa(n)) == Some(n)
  {
    ParseDigitsItoa(n);
    assert Itoa(n)[0] in Itoa(n);
  }

  /** Equality of decimal texts, which tolerations compare, is equality of the counts. */
  lemma {:induction false} ItoaInjective(m: nat, n: nat)
    ensures Itoa(m) == Itoa(n) <==> m == n
  {
    ParseIntItoa(m);
    ParseIntItoa(n);
  }
}
