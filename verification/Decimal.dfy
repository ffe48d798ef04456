/** Decimal numerals: str(n) and int(s) for natural numbers without sign, space or underscore. */
module Decimal {
  import opened Options

  function Digit(n: nat): char
    requires n < 10
  {
    "0123456789"[n]
  }

  function ToDecimal(n: nat): string {
    if n < 10 then [Digit(n)] else ToDecimal(n / 10) + [Digit(n % 10)]
  }

  predicate IsDigit(c: char) {
    '0' <= c <= '9'
  }

  function Value(s: string): nat
    requires forall c <- s :: IsDigit(c)
  {
    if s == [] then 0
    else
      assert IsDigit(s[|s| - 1]) && forall c <- s[..|s| - 1] :: c in s;
      10 * Value(s[..|s| - 1]) + (s[|s| - 1] as int - '0' as int)
  }

  function Parse(s: string): Option<nat> {
    if s != [] && forall c <- s :: IsDigit(c) then Some(Value(s)) else None
  }

  lemma {:induction false} ParseToDecimal(n: nat)
    ensures forall c <- ToDecimal(n) :: IsDigit(c)
    ensures ToDecimal(n) != [] && Parse(ToDecimal(n)) == Some(n)
  {
    var s := ToDecimal(n);
    if n < 10 {
      assert s[..0] == [] && Value(s[..0]) == 0;
      assert s[0] as int - '0' as int == n;
    } else {
      ParseToDecimal(n / 10);
      assert s[..|s| - 1] == ToDecimal(n / 10);
    }
  }

  /** The most significant digit comes first. */
  lemma DecimalText(n: nat, d: nat)
    requires d < 10
    ensures ToDecimal(d) == ["0123456789"[d]]
    ensures n > 0 ==> ToDecimal(10 * n + d) == ToDecimal(n) + ["0123456789"[d]]
  {
    assert (10 * n + d) / 10 == n && (10 * n + d) % 10 == d;
  }
}
