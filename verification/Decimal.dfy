/** The decimal text of a natural number, as an f-string writes it. */
module Decimal {

  function Digit(d: nat): (c: char)
    requires d < 10
    ensures '0' <= c <= '9'
  {
    (48 + d) as char
  }

  function Dec(n: nat): (s: string)
    ensures s != ""
  {
    if n < 10 then [Digit(n)] else Dec(n / 10) + [Digit(n % 10)]
  }

  lemma {:induction false} DecIsDigits(n: nat)
    ensures forall i :: 0 <= i < |Dec(n)| ==> '0' <= Dec(n)[i] <= '9'
  {
    if n >= 10 { DecIsDigits(n / 10); }
  }

  /** Different numbers have different texts. */
  lemma {:induction false} DecInjective(a: nat, b: nat)
    requires Dec(a) == Dec(b)
    ensures a == b
    decreases a
  {
    var s, n := Dec(a), |Dec(a)| - 1;
    if a >= 10 && b >= 10 {
      assert s[n] == Digit(a % 10) == Digit(b % 10);
      assert s[..n] == Dec(a / 10) == Dec(b / 10);
      DecInjective(a / 10, b / 10);
    }
  }

  /** int() of a text of digits. */
  function Read(s: string): int {
    if s == "" then 0 else 10 * Read(s[..|s| - 1]) + (s[|s| - 1] as int - '0' as int)
  }

  /** The text reads as the number, and has no leading zero. */
  lemma {:induction false} DecReads(n: nat)
    ensures Read(Dec(n)) == n
    ensures n > 0 ==> Dec(n)[0] != '0'
  {
    if n >= 10 {
      DecReads(n / 10);
      assert Dec(n)[..|Dec(n)| - 1] == Dec(n / 10);
    } else {
      assert Dec(n)[..0] == "";
    }
  }
}
