/** Numbers as printf writes them. */
module Decimals {

  predicate IsDigit(c: char) {
    '0' <= c <= '9'
  }

  function Decimal(n: nat): (s: string)
    ensures s != "" && forall i :: 0 <= i < |s| ==> IsDigit(s[i])
  {
    if n < 10 then [('0' as int + n) as char] else Decimal(n / 10) + [('0' as int + n % 10) as char]
  }

  /** The value of the digits at the start of a text, after `acc`. */
  function Digits(s: string, acc: nat): nat {
    if s == "" || !IsDigit(s[0]) then acc else Digits(s[1..], 10 * acc + (s[0] as int - '0' as int))
  }

  lemma {:induction false} DigitsSplit(a: string, b: string, acc: nat)
    requires forall i :: 0 <= i < |a| ==> IsDigit(a[i])
    ensures Digits(a + b, acc) == Digits(b, Digits(a, acc))
  {
    if a == "" {
      assert a + b == b;
    } else {
      assert (a + b)[1..] == a[1..] + b;
      DigitsSplit(a[1..], b, 10 * acc + (a[0] as int - '0' as int));
    }
  }

  /** What is printed is read back. */
  lemma {:induction false} DecimalDigits(n: nat)
    ensures Digits(Decimal(n), 0) == n
  {
    if n < 10 {
      assert Decimal(n)[1..] == "";
    } else {
      DecimalDigits(n / 10);
      var last := [('0' as int + n % 10) as char];
      DigitsSplit(Decimal(n / 10), last, 0);
      assert last[1..] == "";
    }
  }
}
