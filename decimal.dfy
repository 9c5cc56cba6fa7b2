/** Python's `str(n)` for a non-negative integer, used in the request
    helper's `"HTTP <code>"` error text and in the workflows' messages. */
module Decimal {

  predicate IsDigit(c: char)
  {
    '0' <= c <= '9'
  }

  function DigitChar(d: nat): (c: char)
    requires d < 10
    ensures IsDigit(c) && (c as int) - ('0' as int) == d
  {
    (('0' as int) + d) as char
  }

  /** The shortest decimal numeral of `n`. */
  function Show(n: nat): (s: string)
    ensures |s| >= 1
    decreases n
  {
    if n < 10 then [DigitChar(n)] else Show(n / 10) + [DigitChar(n % 10)]
  }

  /** A rendered number is a numeral without a leading zero. */
  lemma {:induction false} ShowIsNumeral(n: nat)
    ensures forall i :: 0 <= i < |Show(n)| ==> IsDigit(Show(n)[i])
    ensures |Show(n)| > 1 ==> Show(n)[0] != '0'
    decreases n
  {
    if n >= 10 {
      ShowIsNumeral(n / 10);
      assert Show(n) == Show(n / 10) + [DigitChar(n % 10)];
    }
  }

  /** The value of a numeral (any other character counts by its distance from '0'). */
  function Value(s: string): int
    decreases |s|
  {
    if s == [] then 0
    else 10 * Value(s[..|s| - 1]) + ((s[|s| - 1] as int) - ('0' as int))
  }

  /** Reading back a rendered number gives the number. */
  lemma {:induction false} ValueOfShow(n: nat)
    ensures Value(Show(n)) == n
    decreases n
  {
    if n >= 10 {
      var s := Show(n);
      assert s[..|s| - 1] == Show(n / 10);
      ValueOfShow(n / 10);
    }
  }

  /** Distinct numbers render differently. */
  lemma ShowInjective(m: nat, n: nat)
    ensures Show(m) == Show(n) ==> m == n
  {
    ValueOfShow(m);
    ValueOfShow(n);
  }
}
