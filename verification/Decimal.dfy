/** Decimal numerals as `strconv` and `%d` print and read them. */
module Decimal {

  predicate IsDigit(c: char)
  {
    '0' <= c <= '9'
  }

  predicate AllDigits(s: string)
  {
    forall i :: 0 <= i < |s| ==> IsDigit(s[i])
  }

  function Digit(d: nat): char
    requires d < 10
  {
    '0' + d as char
  }

  function Digits(n: nat): (s: string)
    ensures s != [] && AllDigits(s)
  {
    if n < 10 then [Digit(n)] else Digits(n / 10) + [Digit(n % 10)]
  }

  function Itoa(n: int): string
  {
    if n < 0 then "-" + Digits(-n) else Digits(n)
  }

  function Value(s: string): nat
    requires AllDigits(s)
  {
    if s == [] then 0 else 10 * Value(s[..|s| - 1]) + (s[|s| - 1] as int - '0' as int)
  }

  function Pow10(k: nat): (p: nat)
    ensures p > 0
  {
    if k == 0 then 1 else 10 * Pow10(k - 1)
  }

  lemma {:induction false} ValueOfDigits(n: nat)
    ensures Value(Digits(n)) == n
  {
    var s := Digits(n);
    if n >= 10 {
      ValueOfDigits(n / 10);
      assert s[..|s| - 1] == Digits(n / 10);
    } else {
      assert s[..0] == [];
    }
  }

  lemma {:induction false} DigitsLength(n: nat)
    ensures Pow10(|Digits(n)| - 1) <= n || n == 0
    ensures n < Pow10(|Digits(n)|)
    ensures n > 0 ==> Digits(n)[0] != '0'
  {
    if n >= 10 {
      DigitsLength(n / 10);
      assert Digits(n)[0] == Digits(n / 10)[0];
    }
  }

  lemma {:induction false} Pow10Grows(j: nat, k: nat)
    requires j <= k
    ensures Pow10(j) <= Pow10(k)
  {
    if j < k {
      Pow10Grows(j, k - 1);
    }
  }

  lemma DigitsFit(n: nat, k: nat)
    requires k >= 1
    ensures |Digits(n)| <= k <==> n < Pow10(k)
  {
    DigitsLength(n);
    var len := |Digits(n)|;
    if len <= k {
      Pow10Grows(len, k);
    } else if n > 0 {
      Pow10Grows(k, len - 1);
    }
  }

  // Dropping trailing digits divides; the kept ones are worth at least the leading one.
  lemma {:induction false} ValueBounds(s: string)
    requires AllDigits(s) && s != []
    ensures Value(s) < Pow10(|s|)
    ensures s[0] != '0' ==> Value(s) >= Pow10(|s| - 1)
    ensures Value(s) == 0 ==> AllZero(s)
  {
    var front := s[..|s| - 1];
    if front != [] {
      ValueBounds(front);
    }
  }

  lemma {:induction false} ValueConcat(s: string, t: string)
    requires AllDigits(s) && AllDigits(t)
    ensures Value(s + t) == Value(s) * Pow10(|t|) + Value(t)
  {
    if t == [] {
      assert s + t == s;
    } else {
      var front, last := t[..|t| - 1], t[|t| - 1];
      ValueConcat(s, front);
      assert (s + t)[..|s + t| - 1] == s + front;
      Tenfold(Value(s), Pow10(|front|), Value(front));
    }
  }

  lemma Tenfold(m: nat, n: nat, rest: nat)
    ensures 10 * (m * n + rest) == m * (10 * n) + 10 * rest
  {
  }

  ghost predicate AllZero(s: string)
  {
    forall i :: 0 <= i < |s| ==> s[i] == '0'
  }

  lemma {:induction false} DigitsInjective(m: nat, n: nat)
    ensures Digits(m) == Digits(n) ==> m == n
  {
    ValueOfDigits(m);
    ValueOfDigits(n);
  }

  // Numerals without leading zeros are the printed ones.
  lemma {:induction false} DigitsOfValue(s: string)
    requires s != [] && AllDigits(s) && (|s| > 1 ==> s[0] != '0')
    ensures Digits(Value(s)) == s
    ensures s[0] != '0' ==> Value(s) > 0
  {
    var front, last := s[..|s| - 1], s[|s| - 1];
    var d := last as int - '0' as int;
    assert Digit(d) == last;
    if front == [] {
      assert s == [last];
    } else {
      DigitsOfValue(front);
      assert s == front + [last];
      assert Value(s) / 10 == Value(front) && Value(s) % 10 == d;
    }
  }
}
