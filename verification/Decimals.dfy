/** The decimal text of a natural number and how its length grows. */
module Decimals {
  import opened Outcomes

  function DigitChar(d: nat): (c: char)
    requires d < 10
    ensures '0' <= c <= '9'
  {
    '0' + d as char
  }

  /** How many decimal digits a number has. */
  function Digits(n: nat): (digits: nat)
    ensures digits > 0
  {
    if n < 10 then 1 else 1 + Digits(n / 10)
  }

  function Decimal(n: nat): (text: string)
    ensures |text| == Digits(n)
    ensures forall c :: c in text ==> '0' <= c <= '9'
  {
    if n < 10 then [DigitChar(n)] else Decimal(n / 10) + [DigitChar(n % 10)]
  }

  lemma {:induction false} DecimalIsInjective(m: nat, n: nat)
    requires Decimal(m) == Decimal(n)
    ensures m == n
  {
    var text := Decimal(m);
    assert |text| == 1 <==> m < 10;
    assert |text| == 1 <==> n < 10;
    assert text[|text| - 1] == DigitChar(m % 10) == DigitChar(n % 10);
    if m >= 10 {
      assert text[..|text| - 1] == Decimal(m / 10);
      assert text[..|text| - 1] == Decimal(n / 10);
      DecimalIsInjective(m / 10, n / 10);
    }
  }

  /** The number that a text of digits denotes. */
  function NatOf(text: string): Option<nat> {
    if text == "" || !('0' <= text[|text| - 1] <= '9') then None
    else
      var last: nat := text[|text| - 1] as int - '0' as int;
      if |text| == 1 then Some(last)
      else
        match NatOf(text[..|text| - 1])
        case None => None
        case Some(n) => Some(10 * n + last)
  }

  lemma {:induction false} DecimalReadsBack(n: nat)
    ensures NatOf(Decimal(n)) == Some(n)
  {
    var text := Decimal(n);
    assert text[|text| - 1] == DigitChar(n % 10);
    if n >= 10 {
      assert text[..|text| - 1] == Decimal(n / 10);
      DecimalReadsBack(n / 10);
    }
  }

  lemma {:induction false} DigitsGrow(m: nat, n: nat)
    requires m <= n
    ensures Digits(m) <= Digits(n)
  {
    if m >= 10 {
      DigitsGrow(m / 10, n / 10);
    }
  }

  lemma DigitsOfTenfold(n: nat)
    requires n > 0
    ensures Digits(10 * n) == Digits(n) + 1
  {
  }

  /** Adding one adds at most one digit, and a positive number has no more digits than its value. */
  lemma {:induction false} DigitsOfSuccessor(n: nat)
    ensures Digits(n + 1) <= Digits(n) + 1
  {
    if n >= 10 {
      DigitsOfSuccessor(n / 10);
      DigitsGrow((n + 1) / 10, n / 10 + 1);
    }
  }

  lemma {:induction false} DigitsAtMostValue(n: nat)
    requires n > 0
    ensures 1 <= Digits(n) <= n
  {
    if n > 1 {
      DigitsAtMostValue(n - 1);
      DigitsOfSuccessor(n - 1);
    }
  }
}
