/**
 * Decimal text for integers, as Go's strconv.Itoa writes it and
 * strconv.Atoi reads it: an optional sign and one or more ASCII digits.
 * Atoi's range errors on 64-bit overflow are not modelled; integers are
 * unbounded here.
 */
module Decimal {
  import opened Wrappers

  predicate IsDigit(c: char) {
    '0' <= c <= '9'
  }

  predicate IsDigits(s: string) {
    |s| > 0 && forall i | 0 <= i < |s| :: IsDigit(s[i])
  }

  function DigitValue(c: char): (d: nat)
    requires IsDigit(c)
    ensures d < 10
  {
    (c as int - '0' as int) as nat
  }

  function DigitChar(d: nat): (c: char)
    requires d < 10
    ensures IsDigit(c) && DigitValue(c) == d
  {
    ('0' as int + d) as char
  }

  /** The value of a run of digits, most significant first. */
  function DigitsValue(s: string): nat
    requires IsDigits(s)
  {
    if |s| == 1 then DigitValue(s[0])
    else DigitsValue(s[..|s| - 1]) * 10 + DigitValue(s[|s| - 1])
  }

  /** The shortest decimal digits of `n`. */
  function NatDigits(n: nat): (s: string)
    ensures IsDigits(s)
    ensures n > 0 ==> s[0] != '0'
    ensures |s| == 1 <==> n < 10
  {
    if n < 10 then [DigitChar(n)] else NatDigits(n / 10) + [DigitChar(n % 10)]
  }

  /** strconv.Itoa: a minus sign exactly for negatives, then the shortest decimal digits. */
  function Itoa(i: int): (s: string)
    ensures |s| > 0
    ensures s[0] == '-' <==> i < 0
    ensures IsDigits(if i < 0 then s[1..] else s)
    ensures var d := if i < 0 then s[1..] else s; d[0] != '0' || d == "0"
  {
    if i < 0 then "-" + NatDigits(-i) else NatDigits(i)
  }

  /** strconv.Atoi, with None for a syntax error. */
  function Atoi(s: string): (r: Option<int>)
    ensures r.Some? <==> IsDigits(s) || (|s| > 1 && (s[0] == '+' || s[0] == '-') && IsDigits(s[1..]))
    ensures r.Some? ==> r.value == if s[0] == '-' then -(DigitsValue(s[1..]) as int)
                                   else if s[0] == '+' then DigitsValue(s[1..])
                                   else DigitsValue(s)
  {
    if |s| > 0 && (s[0] == '+' || s[0] == '-') then
      if IsDigits(s[1..]) then
        var v: int := DigitsValue(s[1..]);
        Some(if s[0] == '-' then -v else v)
      else None
    else if IsDigits(s) then Some(DigitsValue(s))
    else None
  }

  /** What `n, _ := strconv.Atoi(s)` leaves in `n`: the value, or 0 on a syntax error. */
  function AtoiOrZero(s: string): (n: int)
    ensures Atoi(s).Some? ==> n == Atoi(s).value
    ensures Atoi(s).None? ==> n == 0
  {
    match Atoi(s)
    case Some(v) => v
    case None => 0
  }

  lemma {:induction false} DigitsOfNat(n: nat)
    ensures DigitsValue(NatDigits(n)) == n
  {
    if n >= 10 {
      DigitsOfNat(n / 10);
      var s := NatDigits(n);
      assert s[..|s| - 1] == NatDigits(n / 10);
    }
  }

  /** Atoi reads back what Itoa writes. */
  lemma AtoiItoa(i: int)
    ensures Atoi(Itoa(i)) == Some(i)
    ensures AtoiOrZero(Itoa(i)) == i
  {
    if i < 0 {
      var n: nat := -i;
      var d := NatDigits(n);
      DigitsOfNat(n);
      AtoiSigned(d);
      assert Itoa(i) == "-" + d;
    } else {
      var n: nat := i;
      var d := NatDigits(n);
      DigitsOfNat(n);
      AtoiUnsigned(d);
      assert Itoa(i) == d;
    }
  }

  lemma AtoiUnsigned(d: string)
    requires IsDigits(d)
    ensures Atoi(d) == Some(DigitsValue(d))
  {
    assert IsDigit(d[0]);
  }

  lemma AtoiSigned(d: string)
    requires IsDigits(d)
    ensures Atoi("-" + d) == Some(-(DigitsValue(d) as int))
  {
    var s := "-" + d;
    assert s[0] == '-' && s[1..] == d;
  }

  /** Text with no digits at all, such as a missing map entry, reads as 0. */
  lemma NonNumericIsZero(s: string)
    requires forall i | 0 <= i < |s| :: !IsDigit(s[i])
    ensures AtoiOrZero(s) == 0
  {
    if |s| > 1 && (s[0] == '+' || s[0] == '-') {
      assert !IsDigit(s[1..][0]);
    }
  }
}
