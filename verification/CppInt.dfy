/**
 * C++ integer semantics that differ from Dafny's: `/` on `int` truncates
 * toward zero (Dafny's is Euclidean), and `static_cast<int>` of a floating
 * value truncates toward zero. Integers are unbounded here; 32-bit overflow
 * is not modelled.
 */
module CppInt {

  function Abs(a: int): nat {
    if a < 0 then -a else a
  }

  /** The C++ quotient `a / b`: magnitude |a| / |b|, sign that of a*b. */
  function Quot(a: int, b: int): (q: int)
    requires b != 0
    ensures a >= 0 && b > 0 ==> q == a / b
    ensures q > 0 ==> (a > 0) == (b > 0)
    ensures q < 0 ==> (a > 0) != (b > 0)
  {
    var m := Abs(a) / Abs(b);
    assert m > 0 ==> Abs(a) > 0 by {
      if Abs(a) == 0 { assert m == 0; }
    }
    if (a < 0) == (b < 0) then m else -m
  }

  /** The magnitude of the C++ quotient is the quotient of the magnitudes. */
  lemma QuotMagnitude(a: int, b: int)
    requires b != 0
    ensures Abs(Quot(a, b)) == Abs(a) / Abs(b)
  {
    var m := Abs(a) / Abs(b);
    assert m >= 0;
    assert Quot(a, b) == m || Quot(a, b) == -m;
  }

  /** For a non-negative dividend and a positive divisor, the quotient counts the whole divisors that fit. */
  lemma QuotFloor(a: int, b: int)
    requires b != 0
    ensures a >= 0 && b > 0 ==> Quot(a, b) >= 0 && Quot(a, b) * b <= a < (Quot(a, b) + 1) * b
  {
    if a >= 0 && b > 0 {
      var q, r := a / b, a % b;
      assert Quot(a, b) == q;
      assert a == q * b + r && 0 <= r < b;
      assert (q + 1) * b == q * b + b;
      if q < 0 {
        MulNonPositive(q + 1, b);
      }
    }
  }

  lemma MulNonPositive(a: int, b: int)
    requires a <= 0 < b
    ensures a * b <= 0
  {
  }

  lemma MulAtLeast(a: int, b: int)
    requires a >= 1 && b > 0
    ensures a * b >= b
  {
    assert a * b == (a - 1) * b + b;
  }

  /** `static_cast<int>(x)` for a value within range: drops the fraction. */
  function TruncReal(x: real): (n: int)
    ensures x >= 0.0 ==> n as real <= x < n as real + 1.0
    ensures x < 0.0 ==> n as real - 1.0 < x <= n as real
  {
    if x >= 0.0 then x.Floor else -((-x).Floor)
  }

  predicate IsDigit(c: char) {
    '0' <= c <= '9'
  }

  function DigitChar(d: nat): (c: char)
    requires d < 10
    ensures IsDigit(c) && (c as int) - ('0' as int) == d
  {
    ((d + '0' as int) as char)
  }

  /** Decimal digits of n without leading zeros, as `std::to_string` prints them. */
  function NatToString(n: nat): (s: string)
    ensures |s| >= 1 && (s[0] == '0' ==> n == 0)
    ensures forall i :: 0 <= i < |s| ==> IsDigit(s[i])
  {
    if n < 10 then [DigitChar(n)] else NatToString(n / 10) + [DigitChar(n % 10)]
  }

  /** `std::to_string(int)`: a minus sign before the digits of a negative value. */
  function IntToString(i: int): (s: string)
    ensures |s| >= 1
    ensures i < 0 <==> s[0] == '-'
  {
    if i < 0 then "-" + NatToString(-i) else NatToString(i)
  }

  /** The number a string of decimal digits denotes. */
  function DigitsValue(s: string): nat
    requires forall i :: 0 <= i < |s| ==> IsDigit(s[i])
  {
    if s == [] then 0
    else
      assert IsDigit(s[|s| - 1]);
      var d: nat := (s[|s| - 1] as int) - ('0' as int);
      DigitsValue(s[..|s| - 1]) * 10 + d
  }

  /** Reading back the printed digits gives the number again. */
  lemma {:induction false} NatToStringValue(n: nat)
    ensures DigitsValue(NatToString(n)) == n
  {
    if n >= 10 {
      var s := NatToString(n);
      NatToStringValue(n / 10);
      assert s[..|s| - 1] == NatToString(n / 10);
    }
  }

  /** Printed integers are told apart by their text. */
  lemma IntToStringInjective(a: int, b: int)
    requires IntToString(a) == IntToString(b)
    ensures a == b
  {
    if a < 0 {
      assert b < 0;
      Magnitude(a);
      Magnitude(b);
      assert -a == DigitsValue(NatToString(-a)) == DigitsValue(NatToString(-b)) == -b;
    } else {
      assert b >= 0;
      NatToStringValue(a);
      NatToStringValue(b);
    }
  }

  /** After the minus sign, a negative number's text is its magnitude's digits. */
  lemma Magnitude(a: int)
    requires a < 0
    ensures IntToString(a)[1..] == NatToString(-a)
    ensures DigitsValue(NatToString(-a)) == -a
  {
    NatToStringValue(-a);
  }
}
