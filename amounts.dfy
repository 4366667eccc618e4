/**
 * Decimal money amounts as the activity holds them (info.javaperformance.money.Money):
 * an integer mantissa with a number of fractional digits, and truncation to a
 * number of fractional digits, which discards digits toward zero.
 */
module Amounts {

  /** The amount mantissa / 10^scale. */
  datatype Money = Money(mantissa: int, scale: nat)

  /** MoneyFactory.fromString("0"). */
  const Zero := Money(0, 0)

  function Pow10(n: nat): (r: nat)
    ensures r >= 1
  {
    if n == 0 then 1 else 10 * Pow10(n - 1)
  }

  lemma {:induction false} Pow10Add(a: nat, b: nat)
    ensures Pow10(a + b) == Pow10(a) * Pow10(b)
  {
    if b > 0 {
      Pow10Add(a, b - 1);
      calc {
        Pow10(a + b);
        10 * Pow10(a + b - 1);
        10 * (Pow10(a) * Pow10(b - 1));
        Pow10(a) * (10 * Pow10(b - 1));
      }
    }
  }

  function Magnitude(n: int): (r: nat)
    ensures r == n || r == -n
  {
    if n < 0 then -n else n
  }

  /** Integer division that discards the remainder toward zero (not Dafny's Euclidean division). */
  function DivTowardZero(n: int, d: nat): (q: int)
    requires d > 0
    ensures Magnitude(q) * d <= Magnitude(n) < (Magnitude(q) + 1) * d
    ensures n >= 0 ==> q >= 0
    ensures n <= 0 ==> q <= 0
  {
    if n >= 0 then n / d else -((-n) / d)
  }

  /** Money.truncate(precision): keep at most `precision` fractional digits, dropping the rest toward zero. */
  function Truncate(m: Money, precision: nat): (r: Money)
    ensures r.scale <= precision && r.scale <= m.scale
    ensures r.scale == if m.scale <= precision then m.scale else precision
  {
    if m.scale <= precision then m
    else Money(DivTowardZero(m.mantissa, Pow10(m.scale - precision)), precision)
  }

  /**
   * Truncation moves toward zero by less than one unit of the kept precision:
   * |r| <= |m| < |r| + 10^-r.scale, written over the common denominator 10^m.scale,
   * and r never has the opposite sign of m.
   */
  lemma TruncateTowardZero(m: Money, precision: nat)
    ensures var r := Truncate(m, precision);
      var unit := Pow10(m.scale - r.scale);
      && Magnitude(r.mantissa) * unit <= Magnitude(m.mantissa) < (Magnitude(r.mantissa) + 1) * unit
      && (m.mantissa >= 0 ==> r.mantissa >= 0)
      && (m.mantissa <= 0 ==> r.mantissa <= 0)
  {
  }

  /** An amount that already has no more than `precision` fractional digits is not changed. */
  lemma TruncateKeepsShortAmounts(m: Money, precision: nat)
    requires m.scale <= precision
    ensures Truncate(m, precision) == m
  {
  }

  lemma MulAwayFromZero(d: int, k: int)
    requires d >= 0
    ensures k >= 1 ==> d * k >= d
    ensures k <= -1 ==> d * k <= -d
  {
    if k >= 1 {
      assert d * k == d + d * (k - 1);
    } else if k <= -1 {
      assert d * k == -d + d * (k + 1);
    }
  }

  /** The quotient is the only q with n == d * q + r and 0 <= r < d. */
  lemma DivUnique(n: nat, d: nat, q: nat, r: nat)
    requires d > 0 && r < d && n == d * q + r
    ensures n / d == q
  {
    var q', r' := n / d, n % d;
    assert n == d * q' + r';
    assert d * (q - q') == r' - r by {
      assert d * q == d * q' + d * (q - q');
    }
    MulAwayFromZero(d, q - q');
  }

  lemma MulRegroup(a: nat, b: nat, q2: nat, r2: nat, r1: nat)
    ensures a * (b * q2 + r2) + r1 == (a * b) * q2 + (a * r2 + r1)
  {
  }

  lemma MulBelow(a: nat, r2: nat, r1: nat, b: nat)
    requires r2 < b && r1 < a
    ensures a * r2 + r1 < a * b
  {
    assert a * b == a * r2 + a * (b - r2);
    MulAwayFromZero(a, b - r2);
  }

  lemma DivDiv(n: nat, a: nat, b: nat)
    requires a > 0 && b > 0
    ensures n / a / b == n / (a * b)
  {
    var q, r1 := n / a, n % a;
    var q2, r2 := q / b, q % b;
    assert n == a * q + r1;
    assert q == b * q2 + r2;
    MulRegroup(a, b, q2, r2, r1);
    MulBelow(a, r2, r1, b);
    DivUnique(n, a * b, q2, a * r2 + r1);
  }

  lemma DivTowardZeroTwice(n: int, a: nat, b: nat)
    requires a > 0 && b > 0
    ensures DivTowardZero(DivTowardZero(n, a), b) == DivTowardZero(n, a * b)
  {
    if n >= 0 {
      DivDiv(n, a, b);
    } else {
      DivDiv(-n, a, b);
    }
  }

  /**
   * Truncating first to a finer precision and then to a coarser one gives the same
   * amount as truncating to the coarser one directly; in particular truncating
   * twice to the same precision changes nothing the second time.
   */
  lemma TruncateTwice(m: Money, fine: nat, coarse: nat)
    requires coarse <= fine
    ensures Truncate(Truncate(m, fine), coarse) == Truncate(m, coarse)
  {
    if m.scale > fine && fine > coarse {
      var a, b := Pow10(m.scale - fine), Pow10(fine - coarse);
      var once := DivTowardZero(m.mantissa, a);
      assert Truncate(m, fine) == Money(once, fine);
      assert Truncate(Money(once, fine), coarse) == Money(DivTowardZero(once, b), coarse);
      Pow10Add(m.scale - fine, fine - coarse);
      assert Pow10(m.scale - coarse) == a * b;
      DivTowardZeroTwice(m.mantissa, a, b);
    }
  }

  /** 12.345 truncated at two digits is 12.34 (not rounded up to 12.35). */
  lemma TruncateExample()
    ensures Truncate(Money(12345, 3), 2) == Money(1234, 2)
    ensures Truncate(Money(-12345, 3), 2) == Money(-1234, 2)
  {
  }
}
