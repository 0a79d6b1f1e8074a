/**
 * Money arithmetic. The program computes with decimals and rounds to two places; the ledger
 * below holds whole minor units (kobo or cents), rates in millionths and percentages in basis
 * points. The `Decimal...` functions are the program's own expressions over the reals, and the
 * lemmas at the end show that the integer forms compute the same amounts.
 */
module Money {

  const MILLION: nat := 1_000_000
  const BASIS: nat := 10_000

  function CeilDiv(n: nat, d: nat): (q: nat)
    requires d > 0
    ensures n <= q * d < n + d
  {
    CeilDivBounds(n, d);
    (n + d - 1) / d
  }

  lemma CeilDivBounds(n: nat, d: nat)
    requires d > 0
    ensures n <= (n + d - 1) / d * d < n + d
  {
    var m := n + d - 1;
    assert m == m / d * d + m % d;
  }

  // Half up, to the nearest minor unit.
  function PercentOf(amount: nat, bps: nat): (fee: nat)
    ensures 2 * amount * bps - BASIS < 2 * fee * BASIS <= 2 * amount * bps + BASIS
  {
    var m := 2 * amount * bps + BASIS;
    assert m == m / (2 * BASIS) * (2 * BASIS) + m % (2 * BASIS);
    m / (2 * BASIS)
  }

  // Rounded up to whole cents.
  function NgnToUsd(ngn: nat, rate: nat): nat
    requires rate > 0
  {
    CeilDiv(ngn * MILLION, rate)
  }

  // Rounded down, which is what makes shares of disjoint parts sum to no more than the charge.
  function ProportionalShare(part: nat, whole: nat, charged: nat): nat
    requires whole > 0
  {
    part * charged / whole
  }

  // What one order cost its buyer, fee included, converted at the ratio the payment itself used.
  function OrderShare(price: nat, serviceFee: nat, subtotal: nat, total: nat, charged: nat): nat
    requires subtotal > 0 && total > 0
  {
    MulPositive(subtotal, total);
    MulNatural(price, subtotal + serviceFee);
    ProportionalShare(price * (subtotal + serviceFee), subtotal * total, charged)
  }

  // The market rate less the margin, rounded down to millionths.
  function EffectiveRate(market: nat, marginBps: nat): (rate: nat)
    requires marginBps <= BASIS
  {
    MulNatural(market, BASIS - marginBps);
    market * (BASIS - marginBps) / BASIS
  }

  lemma MulPositive(a: nat, b: nat)
    requires a > 0 && b > 0
    ensures a * b > 0
  {
  }

  lemma MulNatural(a: nat, b: nat)
    ensures a * b >= 0
  {
  }

  lemma MulMonotone(a: int, b: int, c: int)
    requires a <= b && 0 <= c
    ensures a * c <= b * c
  {
  }

  lemma CancelFactor(a: int, b: int, c: int)
    requires c > 0 && a * c <= b * c
    ensures a <= b
  {
    if a > b {
      MulMonotone(b + 1, a, c);
    }
  }

  /** The dollar charge is the least cent amount worth at least the naira total at the rate used. */
  lemma DollarChargeIsLeast(ngn: nat, rate: nat, cents: nat)
    requires rate > 0
    ensures NgnToUsd(ngn, rate) <= cents <==> ngn * MILLION <= cents * rate
  {
    var charge := NgnToUsd(ngn, rate);
    if charge <= cents {
      MulMonotone(charge, cents, rate);
    } else {
      MulMonotone(cents + 1, charge, rate);
      assert (cents + 1) * rate == cents * rate + rate;
    }
  }

  /**
   * The rate used never exceeds the market rate less the margin, so the dollars charged, converted
   * back at the market rate and with the margin kept aside, still cover the naira total.
   */
  lemma DollarChargeCoversTotal(ngn: nat, market: nat, marginBps: nat)
    requires marginBps <= BASIS && EffectiveRate(market, marginBps) > 0
    ensures EffectiveRate(market, marginBps) * BASIS <= market * (BASIS - marginBps)
    ensures var cents := NgnToUsd(ngn, EffectiveRate(market, marginBps));
            ngn * MILLION * BASIS <= cents * market * (BASIS - marginBps) &&
            ngn * MILLION <= cents * market
  {
    var rate := EffectiveRate(market, marginBps);
    var net := market * (BASIS - marginBps);
    assert net == net / BASIS * BASIS + net % BASIS;
    var cents := NgnToUsd(ngn, rate);
    MulMonotone(ngn * MILLION, cents * rate, BASIS);
    assert cents * rate * BASIS == cents * (rate * BASIS);
    MulMonotone(rate * BASIS, net, cents);
    assert cents * net == cents * market * (BASIS - marginBps);
    MulNatural(cents, market);
    MulMonotone(BASIS - marginBps, BASIS, cents * market);
    assert ngn * MILLION * BASIS <= cents * market * BASIS;
    CancelFactor(ngn * MILLION, cents * market, BASIS);
  }

  /** A share scaled back to naira is at most the order's price plus its part of the fee. */
  lemma OrderShareBound(price: nat, serviceFee: nat, subtotal: nat, total: nat, charged: nat)
    requires subtotal > 0 && total > 0
    ensures OrderShare(price, serviceFee, subtotal, total, charged) * (subtotal * total)
            <= price * ((subtotal + serviceFee) * charged)
  {
    MulPositive(subtotal, total);
    var n := price * (subtotal + serviceFee) * charged;
    var d := subtotal * total;
    assert n == n / d * d + n % d;
    assert n == price * ((subtotal + serviceFee) * charged);
  }

  // ----- The program's decimal expressions, over the reals -----

  function DecimalDown(x: real): real { (x * 100.0).Floor as real / 100.0 }

  function DecimalUp(x: real): real { -((-x * 100.0).Floor as real) / 100.0 }

  function DecimalHalfUp(x: real): real { (x * 100.0 + 0.5).Floor as real / 100.0 }

  function Amount(minor: int): real { minor as real / 100.0 }

  function ToMinorUnits(amount: real): int { (amount * 100.0 + 0.5).Floor }

  /** Conversion is exact on two-decimal amounts, so comparing minor units compares true money. */
  lemma MinorUnitsExact(a: int, b: int)
    ensures ToMinorUnits(Amount(a)) == a
    ensures ToMinorUnits(Amount(a)) == ToMinorUnits(Amount(b)) <==> Amount(a) == Amount(b)
  {
    AmountTimesHundred(a);
    AmountTimesHundred(b);
  }

  lemma AmountTimesHundred(a: int)
    ensures Amount(a) * 100.0 == a as real
    ensures ToMinorUnits(Amount(a)) == a
  {
    var x := a as real;
    assert x / 100.0 * 100.0 == x;
    assert a as real <= x + 0.5 < (a + 1) as real;
  }

  lemma FloorOfQuotient(n: int, d: int)
    requires d > 0
    ensures (n as real / d as real).Floor == n / d
  {
    var q, r := n / d, n % d;
    assert n == q * d + r;
    assert n as real == q as real * d as real + r as real;
    var x := n as real / d as real;
    assert x == q as real + r as real / d as real;
    assert 0.0 <= r as real / d as real < 1.0;
  }

  lemma PercentOfIsDecimal(amount: nat, bps: nat)
    ensures DecimalHalfUp(Amount(amount) * (bps as real / 100.0) / 100.0) == Amount(PercentOf(amount, bps))
  {
    var x := Amount(amount) * (bps as real / 100.0) / 100.0;
    var n := amount * bps;
    assert n as real == amount as real * bps as real;
    assert x * 100.0 == n as real / 10000.0;
    assert x * 100.0 + 0.5 == (2 * n + BASIS) as real / (2 * BASIS) as real;
    FloorOfQuotient(2 * n + BASIS, 2 * BASIS);
    assert 2 * amount * bps == 2 * n;
  }

  lemma NgnToUsdIsDecimal(ngn: nat, rate: nat)
    requires rate > 0
    ensures DecimalUp(Amount(ngn) / (rate as real / MILLION as real)) == Amount(NgnToUsd(ngn, rate))
  {
    var x := Amount(ngn) / (rate as real / MILLION as real);
    var n := ngn * MILLION;
    assert n as real == ngn as real * MILLION as real;
    QuotientOfQuotients(ngn as real, rate as real, MILLION as real);
    assert x * 100.0 == n as real / rate as real;
    assert -x * 100.0 == (0 - n) as real / rate as real;
    FloorOfQuotient(0 - n, rate);
    CeilAsFloor(n, rate);
  }

  function DecimalRateDown(x: real): real { (x * 1000000.0).Floor as real / 1000000.0 }

  lemma EffectiveRateIsDecimal(market: nat, marginBps: nat)
    requires marginBps <= BASIS
    ensures DecimalRateDown(market as real / 1000000.0 * (100.0 - marginBps as real / 100.0) / 100.0)
            == EffectiveRate(market, marginBps) as real / 1000000.0
  {
    var x := market as real / 1000000.0 * (100.0 - marginBps as real / 100.0) / 100.0;
    var n := market * (BASIS - marginBps);
    CastProduct(market, BASIS - marginBps);
    assert x * 1000000.0 == n as real / BASIS as real;
    FloorOfQuotient(n, BASIS);
  }

  lemma QuotientOfQuotients(a: real, b: real, c: real)
    requires b > 0.0 && c > 0.0
    ensures a / 100.0 / (b / c) * 100.0 == a * c / b
  {
    var x := a / 100.0 / (b / c);
    assert x * (b / c) == a / 100.0;
    assert x * b == a / 100.0 * c by {
      assert x * (b / c) * c == x * b;
    }
    assert x * 100.0 * b == a * c;
  }

  lemma MultiplesApart(a: int, b: int, d: nat)
    requires d > 0 && b * d < a * d + d
    ensures b <= a
  {
    if a + 1 <= b {
      MulMonotone(a + 1, b, d);
    }
  }

  lemma CeilAsFloor(n: nat, d: nat)
    requires d > 0
    ensures 0 - (0 - n) / d == CeilDiv(n, d)
  {
    var q := CeilDiv(n, d);
    var m: int := 0 - n;
    var f: int := m / d;
    assert m == f * d + m % d;
    assert n <= (-f) * d < n + d;
    MultiplesApart(q, -f, d);
    MultiplesApart(-f, q, d);
  }

  lemma OrderShareIsDecimal(price: nat, serviceFee: nat, subtotal: nat, total: nat, charged: nat)
    requires subtotal > 0 && total > 0
    ensures DecimalDown(DecimalShare(price, serviceFee, subtotal, total, charged))
            == Amount(OrderShare(price, serviceFee, subtotal, total, charged))
  {
    MulPositive(subtotal, total);
    MulNatural(price, subtotal + serviceFee);
    var n, d := price * (subtotal + serviceFee) * charged, subtotal * total;
    DecimalShareIsQuotient(price, serviceFee, subtotal, total, charged, n, d);
    FloorOfQuotient(n, d);
  }

  // The unrounded amount, in the order the program multiplies and divides.
  function DecimalShare(price: nat, serviceFee: nat, subtotal: nat, total: nat, charged: nat): real
    requires subtotal > 0 && total > 0
  {
    var ngn := Amount(price) + Amount(price) * Amount(serviceFee) / Amount(subtotal);
    ngn * Amount(charged) / Amount(total)
  }

  lemma DecimalShareIsQuotient(price: nat, serviceFee: nat, subtotal: nat, total: nat, charged: nat, n: int, d: int)
    requires subtotal > 0 && total > 0
    requires n == price * (subtotal + serviceFee) * charged && d == subtotal * total && d > 0
    ensures DecimalShare(price, serviceFee, subtotal, total, charged) * 100.0 == n as real / d as real
  {
    CastProducts(price, serviceFee, subtotal, total, charged);
    var p, f, s, t, c := price as real, serviceFee as real, subtotal as real, total as real, charged as real;
    assert n as real / d as real == p * (s + f) * c / (s * t);
    DecimalShareQuotient(p, f, s, t, c);
  }

  lemma CastProducts(p: int, f: int, s: int, t: int, c: int)
    ensures (p * (s + f) * c) as real == p as real * (s as real + f as real) * c as real
    ensures (s * t) as real == s as real * t as real
  {
    assert (s + f) as real == s as real + f as real;
    CastProduct(p, s + f);
    CastProduct(p * (s + f), c);
    CastProduct(s, t);
  }

  lemma CastProduct(a: int, b: int)
    ensures (a * b) as real == a as real * b as real
  {
  }

  lemma DecimalShareQuotient(p: real, f: real, s: real, t: real, c: real)
    requires s > 0.0 && t > 0.0
    ensures (p / 100.0 + p / 100.0 * (f / 100.0) / (s / 100.0)) * (c / 100.0) / (t / 100.0) * 100.0
            == p * (s + f) * c / (s * t)
  {
    var r := f / s;
    assert r * s == f;
    assert p / 100.0 * (f / 100.0) / (s / 100.0) == p / 100.0 * r by {
      assert p / 100.0 * r * (s / 100.0) == p / 100.0 * (f / 100.0);
    }
    var ngn := p / 100.0 + p / 100.0 * r;
    var x := ngn * (c / 100.0) / (t / 100.0);
    assert x * (t / 100.0) == ngn * (c / 100.0);
    assert x * t == ngn * c;
    assert x * 100.0 * t == (p + p * r) * c;
    assert x * 100.0 * (s * t) == x * 100.0 * t * s;
    assert (p + p * r) * c * s == p * (s + r * s) * c;
    assert s * t > 0.0;
  }
}
