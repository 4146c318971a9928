/** Rounding of prices to cents (app/pricing_client.py, and the gap tax of app/routers/booking.py). */
module Pricing {
  import opened Model

  /** A percentage num/den. */
  datatype Percent = Percent(num: int, den: nat)
  {
    predicate Valid() { den > 0 }
    /** The factor 1 + p/100 as a fraction Up/Down. */
    function Up(): int { 100 * den + num }
    function Down(): nat { 100 * den }
  }

  /** The quotient num/den rounded to an integer, ties to the even neighbour. */
  function RoundHalfEven(num: int, den: int): int
    requires den > 0
  {
    var q, r := num / den, num % den;
    if 2 * r < den then q else if 2 * r > den then q + 1 else if q % 2 == 0 then q else q + 1
  }

  function Abs(x: int): nat { if x < 0 then -x else x }

  /** The average price per night of a stay. */
  function Average(total: Cents, nights: int): Cents
    requires nights > 0
  {
    RoundHalfEven(total, nights)
  }

  /** A price with the gap percentage applied. */
  function Taxed(price: Cents, gap: Percent): Cents
    requires gap.Valid()
  {
    RoundHalfEven(price * gap.Up(), gap.Down())
  }

  /** Rounding moves a value by at most a half. */
  lemma RoundingIsClose(num: int, den: int)
    requires den > 0
    ensures 2 * Abs(den * RoundHalfEven(num, den) - num) <= den
  {
    var q, r := num / den, num % den;
    assert num == den * q + r;
    assert den * (q + 1) == den * q + den;
  }

  /** Exactly half way, the even neighbour is taken. */
  lemma RoundingOfTie(num: int, den: int, k: int)
    requires den > 0 && 2 * num == den * (2 * k + 1)
    ensures RoundHalfEven(num, den) == if k % 2 == 0 then k else k + 1
  {
    var q, r := num / den, num % den;
    assert num == den * q + r;
    assert 2 * r == den * (2 * (k - q) + 1) by {
      assert den * (2 * k + 1) == den * (2 * (k - q) + 1) + den * (2 * q);
      assert den * (2 * q) == 2 * (den * q);
    }
    Sandwich(den, k - q, r);
  }

  lemma Sandwich(den: int, j: int, r: int)
    requires den > 0 && 2 * r == den * (2 * j + 1) && 0 <= r < den
    ensures j == 0
  {
    if j >= 1 {
      Scaled(den, 3, 2 * j + 1);
    } else if j <= -1 {
      Scaled(den, 2 * j + 1, -1);
    }
  }

  lemma Scaled(k: int, x: int, y: int)
    requires k >= 0 && x <= y
    ensures k * x <= k * y
  {
  }

  /** A larger fraction never rounds to a smaller integer. */
  lemma RoundingIsMonotone(a: int, b: int, c: int, d: int)
    requires b > 0 && d > 0 && a * d <= c * b
    ensures RoundHalfEven(a, b) <= RoundHalfEven(c, d)
  {
    var r, s := RoundHalfEven(a, b), RoundHalfEven(c, d);
    RoundingIsClose(a, b);
    RoundingIsClose(c, d);
    if r > s {
      assert 2 * a >= b * (2 * r - 1) by { assert b * (2 * r - 1) == 2 * (b * r) - b; }
      assert 2 * c <= d * (2 * s + 1) by { assert d * (2 * s + 1) == 2 * (d * s) + d; }
      TiesMeet(a, b, c, d, r, s);
      RoundingOfTie(a, b, s);
      RoundingOfTie(c, d, s);
      assert false;
    }
  }

  lemma TiesMeet(a: int, b: int, c: int, d: int, r: int, s: int)
    requires b > 0 && d > 0 && a * d <= c * b && r > s
    requires 2 * a >= b * (2 * r - 1) && 2 * c <= d * (2 * s + 1)
    ensures 2 * a == b * (2 * s + 1) && 2 * c == d * (2 * s + 1)
  {
    var k := 2 * s + 1;
    assert 2 * a >= b * k by { assert b * (2 * r - 1) >= b * k; }
    assert 2 * a * d >= b * k * d;
    assert 2 * c * b <= d * k * b;
    assert b * k * d == d * k * b;
    assert (2 * a) * d == 2 * (a * d) && (2 * c) * b == 2 * (c * b);
    assert (2 * a - b * k) * d == 0;
    assert (2 * c - d * k) * b == 0;
  }

  /** The stored average times the nights is off the stored total by at most half a cent a night. */
  lemma DriftBeforeTax(total: Cents, nights: int)
    requires nights > 0
    ensures 2 * Abs(nights * Average(total, nights) - total) <= nights
  {
    RoundingIsClose(total, nights);
  }

  /** The same after the gap tax was applied to both: at most n/2 * (1 + |m|) + 1/2 cents, where
      m is the factor; stated multiplied by twice the factor's denominator. */
  lemma DriftAfterTax(total: Cents, nights: int, gap: Percent)
    requires nights > 0 && gap.Valid()
    ensures var avg := Average(total, nights);
      2 * gap.Down() * Abs(nights * Taxed(avg, gap) - Taxed(total, gap))
        <= nights * (gap.Down() + Abs(gap.Up())) + gap.Down()
  {
    var avg, m, d := Average(total, nights), gap.Up(), gap.Down();
    var avg', total' := Taxed(avg, gap), Taxed(total, gap);
    RoundingIsClose(avg * m, d);
    RoundingIsClose(total * m, d);
    DriftBeforeTax(total, nights);
    ErrorsAdd(nights, m, d, avg, avg', total, total');
  }

  /** Three rounding errors, of the average, of the taxed average and of the taxed total, add up. */
  lemma ErrorsAdd(n: int, m: int, d: int, avg: int, avg': int, total: int, total': int)
    requires n > 0 && d > 0
    requires 2 * Abs(n * avg - total) <= n
    requires 2 * Abs(d * avg' - avg * m) <= d
    requires 2 * Abs(d * total' - total * m) <= d
    ensures 2 * d * Abs(n * avg' - total') <= n * (d + Abs(m)) + d
  {
    var x, y, z := d * avg' - avg * m, d * total' - total * m, n * avg - total;
    var gap := n * avg' - total';
    ErrorIdentity(n, m, d, avg, avg', total, total');
    ProductBound(n, x, d);
    ProductBound(m, z, n);
    LinearSum(n * x, m * z, y, d * gap, n * d, Abs(m) * n, d);
    AbsProduct(d, gap);
    Regroup(n, d, Abs(m), Abs(gap));
  }

  lemma LinearSum(p: int, q: int, y: int, sum: int, boundP: int, boundQ: int, boundY: int)
    requires sum == p + q - y
    requires 2 * Abs(p) <= boundP && 2 * Abs(q) <= boundQ && 2 * Abs(y) <= boundY
    ensures 2 * Abs(sum) <= boundP + boundQ + boundY
  {
  }

  lemma Regroup(n: int, d: int, m: int, gap: int)
    ensures n * (d + m) == n * d + m * n
    ensures 2 * d * gap == 2 * (d * gap)
  {
  }

  lemma ErrorIdentity(n: int, m: int, d: int, avg: int, avg': int, total: int, total': int)
    ensures d * (n * avg' - total') == n * (d * avg' - avg * m) + m * (n * avg - total) - (d * total' - total * m)
  {
    assert n * (d * avg' - avg * m) == n * (d * avg') - n * (avg * m);
    assert m * (n * avg - total) == m * (n * avg) - m * total;
    assert d * (n * avg' - total') == d * (n * avg') - d * total';
    assert d * (n * avg') == n * (d * avg');
    assert n * (avg * m) == m * (n * avg);
  }

  lemma AbsProduct(a: int, x: int)
    ensures Abs(a * x) == Abs(a) * Abs(x)
  {
  }

  lemma ProductBound(a: int, x: int, bound: int)
    requires 2 * Abs(x) <= bound
    ensures 2 * Abs(a * x) <= Abs(a) * bound
  {
    AbsProduct(a, x);
    assert Abs(a) * (2 * Abs(x)) <= Abs(a) * bound;
  }

  /** The taxed price is the price with `num / den` per cent added, to the nearest cent; no percentage
      leaves the price as it is. */
  lemma TaxIsTheSurcharge(price: Cents, gap: Percent)
    requires gap.den > 0
    ensures 2 * Abs(100 * gap.den * Taxed(price, gap) - price * (100 * gap.den + gap.num)) <= 100 * gap.den
    ensures gap.num == 0 ==> Taxed(price, gap) == price
  {
    RoundingIsClose(price * gap.Up(), gap.Down());
    if gap.num == 0 {
      var d, x := gap.Down(), Taxed(price, gap);
      assert d * x - price * d == d * (x - price);
      NearMultiple(d, x - price);
    }
  }

  lemma NearMultiple(d: int, k: int)
    requires d > 0 && 2 * Abs(d * k) <= d
    ensures k == 0
  {
    if k >= 1 {
      Scaled(d, 1, k);
    } else if k <= -1 {
      Scaled(d, k, -1);
    }
  }

  /** For a non-negative price a larger percentage never gives a smaller price. */
  lemma TaxIsMonotone(price: Cents, low: Percent, high: Percent)
    requires price >= 0 && low.Valid() && high.Valid()
    requires low.num * high.den <= high.num * low.den
    ensures Taxed(price, low) <= Taxed(price, high)
  {
    assert low.Up() * high.Down() <= high.Up() * low.Down() by {
      assert low.Up() * high.Down() == 10000 * (low.den * high.den) + 100 * (low.num * high.den);
      assert high.Up() * low.Down() == 10000 * (low.den * high.den) + 100 * (high.num * low.den);
    }
    assert (price * low.Up()) * high.Down() == price * (low.Up() * high.Down());
    assert (price * high.Up()) * low.Down() == price * (high.Up() * low.Down());
    RoundingIsMonotone(price * low.Up(), low.Down(), price * high.Up(), high.Down());
  }
}
