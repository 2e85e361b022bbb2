/**
 * The Kalshi trading fee (utils.py `kalshi_fee`): 7% of price times its
 * complement, rounded up to the next whole cent.
 */
module Fees {

  /** The integer ceiling of `n / d`. */
  function CeilDiv(n: int, d: int): (q: int)
    requires d > 0
    ensures d * (q - 1) < n <= d * q
  {
    var q := (n + d - 1) / d;
    assert d * q <= n + d - 1 < d * q + d;
    q
  }

  /** `math.ceil` on an exact real. */
  function Ceil(x: real): (c: int)
    ensures x <= c as real < x + 1.0
  {
    -((-x).Floor)
  }

  /** The fee in dollars on a contract priced `price` dollars. */
  function KalshiFee(price: real): (fee: real)
    ensures 0.07 * price * (1.0 - price) <= fee < 0.07 * price * (1.0 - price) + 0.01
    ensures (fee * 100.0).Floor as real == fee * 100.0
  {
    Ceil(0.07 * price * (1.0 - price) * 100.0) as real / 100.0
  }

  /** The same fee in whole cents, for a price of `c` cents. */
  function KalshiFeeCents(c: int): (f: int)
    ensures 10000 * (f - 1) < 7 * c * (100 - c) <= 10000 * f
  {
    CeilDiv(7 * c * (100 - c), 10000)
  }

  /** Multiplying by a positive factor keeps a strict or weak order. */
  lemma ScaleOrder(a: real, b: real, k: real)
    requires k > 0.0
    ensures a < b <==> a * k < b * k
    ensures a <= b <==> a * k <= b * k
  {
  }

  lemma RealCeilOfQuotient(n: int, d: int)
    requires d > 0
    ensures Ceil(n as real / d as real) == CeilDiv(n, d)
  {
    var q := CeilDiv(n, d);
    CastProduct(d, q - 1);
    CastProduct(d, q);
    QuotientBetween(n as real, d as real, (q - 1) as real, q as real);
    CeilBetween(n as real / d as real, q);
  }

  /** Dividing bounds by a positive divisor. */
  lemma QuotientBetween(n: real, k: real, lo: real, hi: real)
    requires k > 0.0 && lo * k < n <= hi * k
    ensures lo < n / k <= hi
  {
    var x := n / k;
    assert x * k == n;
    ScaleOrder(lo, x, k);
    ScaleOrder(x, hi, k);
  }

  /** A real in `(q - 1, q]` rounds up to `q`. */
  lemma CeilBetween(x: real, q: int)
    requires (q - 1) as real < x <= q as real
    ensures Ceil(x) == q
  {
    var c := Ceil(x);
    assert (q - 1) as real < c as real < (q + 1) as real;
  }

  /** The cast of an integer product is the product of the casts. */
  lemma CastProduct(d: int, q: int)
    ensures (d * q) as real == q as real * d as real
  {
  }

  /** The fee's integer argument, with the 7 factored out. */
  lemma CentsProduct(c: int)
    ensures 7 * c * (100 - c) == 7 * (c * (100 - c))
  {
  }

  lemma FeeArgument(p: real)
    ensures 0.07 * p * (1.0 - p) * 100.0 == 7.0 * (p * (1.0 - p))
  {
  }

  lemma ProductAtCents(c: int)
    ensures (c as real / 100.0) * (1.0 - c as real / 100.0) == (c * (100 - c)) as real / 10000.0
  {
    var a := c as real;
    assert 1.0 - a / 100.0 == (100.0 - a) / 100.0;
    assert (c * (100 - c)) as real == a * (100.0 - a);
  }

  /** The fee's real argument at a whole-cent price, as an integer over 10000. */
  lemma ArgumentAtCents(c: int)
    ensures 0.07 * (c as real / 100.0) * (1.0 - c as real / 100.0) * 100.0
         == (7 * (c * (100 - c))) as real / 10000.0
  {
    var p := c as real / 100.0;
    var v := c * (100 - c);
    FeeArgument(p);
    ProductAtCents(c);
    assert 7.0 * (p * (1.0 - p)) == 7.0 * (v as real / 10000.0);
  }

  /** A price whose fee argument is `n / 10000` pays `ceil(n / 10000)` cents. */
  lemma FeeOfQuotient(p: real, n: int)
    requires 0.07 * p * (1.0 - p) * 100.0 == n as real / 10000.0
    ensures KalshiFee(p) == CeilDiv(n, 10000) as real / 100.0
  {
    RealCeilOfQuotient(n, 10000);
  }

  /** On a whole-cent price the dollar fee is the integer formula, exactly. */
  lemma KalshiFeeAtCents(c: int)
    ensures KalshiFee(c as real / 100.0) == KalshiFeeCents(c) as real / 100.0
  {
    ArgumentAtCents(c);
    FeeOfQuotient(c as real / 100.0, 7 * (c * (100 - c)));
    CentsProduct(c);
  }

  /** Price times complement, in cents squared: at most 2500, and 0 only at the ends. */
  lemma ProductRange(c: int)
    requires 0 <= c <= 100
    ensures 0 <= c * (100 - c) <= 2500
    ensures c * (100 - c) == 0 <==> c == 0 || c == 100
  {
    var e := c - 50;
    assert c * (100 - c) == (50 + e) * (50 - e) == 2500 - e * e;
    assert e * e >= 0;
    if c != 0 && c != 100 {
      PositiveProduct(c, 100 - c);
    }
  }

  lemma PositiveProduct(a: int, b: int)
    requires a >= 1 && b >= 1
    ensures a * b >= b
  {
    assert a * b == (a - 1) * b + b;
    assert (a - 1) * b >= 0;
  }

  /** For a price within 0..100 cents the fee is 0, 1 or 2 cents, and 0 only at the ends. */
  lemma FeeCentsBounds(c: int)
    requires 0 <= c <= 100
    ensures 0 <= KalshiFeeCents(c) <= 2
    ensures KalshiFeeCents(c) == 0 <==> c == 0 || c == 100
  {
    ProductRange(c);
    CentsProduct(c);
  }

  lemma FeeCentsSymmetric(c: int)
    ensures KalshiFeeCents(c) == KalshiFeeCents(100 - c)
  {
    assert c * (100 - c) == (100 - c) * (100 - (100 - c));
  }

  /** The dollar fee is symmetric about a price of one half. */
  lemma KalshiFeeSymmetric(price: real)
    ensures KalshiFee(price) == KalshiFee(1.0 - price)
  {
    assert price * (1.0 - price) == (1.0 - price) * (1.0 - (1.0 - price));
    assert 0.07 * price * (1.0 - price) * 100.0 == 0.07 * (1.0 - price) * (1.0 - (1.0 - price)) * 100.0;
  }

  /** The fee grows as the price moves towards one half. */
  lemma FeeCentsMonotone(a: int, b: int)
    requires 0 <= a <= b <= 50
    ensures KalshiFeeCents(a) <= KalshiFeeCents(b)
  {
    ProductMonotone(a, b);
    CentsProduct(a);
    CentsProduct(b);
  }

  /** Price times complement grows on 0..50 cents. */
  lemma ProductMonotone(a: int, b: int)
    requires 0 <= a <= b <= 50
    ensures a * (100 - a) <= b * (100 - b)
  {
    assert b * (100 - b) - a * (100 - a) == (b - a) * (100 - a - b);
    NonNegativeProduct(b - a, 100 - a - b);
  }

  lemma NonNegativeProduct(x: int, y: int)
    requires x >= 0 && y >= 0
    ensures x * y >= 0
  {
  }

  /**
   * For 1..99 cents the exact fee amount is never a whole number of cents,
   * so the rounding up always adds a fraction of a cent.
   */
  lemma FeeNeverWholeCents(c: int)
    requires 1 <= c <= 99
    ensures (7 * c * (100 - c)) % 10000 != 0
  {
    ProductRange(c);
    CentsProduct(c);
  }

  /** Worked values: 40 cents pays 2 cents (1.68 rounded up), 10 cents pays 1, 50 cents pays 2. */
  lemma FeeExamples()
    ensures KalshiFeeCents(40) == 2 && KalshiFee(0.40) == 0.02
    ensures KalshiFeeCents(10) == 1 && KalshiFeeCents(50) == 2
  {
    KalshiFeeAtCents(40);
    assert 40 as real / 100.0 == 0.40;
  }
}
