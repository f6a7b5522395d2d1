/** Integer money arithmetic: the one place where rational amounts are rounded. */
module Money {
  import opened Shared

  /** Division as big integers do it: toward zero, with a remainder that follows the dividend. */
  function TruncDiv(a: int, b: int): int
    requires 0 < b
  {
    if 0 <= a then a / b else -((-a) / b)
  }

  function TruncRem(a: int, b: int): int
    requires 0 < b
  {
    a - TruncDiv(a, b) * b
  }

  /** `product / den` rounded to the nearest integer, ties to the even one. */
  function HalfEven(product: int, den: int): int
    requires 0 < den
  {
    var quotient := TruncDiv(product, den);
    var remainder := TruncRem(product, den);
    if remainder == 0 then quotient
    else
      var negative := product < 0;
      var twice := 2 * (if negative then -remainder else remainder);
      var away := if negative then quotient - 1 else quotient + 1;
      if den < twice then away
      else if twice < den then quotient
      else if quotient % 2 == 0 then quotient
      else away
  }

  function MulDiv(amount: int, num: int, den: int): Result<int> {
    if den == 0 then Err(Internal)
    else if den < 0 then Ok(HalfEven(amount * -num, -den))
    else Ok(HalfEven(amount * num, den))
  }

  /** `r` is within half a unit of the exact quotient, and even when exactly half a unit away. */
  ghost predicate RoundsHalfEven(r: int, product: int, den: int) {
    && -den <= 2 * (r * den - product) <= den
    && (2 * (r * den - product) == den || 2 * (r * den - product) == -den ==> r % 2 == 0)
  }

  lemma DivAtLeast(n: int, d: int, k: int)
    requires 0 < d
    ensures k <= n / d <==> k * d <= n
  {
    var q := n / d;
    assert n == q * d + n % d;
    if k <= q {
      assert k * d <= q * d;
    } else {
      assert (q + 1) * d <= k * d;
    }
  }

  lemma HalfEvenRounds(product: int, den: int)
    requires 0 < den
    ensures RoundsHalfEven(HalfEven(product, den), product, den)
  {
    var quotient := TruncDiv(product, den);
    var remainder := TruncRem(product, den);
    assert product == quotient * den + remainder;
    assert (quotient + 1) * den == quotient * den + den;
    assert (quotient - 1) * den == quotient * den - den;
    if product < 0 {
      assert -product == ((-product) / den) * den + (-product) % den;
    } else {
      assert product == (product / den) * den + product % den;
    }
  }

  /** Two roundings out of order are adjacent, exact ties of the same product. */
  lemma CrossedRoundings(r: int, s: int, p: int, q: int, den: int)
    requires 0 < den && p <= q && s < r
    requires 2 * (r * den - p) <= den && -den <= 2 * (s * den - q)
    ensures r == s + 1 && p == q && 2 * (r * den - p) == den && 2 * (s * den - q) == -den
  {
    var k := r - s;
    assert k * den == r * den - s * den;
    if 2 <= k {
      MulLe(2, k, den);
      assert false;
    }
  }

  /** Rounding is determined by what it has to achieve. */
  lemma HalfEvenUnique(r: int, product: int, den: int)
    requires 0 < den && RoundsHalfEven(r, product, den)
    ensures r == HalfEven(product, den)
  {
    var s := HalfEven(product, den);
    HalfEvenRounds(product, den);
    if s < r {
      CrossedRoundings(r, s, product, product, den);
    } else if r < s {
      CrossedRoundings(s, r, product, product, den);
    }
  }

  lemma HalfEvenMonotone(p: int, q: int, den: int)
    requires 0 < den && p <= q
    ensures HalfEven(p, den) <= HalfEven(q, den)
  {
    var r, s := HalfEven(p, den), HalfEven(q, den);
    HalfEvenRounds(p, den);
    HalfEvenRounds(q, den);
    if s < r {
      CrossedRoundings(r, s, p, q, den);
    }
  }

  /** Scaling both sides of a comparison by positive factors that match keeps it. */
  lemma RatioComparison(x: int, d: int, y: int, e: int)
    requires 0 < d && 0 < e && x * e == y * d
    ensures (x <= d <==> y <= e) && (-d <= x <==> -e <= y) && (x == d <==> y == e) && (x == -d <==> y == -e)
  {
    MulOrder(x, d, e);
    MulOrder(y, e, d);
    MulOrder(x, -d, e);
    MulOrder(y, -e, d);
  }

  lemma MulOrder(a: int, b: int, c: int)
    requires 0 < c
    ensures a <= b <==> a * c <= b * c
    ensures a == b <==> a * c == b * c
  {
    if a < b {
      MulLe(a + 1, b, c);
    } else if b < a {
      MulLe(b + 1, a, c);
    }
  }

  lemma MulLe(a: int, b: int, c: int)
    requires a <= b && 0 <= c
    ensures a * c <= b * c
  {
  }

  /** Only the ratio matters, not the fraction it is written as. */
  lemma HalfEvenRatio(p: int, d: int, q: int, e: int)
    requires 0 < d && 0 < e && p * e == q * d
    ensures HalfEven(p, d) == HalfEven(q, e)
  {
    var r := HalfEven(p, d);
    HalfEvenRounds(p, d);
    ErrorsMatch(r, p, d, q, e);
    RatioComparison(2 * (r * d - p), d, 2 * (r * e - q), e);
    assert RoundsHalfEven(r, q, e);
    HalfEvenUnique(r, q, e);
  }

  /** The rounding errors of equal fractions are in the same proportion. */
  lemma ErrorsMatch(r: int, p: int, d: int, q: int, e: int)
    requires p * e == q * d
    ensures 2 * (r * d - p) * e == 2 * (r * e - q) * d
  {
    Expand(r, d, p, e);
    Expand(r, e, q, d);
    Commutes(r, d, e);
  }

  lemma Commutes(r: int, d: int, e: int)
    ensures r * d * e == r * e * d
  {
  }

  lemma Expand(r: int, d: int, p: int, e: int)
    ensures 2 * (r * d - p) * e == 2 * (r * d * e) - 2 * (p * e)
  {
  }
}
