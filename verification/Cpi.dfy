/**
 * The consumer price index: price relatives of a fixed basket combined as one exact rational
 * over a common multiple of the base prices, and rounded once.
 */
module Cpi {
  import opened Shared
  import opened Money
  import Ordering

  const CPI_BASE_INDEX: int := 1_000
  const CPI_BASKET_WEIGHT_TOTAL_BP: int := 10_000

  /** One SKU's weight and prices; a price that is not a positive integer is given as zero. */
  datatype Item = Item(sku: string, weightBp: int, basePrice: int, currentPrice: int) {
    predicate Accepted() {
      sku != "" && 0 <= weightBp && SafeInteger(weightBp) && 0 < basePrice && 0 < currentPrice
    }
  }

  /******* Greatest common divisors and common multiples *******/

  function Gcd(a: nat, b: nat): nat
    decreases b
  {
    if b == 0 then a else Gcd(b, a % b)
  }

  method GreatestCommonDivisor(left: nat, right: nat) returns (a: nat)
    ensures a == Gcd(left, right)
  {
    a := left;
    var b: nat := right;
    while b != 0
      invariant Gcd(a, b) == Gcd(left, right)
      decreases b
    {
      var remainder: nat := a % b;
      a := b;
      b := remainder;
    }
  }

  lemma MultipleMod(k: int, d: int)
    requires 0 < d
    ensures (k * d) % d == 0 && (k * d) / d == k
  {
    var n := k * d;
    assert n == (n / d) * d + n % d;
    var e := k - n / d;
    assert e * d == n % d;
    if 0 < e {
      MulLe(1, e, d);
    } else if e < 0 {
      MulLe(e, -1, d);
    }
  }

  /** Sums and differences of multiples are multiples. */
  lemma CombinedMod(x: int, y: int, k: int, d: int)
    requires 0 < d && x % d == 0 && y % d == 0
    ensures (x + k * y) % d == 0
  {
    var m := x / d + k * (y / d);
    assert x == (x / d) * d && y == (y / d) * d;
    assert m * d == (x / d) * d + k * ((y / d) * d);
    MultipleMod(m, d);
  }

  /** Euclid's result is positive and divides both numbers. */
  lemma {:induction false} GcdDivides(a: nat, b: nat)
    requires 0 < a || 0 < b
    ensures 0 < Gcd(a, b) && a % Gcd(a, b) == 0 && b % Gcd(a, b) == 0
    decreases b
  {
    if b != 0 {
      GcdDivides(b, a % b);
      CombinedMod(a % b, b, a / b, Gcd(a, b));
      assert a % b + (a / b) * b == a;
    }
  }

  /** Every common divisor divides Euclid's result, so it is the greatest. */
  lemma {:induction false} GcdIsGreatest(a: nat, b: nat, d: int)
    requires 0 < d && a % d == 0 && b % d == 0
    ensures Gcd(a, b) % d == 0
    ensures 0 < a || 0 < b ==> d <= Gcd(a, b)
    decreases b
  {
    if b != 0 {
      CombinedMod(a, b, -(a / b), d);
      assert a + -(a / b) * b == a % b;
      GcdIsGreatest(b, a % b, d);
    } else if 0 < a {
      assert a == (a / d) * d;
      MulOrder(0, a / d, d);
      MulLe(1, a / d, d);
    }
  }

  function Lcm(left: int, right: int): int
    requires 0 < left && 0 < right
  {
    GcdDivides(left, right);
    (left / Gcd(left, right)) * right
  }

  lemma LcmIsCommonMultiple(left: int, right: int)
    requires 0 < left && 0 < right
    ensures 0 < Lcm(left, right) && Lcm(left, right) % left == 0 && Lcm(left, right) % right == 0
  {
    GcdDivides(left, right);
    var g := Gcd(left, right);
    var a, b := left / g, right / g;
    assert left == a * g && right == b * g;
    assert a * (b * g) == b * (a * g);
    MultipleMod(b, left);
    MultipleMod(a, right);
    if a <= 0 {
      MulLe(a, 0, g);
    }
    MulLe(1, a, right);
  }

  /** The greatest common divisor is a combination of the two numbers. */
  lemma {:induction false} GcdIsACombination(a: nat, b: nat) returns (x: int, y: int)
    ensures Gcd(a, b) == x * a + y * b
    decreases b
  {
    if b == 0 {
      x, y := 1, 0;
    } else {
      var u, v := GcdIsACombination(b, a % b);
      x, y := v, u - v * (a / b);
      StepBack(a, b, u, v);
    }
  }

  lemma StepBack(a: nat, b: nat, u: int, v: int)
    requires b != 0
    ensures u * b + v * (a % b) == v * a + (u - v * (a / b)) * b
  {
    var q := a / b;
    assert a % b == a - q * b;
    assert v * (a - q * b) == v * a - v * (q * b);
    assert (u - v * q) * b == u * b - v * q * b;
    assert v * (q * b) == v * q * b;
  }

  /** No common multiple is left out: each is a multiple of the least one. */
  lemma LcmIsLeast(left: int, right: int, m: int)
    requires 0 < left && 0 < right && m % left == 0 && m % right == 0
    ensures 0 < Lcm(left, right) && m % Lcm(left, right) == 0
  {
    GcdDivides(left, right);
    LcmIsCommonMultiple(left, right);
    var g, least := Gcd(left, right), Lcm(left, right);
    var x, y := GcdIsACombination(left, right);
    var k := x * (m / right) + y * (m / left);
    assert left == (left / g) * g;
    assert least * g == left * right by {
      LcmTimesGcd(left / g, g, right);
    }
    CombinedMultiple(x, y, left, right, m / left, m / right, m);
    MultipleOfLeast(m, k, least, g, left * right);
  }

  lemma MultipleOfLeast(m: int, k: int, least: int, g: int, product: int)
    requires 0 < g && 0 < least && m * g == k * product && product == least * g
    ensures m % least == 0
  {
    assert k * (least * g) == k * least * g;
    CancelFactor(m, k * least, g);
    MultipleMod(k, least);
  }

  lemma LcmTimesGcd(a: int, g: int, right: int)
    ensures a * right * g == a * g * right
  {
  }

  lemma CombinedMultiple(x: int, y: int, left: int, right: int, p: int, q: int, m: int)
    requires m == p * left && m == q * right
    ensures m * (x * left + y * right) == (x * q + y * p) * (left * right)
  {
    assert m * (x * left + y * right) == x * left * m + y * right * m;
    assert x * left * m == x * left * (q * right) == x * q * (left * right);
    assert y * right * m == y * right * (p * left) == y * p * (left * right);
    assert (x * q + y * p) * (left * right) == x * q * (left * right) + y * p * (left * right);
  }

  lemma CancelFactor(a: int, b: int, g: int)
    requires 0 < g && a * g == b * g
    ensures a == b
  {
    MulOrder(a, b, g);
  }

  /******* The index *******/

  predicate AllAccepted(items: seq<Item>) {
    && (forall i | 0 <= i < |items| :: items[i].Accepted())
    && (forall i, j | 0 <= i < j < |items| :: items[i].sku != items[j].sku)
  }

  function TotalWeight(items: seq<Item>): int {
    if items == [] then 0 else TotalWeight(items[..|items| - 1]) + items[|items| - 1].weightBp
  }

  ghost predicate Prices(items: seq<Item>) {
    forall i | 0 <= i < |items| :: 0 < items[i].basePrice
  }

  /** The running common multiple of the base prices. */
  function CommonBase(items: seq<Item>): (c: int)
    requires Prices(items)
    ensures 0 < c
  {
    if items == [] then 1
    else
      var earlier := CommonBase(items[..|items| - 1]);
      LcmIsCommonMultiple(earlier, items[|items| - 1].basePrice);
      Lcm(earlier, items[|items| - 1].basePrice)
  }

  /** The weighted price relatives over the denominator `common`. */
  function Weighted(items: seq<Item>, common: int): int
    requires Prices(items)
  {
    if items == [] then 0
    else
      var last := items[|items| - 1];
      Weighted(items[..|items| - 1], common) + last.currentPrice * last.weightBp * (common / last.basePrice)
  }

  function FixedBasketCpiIndex(items: seq<Item>): Result<int> {
    if items == [] || !AllAccepted(items) || TotalWeight(items) != CPI_BASKET_WEIGHT_TOTAL_BP then Err(ValidationFailed)
    else MulDiv(Weighted(items, CommonBase(items)), CPI_BASE_INDEX, CommonBase(items) * CPI_BASKET_WEIGHT_TOTAL_BP)
  }

  method ComputeCpiIndex(items: seq<Item>) returns (index: Result<int>)
    ensures index == FixedBasketCpiIndex(items)
  {
    if items == [] {
      return Err(ValidationFailed);
    }
    var accepted, totalWeight, common := ParseBasket(items);
    if !accepted || totalWeight != CPI_BASKET_WEIGHT_TOTAL_BP {
      return Err(ValidationFailed);
    }
    var numerator := 0;
    for i := 0 to |items|
      invariant numerator == Weighted(items[..i], common)
    {
      assert items[..i + 1][..i] == items[..i];
      numerator := numerator + items[i].currentPrice * items[i].weightBp * (common / items[i].basePrice);
    }
    assert items[..|items|] == items;
    index := MulDiv(numerator, CPI_BASE_INDEX, common * CPI_BASKET_WEIGHT_TOTAL_BP);
  }

  lemma ItemIsParsed(items: seq<Item>, i: nat)
    requires i < |items| && AllAccepted(items[..i]) && items[i].Accepted()
    requires forall k | 0 <= k < i :: items[k].sku != items[i].sku
    ensures AllAccepted(items[..i + 1])
    ensures TotalWeight(items[..i + 1]) == TotalWeight(items[..i]) + items[i].weightBp
    ensures CommonBase(items[..i + 1]) == Lcm(CommonBase(items[..i]), items[i].basePrice)
  {
    assert items[..i + 1][..i] == items[..i];
    assert forall k | 0 <= k < i :: items[..i + 1][k] == items[..i][k];
  }

  /** Checks the items one by one while adding up weights and extending the common base price. */
  method ParseBasket(items: seq<Item>) returns (accepted: bool, totalWeight: int, common: int)
    ensures accepted == AllAccepted(items)
    ensures accepted ==> totalWeight == TotalWeight(items) && common == CommonBase(items)
  {
    var seen: set<string> := {};
    totalWeight, common := 0, 1;
    for i := 0 to |items|
      invariant AllAccepted(items[..i])
      invariant forall sku :: sku in seen <==> exists k | 0 <= k < i :: items[k].sku == sku
      invariant totalWeight == TotalWeight(items[..i])
      invariant 0 < common == CommonBase(items[..i])
    {
      var item := items[i];
      if item.sku == "" || item.sku in seen {
        return false, totalWeight, common;
      }
      if !item.Accepted() {
        return false, totalWeight, common;
      }
      ItemIsParsed(items, i);
      seen := seen + {item.sku};
      totalWeight := totalWeight + item.weightBp;
      GcdDivides(common, item.basePrice);
      var divisor := GreatestCommonDivisor(common, item.basePrice);
      common := (common / divisor) * item.basePrice;
    }
    assert items[..|items|] == items;
    accepted := true;
  }

  /******* One exact rational, rounded once *******/

  ghost predicate CommonMultiple(items: seq<Item>, c: int) {
    0 < c && Prices(items) && forall i | 0 <= i < |items| :: c % items[i].basePrice == 0
  }

  lemma ModChain(c: int, m: int, d: int)
    requires 0 < d && 0 < m && c % m == 0 && m % d == 0
    ensures c % d == 0
  {
    assert c == (c / m) * m && m == (m / d) * d;
    assert c == ((c / m) * (m / d)) * d;
    MultipleMod((c / m) * (m / d), d);
  }

  /** The running multiple is divisible by every base price seen. */
  lemma {:induction false} CommonBaseIsCommonMultiple(items: seq<Item>)
    requires Prices(items)
    ensures CommonMultiple(items, CommonBase(items))
  {
    if items != [] {
      var earlier := items[..|items| - 1];
      CommonBaseIsCommonMultiple(earlier);
      var last := items[|items| - 1].basePrice;
      LcmIsCommonMultiple(CommonBase(earlier), last);
      forall i | 0 <= i < |items| ensures CommonBase(items) % items[i].basePrice == 0 {
        if i < |items| - 1 {
          assert earlier[i] == items[i];
          ModChain(CommonBase(items), CommonBase(earlier), items[i].basePrice);
        }
      }
    }
  }

  /** It is the least one: every common multiple of the base prices is a multiple of it. */
  lemma {:induction false} CommonBaseIsLeast(items: seq<Item>, c: int)
    requires CommonMultiple(items, c)
    ensures c % CommonBase(items) == 0
  {
    if items != [] {
      var shorter, last := items[..|items| - 1], items[|items| - 1];
      assert items[|items| - 1] == last;
      CommonBaseIsLeast(shorter, c);
      LcmIsLeast(CommonBase(shorter), last.basePrice, c);
    }
  }

  /** There is an index exactly for a basket of usable, different items whose weights add up to 100%. */
  lemma IndexedExactlyWhen(items: seq<Item>)
    ensures FixedBasketCpiIndex(items).Ok? <==>
              && (forall item | item in items ::
                    && item.sku != "" && 0 <= item.weightBp < 0x20_0000_0000_0000
                    && 1 <= item.basePrice && 1 <= item.currentPrice)
              && (forall i, j | 0 <= i < |items| && 0 <= j < |items| && i != j :: items[i].sku != items[j].sku)
              && TotalWeight(items) == 10_000
  {
    if AllAccepted(items) {
      forall i, j | 0 <= i < |items| && 0 <= j < |items| && i != j ensures items[i].sku != items[j].sku {
        if j < i {
          assert items[j].sku != items[i].sku;
        }
      }
    }
  }

  lemma TermScales(factor: int, base: int, c: int, d: int)
    requires 0 < base && c % base == 0 && d % base == 0
    ensures factor * (c / base) * d == factor * (d / base) * c
  {
    var p, q := c / base, d / base;
    assert c == p * base && d == q * base;
    assert factor * p * (q * base) == factor * q * (p * base);
  }

  /** The weighted sum is proportional to the common multiple it is taken over. */
  lemma {:induction false} WeightedScales(items: seq<Item>, c: int, d: int)
    requires CommonMultiple(items, c) && CommonMultiple(items, d)
    ensures Weighted(items, c) * d == Weighted(items, d) * c
  {
    if items != [] {
      var last := items[|items| - 1];
      WeightedScales(items[..|items| - 1], c, d);
      TermScales(last.currentPrice * last.weightBp, last.basePrice, c, d);
    }
  }

  /** The index is the same over every common multiple of the base prices. */
  lemma IndexOverAnyCommonMultiple(items: seq<Item>, c: int)
    requires FixedBasketCpiIndex(items).Ok? && CommonMultiple(items, c)
    ensures FixedBasketCpiIndex(items) ==
            Ok(HalfEven(Weighted(items, c) * CPI_BASE_INDEX, c * CPI_BASKET_WEIGHT_TOTAL_BP))
  {
    var b := CommonBase(items);
    CommonBaseIsCommonMultiple(items);
    WeightedScales(items, b, c);
    SameRatio(Weighted(items, b), b, Weighted(items, c), c);
  }

  lemma SameRatio(p: int, b: int, q: int, c: int)
    requires 0 < b && 0 < c && p * c == q * b
    ensures HalfEven(p * CPI_BASE_INDEX, b * CPI_BASKET_WEIGHT_TOTAL_BP)
            == HalfEven(q * CPI_BASE_INDEX, c * CPI_BASKET_WEIGHT_TOTAL_BP)
  {
    Scaled(p, c);
    Scaled(q, b);
    HalfEvenRatio(p * CPI_BASE_INDEX, b * CPI_BASKET_WEIGHT_TOTAL_BP, q * CPI_BASE_INDEX, c * CPI_BASKET_WEIGHT_TOTAL_BP);
  }

  lemma Scaled(p: int, c: int)
    ensures (p * CPI_BASE_INDEX) * (c * CPI_BASKET_WEIGHT_TOTAL_BP) == 10_000_000 * (p * c)
  {
  }

  /** The exact weighted sum of price relatives, in basis points. */
  ghost function ExactRelative(items: seq<Item>): real
    requires Prices(items)
  {
    if items == [] then 0.0
    else
      var last := items[|items| - 1];
      ExactRelative(items[..|items| - 1]) + (last.weightBp * last.currentPrice) as real / last.basePrice as real
  }

  lemma TermIsExact(factor: int, base: int, c: int)
    requires 0 < base && c % base == 0
    ensures (factor * (c / base)) as real == c as real * (factor as real / base as real)
  {
    var k := c / base;
    assert c == k * base;
    var f, b := factor as real, base as real;
    assert c as real == k as real * b;
    assert k as real * b * (f / b) == k as real * f;
    assert (factor * k) as real == f * k as real;
  }

  lemma {:induction false} WeightedIsExact(items: seq<Item>, c: int)
    requires CommonMultiple(items, c)
    ensures Weighted(items, c) as real == c as real * ExactRelative(items)
  {
    if items != [] {
      var last := items[|items| - 1];
      WeightedIsExact(items[..|items| - 1], c);
      TermIsExact(last.weightBp * last.currentPrice, last.basePrice, c);
      assert last.currentPrice * last.weightBp * (c / last.basePrice) == last.weightBp * last.currentPrice * (c / last.basePrice);
      assert c as real * (ExactRelative(items[..|items| - 1]) + (last.weightBp * last.currentPrice) as real / last.basePrice as real)
             == c as real * ExactRelative(items[..|items| - 1])
                + c as real * ((last.weightBp * last.currentPrice) as real / last.basePrice as real);
    }
  }

  /** The index is the exact rational index, ten per cent of the weighted relatives, rounded once half-even. */
  lemma IndexIsExactRationalRounded(items: seq<Item>)
    requires FixedBasketCpiIndex(items).Ok?
    ensures var index := FixedBasketCpiIndex(items).value as real;
            var exact := ExactRelative(items) / 10.0;
            && -0.5 <= index - exact <= 0.5
            && (index - exact == 0.5 || index - exact == -0.5 ==> FixedBasketCpiIndex(items).value % 2 == 0)
  {
    var b := CommonBase(items);
    CommonBaseIsCommonMultiple(items);
    WeightedIsExact(items, b);
    IndexOverAnyCommonMultiple(items, b);
    RoundedIsNear(FixedBasketCpiIndex(items).value, Weighted(items, b), b, ExactRelative(items));
  }

  lemma RoundedIsNear(r: int, weighted: int, common: int, exact: real)
    requires 0 < common && weighted as real == common as real * exact
    requires r == HalfEven(weighted * CPI_BASE_INDEX, common * CPI_BASKET_WEIGHT_TOTAL_BP)
    ensures -0.5 <= r as real - exact / 10.0 <= 0.5
    ensures r as real - exact / 10.0 == 0.5 || r as real - exact / 10.0 == -0.5 ==> r % 2 == 0
  {
    var product, den := weighted * CPI_BASE_INDEX, common * CPI_BASKET_WEIGHT_TOTAL_BP;
    HalfEvenRounds(product, den);
    var gap := 2 * (r * den - product);
    var x := r as real - exact / 10.0;
    GapIsExact(r, weighted, common, exact);
    RealBound(gap as real, den as real, x);
  }

  lemma GapIsExact(r: int, weighted: int, common: int, exact: real)
    requires weighted as real == common as real * exact
    ensures (2 * (r * (common * 10_000) - weighted * 1_000)) as real
            == 2.0 * (common * 10_000) as real * (r as real - exact / 10.0)
  {
    var c, rr := common as real, r as real;
    assert (r * common) as real == rr * c;
    assert (2 * (r * (common * 10_000) - weighted * 1_000)) as real == 20000.0 * (r * common) as real - 2000.0 * weighted as real;
    assert 2.0 * (common * 10_000) as real * (rr - exact / 10.0) == 20000.0 * (c * rr) - 2000.0 * (c * exact);
  }

  lemma RealBound(gap: real, den: real, x: real)
    requires 0.0 < den && gap == 2.0 * den * x
    ensures -den <= gap <= den ==> -0.5 <= x <= 0.5
    ensures x == 0.5 ==> gap == den
    ensures x == -0.5 ==> gap == -den
  {
    if 0.5 < x {
      assert den * (2.0 * x - 1.0) > 0.0;
    }
    if x < -0.5 {
      assert den * (-1.0 - 2.0 * x) > 0.0;
    }
  }

  /******* Consequences *******/

  lemma WeightedConcat(xs: seq<Item>, x: Item, c: int)
    requires Prices(xs) && 0 < x.basePrice
    ensures Weighted(xs + [x], c) == Weighted(xs, c) + x.currentPrice * x.weightBp * (c / x.basePrice)
    ensures TotalWeight(xs + [x]) == TotalWeight(xs) + x.weightBp
  {
    assert (xs + [x])[..|xs|] == xs;
  }

  /** Taking any item out takes out its own term. */
  lemma {:induction false} WeightedRemove(items: seq<Item>, i: nat, c: int)
    requires Prices(items) && i < |items|
    ensures Prices(Ordering.Without(items, i))
    ensures Weighted(items, c) == Weighted(Ordering.Without(items, i), c)
                                  + items[i].currentPrice * items[i].weightBp * (c / items[i].basePrice)
    ensures TotalWeight(items) == TotalWeight(Ordering.Without(items, i)) + items[i].weightBp
  {
    var n := |items| - 1;
    if i == n {
      assert Ordering.Without(items, i) == items[..n];
    } else {
      WeightedRemove(items[..n], i, c);
      var rest := Ordering.Without(items[..n], i);
      assert Ordering.Without(items, i) == rest + [items[n]];
      WeightedConcat(rest, items[n], c);
    }
  }

  lemma {:induction false} WeightedForgetsOrder(xs: seq<Item>, ys: seq<Item>, c: int)
    requires Prices(xs) && Prices(ys) && multiset(xs) == multiset(ys)
    ensures Weighted(xs, c) == Weighted(ys, c) && TotalWeight(xs) == TotalWeight(ys)
    decreases |xs|
  {
    assert |multiset(xs)| == |multiset(ys)|;
    if xs != [] {
      assert xs[0] in multiset(ys);
      var i :| 0 <= i < |ys| && ys[i] == xs[0];
      WeightedRemove(xs, 0, c);
      WeightedRemove(ys, i, c);
      Ordering.WithoutOne(xs, 0);
      Ordering.WithoutOne(ys, i);
      WeightedForgetsOrder(Ordering.Without(xs, 0), Ordering.Without(ys, i), c);
    }
  }

  function SkuOf(item: Item): string {
    item.sku
  }

  /** The order of the basket does not matter. */
  lemma IndexForgetsOrder(xs: seq<Item>, ys: seq<Item>)
    requires multiset(xs) == multiset(ys)
    ensures FixedBasketCpiIndex(xs) == FixedBasketCpiIndex(ys)
  {
    assert |multiset(xs)| == |multiset(ys)|;
    if FixedBasketCpiIndex(xs).Ok? {
      SameIndex(xs, ys);
    }
    if FixedBasketCpiIndex(ys).Ok? {
      SameIndex(ys, xs);
    }
  }

  lemma SameIndex(xs: seq<Item>, ys: seq<Item>)
    requires multiset(xs) == multiset(ys) && FixedBasketCpiIndex(xs).Ok?
    ensures FixedBasketCpiIndex(ys) == FixedBasketCpiIndex(xs)
  {
    assert |multiset(xs)| == |multiset(ys)|;
    forall i | 0 <= i < |ys| ensures ys[i].Accepted() {
      assert ys[i] in multiset(xs);
    }
    Ordering.KeysDistinctPermute(SkuOf, xs, ys);
    forall i, j | 0 <= i < j < |ys| ensures ys[i].sku != ys[j].sku {
      assert SkuOf(ys[i]) != SkuOf(ys[j]);
    }
    var c := CommonBase(xs);
    CommonBaseIsCommonMultiple(xs);
    forall i | 0 <= i < |ys| ensures c % ys[i].basePrice == 0 {
      assert ys[i] in multiset(xs);
    }
    WeightedForgetsOrder(xs, ys, c);
    IndexOverAnyCommonMultiple(ys, c);
  }

  lemma {:induction false} UnchangedPricesWeigh(items: seq<Item>, c: int)
    requires CommonMultiple(items, c) && forall i | 0 <= i < |items| :: items[i].currentPrice == items[i].basePrice
    ensures Weighted(items, c) == c * TotalWeight(items)
  {
    if items != [] {
      var last := items[|items| - 1];
      UnchangedPricesWeigh(items[..|items| - 1], c);
      assert c == (c / last.basePrice) * last.basePrice;
      assert last.basePrice * last.weightBp * (c / last.basePrice) == last.weightBp * ((c / last.basePrice) * last.basePrice);
    }
  }

  /** At base prices the index is the base index. */
  lemma UnchangedPricesGiveBaseIndex(items: seq<Item>)
    requires FixedBasketCpiIndex(items).Ok? && forall i | 0 <= i < |items| :: items[i].currentPrice == items[i].basePrice
    ensures FixedBasketCpiIndex(items) == Ok(CPI_BASE_INDEX)
  {
    var c := CommonBase(items);
    CommonBaseIsCommonMultiple(items);
    UnchangedPricesWeigh(items, c);
    assert RoundsHalfEven(CPI_BASE_INDEX, Weighted(items, c) * CPI_BASE_INDEX, c * CPI_BASKET_WEIGHT_TOTAL_BP);
    HalfEvenUnique(CPI_BASE_INDEX, Weighted(items, c) * CPI_BASE_INDEX, c * CPI_BASKET_WEIGHT_TOTAL_BP);
  }

  /** The same basket at prices none of which is lower. */
  ghost predicate NoPriceFell(before: seq<Item>, after: seq<Item>) {
    |after| == |before| && forall i | 0 <= i < |before| ::
      before[i].(currentPrice := after[i].currentPrice) == after[i] && before[i].currentPrice <= after[i].currentPrice
  }

  lemma {:induction false} WeightedRises(before: seq<Item>, after: seq<Item>, c: int)
    requires NoPriceFell(before, after) && Prices(before) && Prices(after) && 0 < c
    requires forall i | 0 <= i < |before| :: 0 <= before[i].weightBp
    ensures Weighted(before, c) <= Weighted(after, c) && TotalWeight(before) == TotalWeight(after)
  {
    if before != [] {
      var n := |before| - 1;
      WeightedRises(before[..n], after[..n], c);
      var factor := before[n].weightBp * (c / before[n].basePrice);
      DivAtLeast(c, before[n].basePrice, 0);
      MulLe(0, before[n].weightBp, c / before[n].basePrice);
      MulLe(before[n].currentPrice, after[n].currentPrice, factor);
      assert before[n].currentPrice * before[n].weightBp * (c / before[n].basePrice) == before[n].currentPrice * factor;
      assert after[n].currentPrice * after[n].weightBp * (c / after[n].basePrice) == after[n].currentPrice * factor;
    }
  }

  /** The index never falls when prices rise. */
  lemma IndexIsMonotone(before: seq<Item>, after: seq<Item>)
    requires NoPriceFell(before, after) && FixedBasketCpiIndex(before).Ok?
    ensures FixedBasketCpiIndex(after).Ok?
    ensures FixedBasketCpiIndex(before).value <= FixedBasketCpiIndex(after).value
  {
    var c := CommonBase(before);
    CommonBaseIsCommonMultiple(before);
    WeightedRises(before, after, c);
    IndexOverAnyCommonMultiple(after, c);
    MulLe(Weighted(before, c), Weighted(after, c), CPI_BASE_INDEX);
    HalfEvenMonotone(Weighted(before, c) * CPI_BASE_INDEX, Weighted(after, c) * CPI_BASE_INDEX, c * CPI_BASKET_WEIGHT_TOTAL_BP);
  }
}
