/** One rung of a grid-trading ladder: `createGrid` and the record it returns.
    Prices, amounts and profits are exact reals; unit counts are integers. */
module Grids {

  /** Which spacing produced a rung (`GearType`; the display labels are not modelled). */
  datatype GearType = Small | Middle | Big

  /** `GearPercent`: the gap between a rung's buy and sell price, as a fraction of the
      reference price. */
  function GearPercent(t: GearType): (p: real)
    ensures 0.0 < p < 1.0
  {
    match t
    case Small => 0.05
    case Middle => 0.15
    case Big => 0.3
  }

  /** How many small steps one middle step spans (`T_MIDDLE`). */
  const T_MIDDLE: nat := 3
  /** How many small steps one big step spans (`T_BIG`). */
  const T_BIG: nat := 6

  /** The integer constants are the exact quotients of the spacing percentages
      that the source computes them from. */
  lemma CadenceRatios()
    ensures GearPercent(Middle) / GearPercent(Small) == T_MIDDLE as real
    ensures GearPercent(Big) / GearPercent(Small) == T_BIG as real
  {
  }

  /** The return rate of a rung, in percent; `NaN` is what the division 0 / 0 gives
      when the rung buys nothing. */
  datatype Rate = NaN | Percent(value: real)

  /** One rung (`Grid`). */
  datatype Grid = Grid(
    gearType: GearType,
    gear: real,
    buyPrice: real,
    sellPrice: real,
    buyAmount: real,
    buyCount: int,
    sellAmount: real,
    sellCount: int,
    profits: real,
    returnRate: Rate,
    retainedProfits: real,
    retainedCount: real)

  /** q is the floor of a / b: the largest whole number of units of price b that
      an amount a pays for. */
  predicate IsFloorOf(q: int, a: real, b: real)
  {
    q as real * b <= a < q as real * b + b
  }

  /** What makes g the rung for the given options, stated field by field as
      relations rather than as the computation (see BuyLaws, RateLaws, SellLaws). */
  ghost predicate IsGrid(g: Grid, gearType: GearType, requested: real, gear: real,
                         percent: real, ratio: real, price: real)
  {
    && g.gearType == gearType && g.gear == gear
    && BuyLaws(g, requested, gear, percent, price)
    && RateLaws(g)
    && SellLaws(g, ratio)
  }

  /** Buy side: the buy lot is the whole number of units the requested amount pays
      for at the buy price, and the profit is what selling that lot at the sell
      price earns. */
  ghost predicate BuyLaws(g: Grid, requested: real, gear: real, percent: real, price: real)
  {
    && g.buyPrice == gear * price && g.sellPrice == g.buyPrice + percent * price
    && 0.0 < g.buyPrice < g.sellPrice
    && IsFloorOf(g.buyCount, requested, g.buyPrice)
    && g.buyAmount == g.buyCount as real * g.buyPrice
    && g.profits == g.buyCount as real * g.sellPrice - g.buyAmount
  }

  /** The return rate is profit over cost in percent, and undefined without a lot. */
  ghost predicate RateLaws(g: Grid)
  {
    && (g.returnRate.NaN? <==> g.buyCount == 0)
    && (g.returnRate.Percent? ==> g.returnRate.value * g.buyAmount == g.profits * 100.0)
  }

  /** Sell side: the sell lot is the whole number of units that leaves at least the
      retained share of the profit, and whatever is not sold is the retained profit. */
  ghost predicate SellLaws(g: Grid, ratio: real)
  {
    && IsFloorOf(g.sellCount, g.buyCount as real * g.sellPrice - g.profits * ratio, g.sellPrice)
    && g.sellAmount == g.sellCount as real * g.sellPrice
    && g.sellAmount + g.retainedProfits == g.buyCount as real * g.sellPrice
    && g.retainedCount * g.sellPrice == g.retainedProfits
  }

  lemma DivMul(a: real, b: real)
    requires b != 0.0
    ensures (a / b) * b == a
  {
  }

  lemma MulLe(x: real, y: real, b: real)
    requires x <= y && b >= 0.0
    ensures x * b <= y * b
  {
  }

  lemma CancelLe(x: real, y: real, b: real)
    requires b > 0.0 && x * b <= y * b
    ensures x <= y
  {
    if x > y {
      MulLt(y, x, b);
    }
  }


  lemma MulLt(x: real, y: real, b: real)
    requires x < y && b > 0.0
    ensures x * b < y * b
  {
  }

  lemma NonZeroProduct(x: real, b: real)
    requires b != 0.0
    ensures x * b == 0.0 <==> x == 0.0
  {
  }

  /** `Math.floor(a / b)` for a positive divisor b. */
  function FloorDiv(a: real, b: real): (q: int)
    requires b > 0.0
    ensures IsFloorOf(q, a, b)
  {
    var x := a / b;
    DivMul(a, b);
    MulLe(x.Floor as real, x, b);
    MulLt(x, x.Floor as real + 1.0, b);
    x.Floor
  }

  /** `createGrid`: the rung at multiplier `gear` of the reference `price`, with the
      spacing `percent`, buying for at most `requested` and keeping the share
      `ratio` of the profit unsold. */
  function CreateGrid(gearType: GearType, requested: real, gear: real, percent: real,
                      ratio: real, price: real): (g: Grid)
    requires price > 0.0 && gear > 0.0 && percent > 0.0
    ensures IsGrid(g, gearType, requested, gear, percent, ratio, price)
  {
    var buyPrice := gear * price;
    Spacing(gear, percent, price);
    var buyCount := FloorDiv(requested, buyPrice);
    var buyAmount := buyCount as real * buyPrice;
    var sellPrice := (gear + percent) * price;
    var currentAmount := buyCount as real * sellPrice;
    var profits := currentAmount - buyAmount;
    var returnRate := if buyAmount == 0.0 then NaN else Percent(profits / buyAmount * 100.0);
    var rawRetained := profits * ratio;
    var sellCount := FloorDiv(currentAmount - rawRetained, sellPrice);
    var sellAmount := sellCount as real * sellPrice;
    var retainedProfits := currentAmount - sellAmount;
    var retainedCount := retainedProfits / sellPrice;
    LawsOfParts(gearType, requested, gear, percent, ratio, price, buyPrice, sellPrice, buyAmount,
                buyCount, sellAmount, sellCount, profits, returnRate, retainedProfits, retainedCount);
    Grid(gearType, gear, buyPrice, sellPrice, buyAmount, buyCount, sellAmount, sellCount,
         profits, returnRate, retainedProfits, retainedCount)
  }

  /** The buy price is positive and the sell price lies one spacing above it. */
  lemma Spacing(gear: real, percent: real, price: real)
    requires price > 0.0 && gear > 0.0 && percent > 0.0
    ensures gear * price > 0.0 && percent * price > 0.0
    ensures (gear + percent) * price == gear * price + percent * price
  {
    MulLt(0.0, gear, price);
    MulLt(0.0, percent, price);
  }

  /** The values `createGrid` computes, one relation per step, make up a rung that
      satisfies IsGrid. */
  lemma LawsOfParts(gearType: GearType, requested: real, gear: real, percent: real, ratio: real,
                    price: real, buyPrice: real, sellPrice: real, buyAmount: real, buyCount: int,
                    sellAmount: real, sellCount: int, profits: real, returnRate: Rate,
                    retainedProfits: real, retainedCount: real)
    requires price > 0.0 && gear > 0.0 && percent > 0.0
    requires buyPrice == gear * price && sellPrice == (gear + percent) * price
    requires IsFloorOf(buyCount, requested, buyPrice) && buyAmount == buyCount as real * buyPrice
    requires profits == buyCount as real * sellPrice - buyAmount
    requires returnRate == if buyAmount == 0.0 then NaN else Percent(profits / buyAmount * 100.0)
    requires IsFloorOf(sellCount, buyCount as real * sellPrice - profits * ratio, sellPrice)
    requires sellAmount == sellCount as real * sellPrice
    requires retainedProfits == buyCount as real * sellPrice - sellAmount
    requires retainedCount == retainedProfits / sellPrice
    ensures IsGrid(Grid(gearType, gear, buyPrice, sellPrice, buyAmount, buyCount, sellAmount, sellCount,
                        profits, returnRate, retainedProfits, retainedCount),
                   gearType, requested, gear, percent, ratio, price)
  {
    var g := Grid(gearType, gear, buyPrice, sellPrice, buyAmount, buyCount, sellAmount, sellCount,
                  profits, returnRate, retainedProfits, retainedCount);
    Spacing(gear, percent, price);
    assert BuyLaws(g, requested, gear, percent, price);
    RateOfParts(g);
    SellOfParts(g, ratio);
  }

  /** A return rate computed as profit / cost * 100 satisfies RateLaws. */
  lemma RateOfParts(g: Grid)
    requires g.buyPrice > 0.0 && g.buyAmount == g.buyCount as real * g.buyPrice
    requires g.returnRate == if g.buyAmount == 0.0 then NaN else Percent(g.profits / g.buyAmount * 100.0)
    ensures RateLaws(g)
  {
    NonZeroProduct(g.buyCount as real, g.buyPrice);
    if g.buyAmount != 0.0 {
      DivMul(g.profits * 100.0, g.buyAmount);
    }
  }

  /** A retained count computed as a quotient completes SellLaws. */
  lemma SellOfParts(g: Grid, ratio: real)
    requires g.sellPrice > 0.0
    requires IsFloorOf(g.sellCount, g.buyCount as real * g.sellPrice - g.profits * ratio, g.sellPrice)
    requires g.sellAmount == g.sellCount as real * g.sellPrice
    requires g.retainedProfits == g.buyCount as real * g.sellPrice - g.sellAmount
    requires g.retainedCount == g.retainedProfits / g.sellPrice
    ensures SellLaws(g, ratio)
  {
    DivMul(g.retainedProfits, g.sellPrice);
  }

  /** Every whole number of units that an amount pays for is at most its floor. */
  lemma FloorMaximal(q: int, a: real, b: real, m: int)
    requires b > 0.0 && IsFloorOf(q, a, b) && m as real * b <= a
    ensures m <= q
  {
    if m > q {
      MulLe(q as real + 1.0, m as real, b);
      assert false;
    }
  }

  /** The floor of a quotient is unique. */
  lemma FloorUnique(q1: int, q2: int, a: real, b: real)
    requires b > 0.0 && IsFloorOf(q1, a, b) && IsFloorOf(q2, a, b)
    ensures q1 == q2
  {
    FloorMaximal(q1, a, b, q2);
    FloorMaximal(q2, a, b, q1);
  }

  lemma ProductCancel(x: real, y: real, b: real)
    requires b != 0.0 && x * b == y * b
    ensures x == y
  {
  }

  /** The relations of IsGrid leave no freedom: two records that both satisfy them
      for the same options are the same rung, so IsGrid is a complete description
      of what `createGrid` returns. */
  lemma {:induction false} GridDetermined(g1: Grid, g2: Grid, gearType: GearType, requested: real,
                                          gear: real, percent: real, ratio: real, price: real)
    requires IsGrid(g1, gearType, requested, gear, percent, ratio, price)
    requires IsGrid(g2, gearType, requested, gear, percent, ratio, price)
    ensures g1 == g2
  {
    BuyDetermined(g1, g2, requested, gear, percent, price);
    RateDetermined(g1, g2);
    SellDetermined(g1, g2, ratio);
  }

  lemma BuyDetermined(g1: Grid, g2: Grid, requested: real, gear: real, percent: real, price: real)
    requires BuyLaws(g1, requested, gear, percent, price)
    requires BuyLaws(g2, requested, gear, percent, price)
    ensures g1.buyPrice == g2.buyPrice && g1.sellPrice == g2.sellPrice
    ensures g1.buyCount == g2.buyCount && g1.buyAmount == g2.buyAmount && g1.profits == g2.profits
  {
    FloorUnique(g1.buyCount, g2.buyCount, requested, g1.buyPrice);
  }

  lemma RateDetermined(g1: Grid, g2: Grid)
    requires RateLaws(g1) && RateLaws(g2)
    requires g1.buyCount == g2.buyCount && g1.buyAmount == g2.buyAmount && g1.profits == g2.profits
    requires g1.buyAmount == 0.0 <==> g1.buyCount == 0
    ensures g1.returnRate == g2.returnRate
  {
    if g1.returnRate.Percent? {
      ProductCancel(g1.returnRate.value, g2.returnRate.value, g1.buyAmount);
    }
  }

  lemma SellDetermined(g1: Grid, g2: Grid, ratio: real)
    requires SellLaws(g1, ratio) && SellLaws(g2, ratio) && g1.sellPrice > 0.0
    requires g1.buyCount == g2.buyCount && g1.sellPrice == g2.sellPrice && g1.profits == g2.profits
    ensures g1.sellCount == g2.sellCount && g1.sellAmount == g2.sellAmount
    ensures g1.retainedProfits == g2.retainedProfits && g1.retainedCount == g2.retainedCount
  {
    FloorUnique(g1.sellCount, g2.sellCount,
                g1.buyCount as real * g1.sellPrice - g1.profits * ratio, g1.sellPrice);
    ProductCancel(g1.retainedCount, g2.retainedCount, g1.sellPrice);
  }

  /** Buy-side flooring: the lot bought is whole and not negative, never costs
      more than was requested, and leaves less than one unit's price unspent. */
  lemma {:induction false} BuyFlooring(g: Grid, requested: real, gear: real, percent: real,
                                       price: real)
    requires BuyLaws(g, requested, gear, percent, price) && requested >= 0.0
    ensures g.buyCount >= 0 && g.buyAmount <= requested && requested - g.buyAmount < g.buyPrice
  {
    if g.buyCount < 0 {
      MulLe(g.buyCount as real + 1.0, 0.0, g.buyPrice);
    }
  }

  /** Sell above buy: the sell price exceeds the buy price by the spacing, and the
      profit is that spacing earned on every unit bought, never negative and never
      more than the full proceeds. */
  lemma {:induction false} ProfitIsSpacing(g: Grid, requested: real, gear: real, percent: real,
                                           price: real)
    requires BuyLaws(g, requested, gear, percent, price) && requested >= 0.0
    ensures g.buyCount >= 0 && g.sellPrice - g.buyPrice == percent * price > 0.0
    ensures g.profits == g.buyCount as real * (percent * price)
    ensures 0.0 <= g.profits <= g.buyCount as real * g.sellPrice
  {
    BuyFlooring(g, requested, gear, percent, price);
    MulLe(0.0, g.buyCount as real, percent * price);
    MulLe(0.0, g.buyCount as real, g.buyPrice);
  }

  /** Retention bounds: with a ratio in [0, 1] the rung sells between none and all
      of its units, keeps at least the requested share of the profit and less than
      that share plus one unit's sell price, and keeps nothing when the ratio is 0. */
  lemma {:induction false} RetentionBounds(g: Grid, requested: real, gear: real, percent: real,
                                           ratio: real, price: real)
    requires BuyLaws(g, requested, gear, percent, price) && SellLaws(g, ratio)
    requires requested >= 0.0 && 0.0 <= ratio <= 1.0
    ensures 0 <= g.sellCount <= g.buyCount
    ensures 0.0 <= g.profits * ratio <= g.retainedProfits < g.profits * ratio + g.sellPrice
    ensures ratio == 0.0 ==> g.sellCount == g.buyCount && g.retainedProfits == 0.0
  {
    ProfitIsSpacing(g, requested, gear, percent, price);
    SellSideBounds(g, ratio);
  }

  /** A rung built for a non-negative amount with a ratio in [0, 1] sells above its
      buy price, sells between none and all of its lot, has a non-negative profit
      and retained profit, and splits its proceeds into what is sold and what is
      retained. */
  lemma {:induction false} GridSound(g: Grid, gearType: GearType, requested: real, gear: real,
                                     percent: real, ratio: real, price: real)
    requires IsGrid(g, gearType, requested, gear, percent, ratio, price)
    requires requested >= 0.0 && 0.0 <= ratio <= 1.0
    ensures 0.0 < g.buyPrice < g.sellPrice
    ensures 0 <= g.sellCount <= g.buyCount
    ensures 0.0 <= g.profits && 0.0 <= g.retainedProfits
    ensures g.sellAmount + g.retainedProfits == g.buyCount as real * g.sellPrice
  {
    RetentionBounds(g, requested, gear, percent, ratio, price);
  }

  /** Outside [0, 1] the ratio breaks those bounds. The small rung at gear 1 of price
      10 buys 100 units for 1000; a ratio of -1 then sells 104 units, more than it
      bought, and a ratio of 22 sells -5. */
  lemma {:induction false} RetentionOutOfRange(g: Grid, ratio: real)
    requires IsGrid(g, Small, 1000.0, 1.0, 0.05, ratio, 10.0) && (ratio == -1.0 || ratio == 22.0)
    ensures g.buyCount == 100
    ensures ratio == -1.0 ==> g.sellCount == 104
    ensures ratio == 22.0 ==> g.sellCount == -5
  {
    FloorUnique(g.buyCount, 100, 1000.0, 10.0);
    assert g.profits == 50.0;
    if ratio == -1.0 {
      FloorUnique(g.sellCount, 104, 1100.0, 10.5);
    } else {
      FloorUnique(g.sellCount, -5, -50.0, 10.5);
    }
  }

  /** The sell side alone: given a positive sell price and a profit between 0 and
      the full proceeds, SellLaws bound the sell lot and the retained profit. */
  lemma SellSideBounds(g: Grid, ratio: real)
    requires SellLaws(g, ratio) && g.sellPrice > 0.0 && g.buyCount >= 0 && 0.0 <= ratio <= 1.0
    requires 0.0 <= g.profits <= g.buyCount as real * g.sellPrice
    ensures 0 <= g.sellCount <= g.buyCount
    ensures 0.0 <= g.profits * ratio <= g.retainedProfits < g.profits * ratio + g.sellPrice
    ensures ratio == 0.0 ==> g.sellCount == g.buyCount && g.retainedProfits == 0.0
  {
    SellFloorBounds(g.buyCount, g.sellPrice, g.profits, ratio, g.sellCount, g.sellAmount,
                    g.retainedProfits);
  }

  /** The arithmetic behind RetentionBounds: floor((n * p - profits * r) / p) with
      0 <= profits <= n * p and r in [0, 1] lies in [0, n], and is n when r is 0. */
  lemma SellFloorBounds(n: int, p: real, profits: real, r: real, q: int, sold: real, kept: real)
    requires p > 0.0 && n >= 0 && 0.0 <= profits <= n as real * p && 0.0 <= r <= 1.0
    requires IsFloorOf(q, n as real * p - profits * r, p)
    requires sold == q as real * p && sold + kept == n as real * p
    ensures 0 <= q <= n && 0.0 <= profits * r
    ensures profits * r <= kept < profits * r + p
    ensures r == 0.0 ==> q == n
  {
    KeptShare(profits, r);
    assert 0 as real * p == 0.0;
    FloorBetween(q, n as real * p - profits * r, p, 0, n);
    if r == 0.0 {
      FloorBetween(q, n as real * p - profits * r, p, n, n);
    }
  }

  /** A share r in [0, 1] of a non-negative profit lies between 0 and the profit. */
  lemma KeptShare(profits: real, r: real)
    requires profits >= 0.0 && 0.0 <= r <= 1.0
    ensures 0.0 <= profits * r <= profits
  {
    MulLe(0.0, r, profits);
    MulLe(r, 1.0, profits);
  }

  /** An amount that lies between the prices of lo and hi units pays for a whole
      number of units between lo and hi. */
  lemma FloorBetween(q: int, a: real, p: real, lo: int, hi: int)
    requires p > 0.0 && IsFloorOf(q, a, p)
    requires lo as real * p <= a <= hi as real * p
    ensures lo <= q <= hi
  {
    CancelLe(q as real, hi as real, p);
    FloorMaximal(q, a, p, lo);
  }

  /** The return rate exists exactly when the rung buys something, and is then the
      spacing relative to the gear, in percent, whatever the lot size. */
  lemma {:induction false} ReturnRateOfLot(g: Grid, requested: real, gear: real, percent: real,
                                           price: real)
    requires BuyLaws(g, requested, gear, percent, price) && RateLaws(g)
    ensures g.buyCount == 0 ==> g.returnRate == NaN
    ensures g.buyCount != 0 ==> g.returnRate == Percent(percent / gear * 100.0)
  {
    if g.buyCount != 0 {
      var n := g.buyCount as real;
      assert g.profits == n * (percent * price);
      assert g.buyAmount == n * (gear * price);
      NonZeroProduct(n, g.buyPrice);
      RateCancel(g.returnRate.value, n, percent, gear, price);
    }
  }

  lemma RateCancel(v: real, n: real, a: real, b: real, c: real)
    requires n != 0.0 && b != 0.0 && c != 0.0
    requires v * (n * (b * c)) == (n * (a * c)) * 100.0
    ensures v == a / b * 100.0
  {
  }
}
