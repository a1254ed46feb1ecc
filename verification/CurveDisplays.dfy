/** The figures a market shows beside its prices: spot price, average price and progress. */
module CurveDisplays {
  import opened Numbers
  import opened Curve
  import opened CurveLaws

  /** The spot price is the price of the next token in thousandths of a sat, rounded to the
      nearest and halves up; it is refused exactly when a thousand prices leave 128 bits or
      the figure leaves 64. */
  lemma SpotMeaning(c: ValidCurve, s: U64)
    ensures var r, milli := SpotPriceMsat(c, s), (c.p0 + c.k * s) * 1000;
            && (r.Ok? <==> milli <= U128_MAX && 2 * milli + c.denom < 2 * (U64_MAX + 1) * c.denom)
            && (r.Err? ==> r.error == Overflow)
            && (r.Ok? ==> 2 * r.value * c.denom <= 2 * milli + c.denom < 2 * (r.value + 1) * c.denom)
  {
    MulNonNegative(c.k, s);
    var milli: nat := (c.p0 + c.k * s) * 1000;
    Nearest(milli, c.denom);
    SpotUnfolds(c, s, milli);
  }

  lemma SpotUnfolds(c: ValidCurve, s: U64, milli: nat)
    requires c.k * s >= 0 && milli == (c.p0 + c.k * s) * 1000
    ensures SpotPriceMsat(c, s) ==
            if milli <= U128_MAX && (milli + c.denom / 2) / c.denom <= U64_MAX
            then Ok((milli + c.denom / 2) / c.denom) else Err(Overflow)
  {}

  lemma Nearest(n: nat, d: nat)
    requires d > 0
    ensures var v := (n + d / 2) / d;
            && 2 * v * d <= 2 * n + d < 2 * (v + 1) * d
            && (v <= U64_MAX <==> 2 * n + d < 2 * (U64_MAX + 1) * d)
  {
    var v := (n + d / 2) / d;
    FloorBracket(n + d / 2, d);
    TwiceProduct(v, d);
    TwiceProduct(v + 1, d);
    MulAdd(v, 1, d);
    FloorAtMost(n + d / 2, d, U64_MAX);
    TwiceProduct(U64_MAX + 1, d);
    HalvesApart(n, d, (U64_MAX + 1) * d);
  }

  lemma TwiceProduct(v: nat, d: nat)
    ensures 2 * v * d == 2 * (v * d)
  {}

  lemma HalvesApart(n: nat, d: nat, bound: int)
    ensures n + d / 2 < bound <==> 2 * n + d < 2 * bound
  {}

  /** What a market shows of its way to migration: nothing without a target or while the area
      cannot be priced, everything once the floored area reaches the target, and in between
      the floored share in ten-thousandths. */
  lemma ProgressMeaning(c: ValidCurve, s: U64)
    ensures var p, area, d := ProgressBp(c, s), Area(c, s), 2 * c.denom;
            if c.migration == 0 || s > c.cap || area > U128_MAX || area / d > U64_MAX then p == 0
            else if area / d >= c.migration then p == 10_000
            else p * c.migration <= (area / d) * 10_000 < (p + 1) * c.migration
  {
    ReserveMeaning(c, s);
    hide Area;
    if c.migration > 0 {
      var r := ReserveAt(c, s);
      var reserve := if r.Ok? then r.value else 0;
      ShareOfTarget(reserve, c.migration);
    }
  }

  lemma ShareOfTarget(reserve: U64, target: U64)
    requires target > 0
    ensures var p := Min(Min(reserve * 10_000, U128_MAX) / target, 10_000);
            && (reserve == 0 ==> p == 0)
            && (reserve >= target ==> p == 10_000)
            && (reserve < target ==> p * target <= reserve * 10_000 < (p + 1) * target)
  {
    FloorBracket(reserve * 10_000, target);
    FloorAtLeast(reserve * 10_000, target, 10_000);
    FloorAtMost(reserve * 10_000, target, 0);
    MulAdd(reserve * 10_000 / target, 1, target);
  }

  /** A fixed-size buy shows its price and its average; the average is the price in thousandths
      of a sat per token, rounded down, or the largest 64-bit number if that is less. */
  lemma QuoteMeaning(c: ValidCurve, s: U64, a: U64)
    requires a > 0 && QuoteBuy(c, s, a).Ok?
    ensures var q := QuoteBuy(c, s, a).value;
            && CostToBuy(c, s, a) == Ok(q.cost) && q.tokens == a && q.newSupply == s + a
            && q.avgPriceMsat * a <= q.cost * 1000
            && (q.avgPriceMsat < U64_MAX ==> q.cost * 1000 < (q.avgPriceMsat + 1) * a)
  {
    hide CostToBuy, AvgPriceMsat;
    var q := QuoteBuy(c, s, a).value;
    AverageBracket(q.cost, a);
    MulAdd(q.avgPriceMsat, 1, a);
  }

  lemma SellQuoteMeaning(c: ValidCurve, s: U64, a: U64)
    requires a > 0 && QuoteSell(c, s, a).Ok?
    ensures var q := QuoteSell(c, s, a).value;
            && RefundToSell(c, s, a) == Ok(q.refund) && q.tokens == a <= s && q.newSupply == s - a
            && q.avgPriceMsat * a <= q.refund * 1000
            && (q.avgPriceMsat < U64_MAX ==> q.refund * 1000 < (q.avgPriceMsat + 1) * a)
  {
    SellsWithinSupply(c, s, a);
    hide RefundToSell, AvgPriceMsat;
    var q := QuoteSell(c, s, a).value;
    AverageBracket(q.refund, a);
    MulAdd(q.avgPriceMsat, 1, a);
  }

  lemma SellsWithinSupply(c: ValidCurve, s: U64, a: U64)
    requires a > 0 && RefundToSell(c, s, a).Ok?
    ensures a <= s
  {}

  /** A search that finds nothing shows the spot price instead of an average. */
  lemma EmptyAnswerShowsSpot(c: ValidCurve, s: U64, budget: U64)
    requires s <= c.cap && TokensForSats(c, s, budget).Ok? && TokensForSats(c, s, budget).value.tokens == 0
    ensures SpotPriceMsat(c, s) == Ok(TokensForSats(c, s, budget).value.avgPriceMsat)
    ensures TokensForSats(c, s, budget).value.cost == 0 && TokensForSats(c, s, budget).value.newSupply == s
  {
    hide SpotPriceMsat;
  }
}
