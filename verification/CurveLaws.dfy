/** What the rounded, overflow-checked prices promise. */
module CurveLaws {
  import opened Numbers
  import opened Curve

  // ---- The exact area under the curve --------------------------------------

  /** Twice the area under the curve up to `s`, times `denom`. */
  function Area(c: CurveParams, s: nat): nat {
    2 * c.p0 * s + c.k * (s * s)
  }

  lemma AreaDifference(c: CurveParams, s1: nat, s2: nat)
    requires s1 <= s2
    ensures (s2 - s1) * (2 * c.p0 + c.k * (s1 + s2)) == Area(c, s2) - Area(c, s1)
  {
    var d := s2 - s1;
    calc {
      d * (2 * c.p0 + c.k * (s1 + s2));
      d * (2 * c.p0) + d * (c.k * (s1 + s2));
      { assert d * (c.k * (s1 + s2)) == c.k * (d * (s1 + s2)); }
      d * (2 * c.p0) + c.k * (d * (s1 + s2));
      { assert d * (s1 + s2) == s2 * s2 - s1 * s1; }
      d * (2 * c.p0) + c.k * (s2 * s2 - s1 * s1);
      { assert c.k * (s2 * s2 - s1 * s1) == c.k * (s2 * s2) - c.k * (s1 * s1); }
      d * (2 * c.p0) + (c.k * (s2 * s2) - c.k * (s1 * s1));
      { assert d * (2 * c.p0) == 2 * c.p0 * s2 - 2 * c.p0 * s1; }
      Area(c, s2) - Area(c, s1);
    }
  }

  /** The area under the last `a` units of a supply `s`. */
  lemma AreaOfSale(c: CurveParams, s: nat, a: nat)
    requires a <= s
    ensures a * (2 * c.p0 + c.k * (s - a + s)) == Area(c, s) - Area(c, s - a)
  {
    AreaDifference(c, s - a, s);
  }

  lemma AreaMonotone(c: CurveParams, s1: nat, s2: nat)
    requires s1 <= s2
    ensures Area(c, s1) <= Area(c, s2)
    ensures s1 < s2 && Validate(c) ==> Area(c, s1) < Area(c, s2)
  {
    AreaDifference(c, s1, s2);
    MulNonNegative(c.k, s1 + s2);
    MulNonNegative(s2 - s1, 2 * c.p0 + c.k * (s1 + s2));
  }

  /** With a non-empty interval the last product dominates every intermediate one. */
  lemma CheckedProduct(c: CurveParams, s1: U64, s2: U64, ks: nat)
    requires s1 < s2 && c.denom > 0 && ks == c.k * (s1 + s2)
    ensures var numer := (s2 - s1) * (2 * c.p0 + ks);
            numer >= 0 &&
            IntegralFrac(c, s1, s2) ==
            if numer <= U128_MAX then Ok((numer, 2 * c.denom)) else Err(Overflow)
  {
    MulNonNegative(s2 - s1, 2 * c.p0 + ks);
  }

  /** The fraction is the area difference, and the only overflow that matters is
      that of the final product. */
  lemma IntegralMeaning(c: CurveParams, s1: U64, s2: U64)
    requires s1 < s2 && c.denom > 0
    ensures Area(c, s2) >= Area(c, s1)
    ensures var numer := Area(c, s2) - Area(c, s1);
            IntegralFrac(c, s1, s2) ==
            if numer <= U128_MAX then Ok((numer, 2 * c.denom)) else Err(Overflow)
  {
    AreaDifference(c, s1, s2);
    AreaMonotone(c, s1, s2);
    MulNonNegative(c.k, s1 + s2);
    CheckedProduct(c, s1, s2, c.k * (s1 + s2));
  }

  /** What a positive buy costs, in full: every error branch and the rounded price. */
  lemma CostMeaning(c: CurveParams, s: U64, a: U64)
    requires c.denom > 0 && a > 0
    ensures Area(c, s + a) >= Area(c, s)
    ensures var numer := Area(c, s + a) - Area(c, s);
            CostToBuy(c, s, a) ==
            if s + a > U64_MAX then Err(Overflow)
            else if s + a > c.cap then Err(SupplyCapExceeded)
            else if numer > U128_MAX || CeilDiv(numer, 2 * c.denom) > U64_MAX then Err(Overflow)
            else Ok(CeilDiv(numer, 2 * c.denom))
  {
    AreaMonotone(c, s, s + a);
    if s + a <= U64_MAX {
      IntegralMeaning(c, s, s + a);
    }
  }

  /** What a positive sell refunds, in full. */
  lemma RefundMeaning(c: CurveParams, s: U64, a: U64)
    requires c.denom > 0 && 0 < a <= s
    ensures Area(c, s) >= Area(c, s - a)
    ensures var numer := Area(c, s) - Area(c, s - a);
            RefundToSell(c, s, a) ==
            if numer > U128_MAX || numer / (2 * c.denom) > U64_MAX then Err(Overflow)
            else Ok(numer / (2 * c.denom))
  {
    IntegralMeaning(c, s - a, s);
  }

  lemma ReserveMeaning(c: CurveParams, s: U64)
    requires c.denom > 0
    ensures ReserveAt(c, s) ==
            if s > c.cap then Err(SupplyCapExceeded)
            else if Area(c, s) > U128_MAX || Area(c, s) / (2 * c.denom) > U64_MAX then Err(Overflow)
            else Ok(Area(c, s) / (2 * c.denom))
  {
    if s > c.cap {
    } else if s > 0 {
      IntegralMeaning(c, 0, s);
    } else {
      assert IntegralFrac(c, 0, 0).Ok?;
      assert IntegralFrac(c, 0, 0).value.0 == 0;
      FloorAtLeast(0, 2 * c.denom, 1);
    }
  }

  // ---- Monotonicity ---------------------------------------------------------

  /** Nothing affordable lies above something unaffordable: the rounded cost never
      falls as the amount grows, and Overflow never ends once it has begun. */
  lemma AffordableDownward(c: CurveParams, s: U64, small: U64, large: U64, budget: U64)
    requires small <= large && s + large <= c.cap
    requires Affordable(c, s, large, budget)
    ensures Affordable(c, s, small, budget)
  {
    if 0 < small < large {
      assert c.denom > 0;
      CostMeaning(c, s, small);
      CostMeaning(c, s, large);
      AreaMonotone(c, s + small, s + large);
      CeilMonotone(Area(c, s + small) - Area(c, s), Area(c, s + large) - Area(c, s), 2 * c.denom);
    }
  }

  /** The cost is nondecreasing wherever the larger amount is priceable. */
  lemma CostMonotone(c: CurveParams, s: U64, small: U64, large: U64)
    requires small <= large && s + large <= c.cap && CostToBuy(c, s, large).Ok?
    ensures CostToBuy(c, s, small).Ok?
    ensures CostToBuy(c, s, small).value <= CostToBuy(c, s, large).value
  {
    AffordableDownward(c, s, small, large, CostToBuy(c, s, large).value);
  }

  /** The source calls the cost strictly increasing; it is not: here two tokens
      cost no more than one. */
  lemma CostIsNotStrictlyIncreasing()
    ensures var c := CurveParams(0, 1, 1_000_000, 1_000, 0);
            Validate(c) && CostToBuy(c, 0, 1) == Ok(1) && CostToBuy(c, 0, 2) == Ok(1)
  {
    var c := CurveParams(0, 1, 1_000_000, 1_000, 0);
    assert IntegralFrac(c, 0, 1) == Ok((1, 2_000_000));
    assert IntegralFrac(c, 0, 2) == Ok((4, 2_000_000));
  }

  /** On a validated curve no token is free. */
  lemma NoFreeTokens(c: ValidCurve, s: U64, a: U64)
    requires a > 0 && CostToBuy(c, s, a).Ok?
    ensures CostToBuy(c, s, a).value >= 1
  {
    CostMeaning(c, s, a);
    AreaMonotone(c, s, s + a);
    CeilAtMost(Area(c, s + a) - Area(c, s), 2 * c.denom, 0);
  }

  // ---- The binary search -----------------------------------------------------

  /** The search loop of the source. It returns what the exhaustive downward scan
      returns, on every curve, supply and budget. */
  method FindTokensForSats(c: CurveParams, supply: U64, budget: U64) returns (r: CurveResult<BuyQuote>)
    ensures r == TokensForSats(c, supply, budget)
  {
    var maxDelta := MaxDelta(c, supply);
    if budget == 0 || maxDelta == 0 {
      var spot := SpotPriceMsat(c, Min(supply, c.cap));
      if spot.Err? {
        return Err(spot.error);
      }
      return Ok(BuyQuote(0, 0, supply, spot.value));
    }
    var lo: U64, hi: U64 := 0, maxDelta;
    while lo < hi
      invariant lo <= hi <= maxDelta
      invariant Affordable(c, supply, lo, budget)
      invariant forall a: U64 :: hi < a <= maxDelta ==> !Affordable(c, supply, a, budget)
      decreases hi - lo
    {
      var mid := lo + CeilDiv(hi - lo, 2);
      if Affordable(c, supply, mid, budget) {
        lo := mid;
      } else {
        forall a: U64 | mid < a <= hi
          ensures !Affordable(c, supply, a, budget)
        {
          if Affordable(c, supply, a, budget) {
            AffordableDownward(c, supply, mid, a, budget);
          }
        }
        hi := mid - 1;
      }
    }
    r := QuoteBuy(c, supply, lo);
  }

  /** A successful search is exactly maximal: the affordable amounts are those from
      zero to the returned count, and no other. */
  lemma TokensForSatsIsMaximal(c: ValidCurve, s: U64, budget: U64)
    requires s <= c.cap && TokensForSats(c, s, budget).Ok?
    ensures var q := TokensForSats(c, s, budget).value;
            && s + q.tokens <= c.cap
            && q.newSupply == s + q.tokens
            && CostToBuy(c, s, q.tokens) == Ok(q.cost)
            && q.cost <= budget
            && forall t: U64 :: t <= c.cap - s ==> (Affordable(c, s, t, budget) <==> t <= q.tokens)
  {
    var q := TokensForSats(c, s, budget).value;
    forall t: U64 | t <= c.cap - s
      ensures Affordable(c, s, t, budget) <==> t <= q.tokens
    {
      if t <= q.tokens {
        AffordableDownward(c, s, t, q.tokens, budget);
      } else if budget == 0 && Affordable(c, s, t, budget) {
        NoFreeTokens(c, s, t);
      }
    }
  }

  /** When the search fails at all: nothing is affordable and the spot price shown
      in its place does not fit 64 bits. */
  lemma TokensForSatsFailsOnlyOnSpot(c: ValidCurve, s: U64, budget: U64)
    requires s <= c.cap
    ensures TokensForSats(c, s, budget).Err? <==>
            MaxAffordable(c, s, budget, c.cap - s) == 0 && SpotPriceMsat(c, s) == Err(Overflow)
  {
    if budget == 0 {
      var t := MaxAffordable(c, s, 0, c.cap - s);
      if t > 0 {
        NoFreeTokens(c, s, t);
      }
    }
  }

  // ---- Splitting and round trips ---------------------------------------------

  function Total(pieces: seq<nat>): nat {
    if pieces == [] then 0 else pieces[0] + Total(pieces[1..])
  }

  /** Buying the pieces one after another; the first failing piece decides. */
  function CostOfPieces(c: CurveParams, s: U64, pieces: seq<nat>): CurveResult<nat>
    requires s + Total(pieces) <= U64_MAX
    decreases |pieces|
  {
    if pieces == [] then Ok(0)
    else
      var first :- CostToBuy(c, s, pieces[0]);
      var rest :- CostOfPieces(c, s + pieces[0], pieces[1..]);
      Ok(first + rest)
  }

  /** Selling the pieces one after another. */
  function RefundOfPieces(c: CurveParams, s: U64, pieces: seq<nat>): CurveResult<nat>
    requires Total(pieces) <= s
    decreases |pieces|
  {
    if pieces == [] then Ok(0)
    else
      var first :- RefundToSell(c, s, pieces[0]);
      var rest :- RefundOfPieces(c, s - pieces[0], pieces[1..]);
      Ok(first + rest)
  }

  /** The exact bracket on one buy, zero amounts included. */
  lemma CostBracket(c: CurveParams, s: U64, a: U64)
    requires c.denom > 0 && CostToBuy(c, s, a).Ok?
    ensures Area(c, s + a) - Area(c, s) <= CostToBuy(c, s, a).value * (2 * c.denom)
    ensures CostToBuy(c, s, a).value * (2 * c.denom) < Area(c, s + a) - Area(c, s) + 2 * c.denom
  {
    if a > 0 {
      CostMeaning(c, s, a);
      CeilBracket(Area(c, s + a) - Area(c, s), 2 * c.denom);
    }
  }

  /** The exact bracket on one sell, zero amounts included. */
  lemma RefundBracket(c: CurveParams, s: U64, a: U64)
    requires c.denom > 0 && RefundToSell(c, s, a).Ok? && a <= s
    ensures RefundToSell(c, s, a).value * (2 * c.denom) <= Area(c, s) - Area(c, s - a)
    ensures Area(c, s) - Area(c, s - a) < RefundToSell(c, s, a).value * (2 * c.denom) + 2 * c.denom
  {
    if a > 0 {
      RefundMeaning(c, s, a);
      FloorBracket(Area(c, s) - Area(c, s - a), 2 * c.denom);
    }
  }

  lemma {:induction false} PiecewiseCostBracket(c: CurveParams, s: U64, pieces: seq<nat>)
    requires c.denom > 0 && s + Total(pieces) <= U64_MAX && CostOfPieces(c, s, pieces).Ok?
    ensures var sum := CostOfPieces(c, s, pieces).value;
            var numer := Area(c, s + Total(pieces)) - Area(c, s);
            numer <= sum * (2 * c.denom) && sum * (2 * c.denom) <= numer + |pieces| * (2 * c.denom - 1)
    decreases |pieces|
  {
    if pieces != [] {
      var d := 2 * c.denom;
      CostBracket(c, s, pieces[0]);
      PiecewiseCostBracket(c, s + pieces[0], pieces[1..]);
      var first := CostToBuy(c, s, pieces[0]).value;
      var rest := CostOfPieces(c, s + pieces[0], pieces[1..]).value;
      MulAdd(first, rest, d);
      MulStep2(|pieces|, d - 1);
    }
  }

  /** A sum of `n` ceilings lies within `n - 1` above the ceiling of the sum. */
  lemma SumOfCeilings(numer: int, d: nat, n: nat, whole: int, sum: int)
    requires d > 0 && n > 0
    requires numer <= whole * d < numer + d
    requires numer <= sum * d <= numer + n * (d - 1)
    ensures whole <= sum <= whole + n - 1
  {
    MulAdd(whole, 1, d);
    MulCancel(whole - 1, sum, d);
    MulAdd(d, 1, n);
    MulAdd(whole, n, d);
    MulCancel(sum, whole + n, d);
  }

  /** A sum of `n` floors lies within `n - 1` below the floor of the sum. */
  lemma SumOfFloors(numer: int, d: nat, n: nat, whole: int, sum: int)
    requires d > 0 && n > 0
    requires whole * d <= numer < whole * d + d
    requires sum * d <= numer <= sum * d + n * (d - 1)
    ensures whole - (n - 1) <= sum <= whole
  {
    MulAdd(whole, 1, d);
    MulCancel(sum, whole + 1, d);
    MulAdd(d, 1, n);
    MulAdd(sum, n, d);
    MulCancel(whole, sum + n, d);
  }

  /** A buy is priceable whenever a buy over a wider range is. */
  lemma CostNarrower(c: CurveParams, s: U64, t: U64, a: U64, b: U64)
    requires 0 < a && s <= t && t + a <= s + b <= c.cap && CostToBuy(c, s, b).Ok?
    ensures CostToBuy(c, t, a).Ok?
  {
    CostMeaning(c, s, b);
    CostMeaning(c, t, a);
    AreaMonotone(c, s, t);
    AreaMonotone(c, t + a, s + b);
    CeilMonotone(Area(c, t + a) - Area(c, t), Area(c, s + b) - Area(c, s), 2 * c.denom);
  }

  lemma {:induction false} PiecesArePriceable(c: CurveParams, s: U64, pieces: seq<nat>)
    requires s + Total(pieces) <= c.cap && CostToBuy(c, s, Total(pieces)).Ok?
    ensures CostOfPieces(c, s, pieces).Ok?
    decreases |pieces|
  {
    if pieces != [] {
      var a, b := pieces[0], Total(pieces[1..]);
      if a > 0 {
        CostNarrower(c, s, s, a, a + b);
      }
      if b > 0 {
        CostNarrower(c, s, s + a, b, a + b);
      }
      PiecesArePriceable(c, s + a, pieces[1..]);
    }
  }

  /** Splitting a buy never makes it cheaper and costs at most one sat per extra piece. */
  lemma SplittingABuyNeverHelps(c: CurveParams, s: U64, pieces: seq<nat>)
    requires c.denom > 0 && pieces != []
    requires s + Total(pieces) <= c.cap && CostToBuy(c, s, Total(pieces)).Ok?
    ensures CostOfPieces(c, s, pieces).Ok?
    ensures var whole := CostToBuy(c, s, Total(pieces)).value;
            whole <= CostOfPieces(c, s, pieces).value <= whole + |pieces| - 1
  {
    PiecesArePriceable(c, s, pieces);
    PiecewiseCostBracket(c, s, pieces);
    var d := 2 * c.denom;
    var whole, sum := CostToBuy(c, s, Total(pieces)).value, CostOfPieces(c, s, pieces).value;
    CostBracket(c, s, Total(pieces));
    var numer := Area(c, s + Total(pieces)) - Area(c, s);
    SumOfCeilings(numer, d, |pieces|, whole, sum);
  }

  lemma {:induction false} PiecewiseRefundBracket(c: CurveParams, s: U64, pieces: seq<nat>)
    requires c.denom > 0 && Total(pieces) <= s && RefundOfPieces(c, s, pieces).Ok?
    ensures var sum := RefundOfPieces(c, s, pieces).value;
            var numer := Area(c, s) - Area(c, s - Total(pieces));
            sum * (2 * c.denom) <= numer <= sum * (2 * c.denom) + |pieces| * (2 * c.denom - 1)
    decreases |pieces|
  {
    if pieces != [] {
      var d := 2 * c.denom;
      RefundBracket(c, s, pieces[0]);
      PiecewiseRefundBracket(c, s - pieces[0], pieces[1..]);
      var first := RefundToSell(c, s, pieces[0]).value;
      var rest := RefundOfPieces(c, s - pieces[0], pieces[1..]).value;
      MulAdd(first, rest, d);
      MulStep2(|pieces|, d - 1);
    }
  }

  /** A refund is priceable whenever a refund over a wider range is. */
  lemma RefundNarrower(c: CurveParams, s: U64, t: U64, a: U64, b: U64)
    requires c.denom > 0 && 0 < a && t <= s && a <= t && s - b <= t - a && b <= s
    requires RefundToSell(c, s, b).Ok?
    ensures RefundToSell(c, t, a).Ok?
  {
    RefundMeaning(c, s, b);
    RefundMeaning(c, t, a);
    AreaMonotone(c, t, s);
    AreaMonotone(c, s - b, t - a);
    FloorMonotone(Area(c, t) - Area(c, t - a), Area(c, s) - Area(c, s - b), 2 * c.denom);
  }

  lemma {:induction false} PiecesAreRefundable(c: CurveParams, s: U64, pieces: seq<nat>)
    requires c.denom > 0 && Total(pieces) <= s && RefundToSell(c, s, Total(pieces)).Ok?
    ensures RefundOfPieces(c, s, pieces).Ok?
    decreases |pieces|
  {
    if pieces != [] {
      var a, b := pieces[0], Total(pieces[1..]);
      if a > 0 {
        RefundNarrower(c, s, s, a, a + b);
      }
      if b > 0 {
        RefundNarrower(c, s, s - a, b, a + b);
      }
      PiecesAreRefundable(c, s - a, pieces[1..]);
    }
  }

  /** Splitting a sell never pays more and loses at most one sat per extra piece. */
  lemma SplittingASellNeverHelps(c: CurveParams, s: U64, pieces: seq<nat>)
    requires c.denom > 0 && pieces != []
    requires Total(pieces) <= s && RefundToSell(c, s, Total(pieces)).Ok?
    ensures RefundOfPieces(c, s, pieces).Ok?
    ensures var whole := RefundToSell(c, s, Total(pieces)).value;
            whole - (|pieces| - 1) <= RefundOfPieces(c, s, pieces).value <= whole
  {
    PiecesAreRefundable(c, s, pieces);
    PiecewiseRefundBracket(c, s, pieces);
    RefundBracket(c, s, Total(pieces));
    var d := 2 * c.denom;
    var whole, sum := RefundToSell(c, s, Total(pieces)).value, RefundOfPieces(c, s, pieces).value;
    var numer := Area(c, s) - Area(c, s - Total(pieces));
    SumOfFloors(numer, d, |pieces|, whole, sum);
  }

  /** Buying and selling straight back loses one sat, or nothing exactly when the
      curve priced the buy without rounding. */
  lemma RoundTripLosesAtMostOneSat(c: CurveParams, s: U64, a: U64)
    requires c.denom > 0 && a > 0 && CostToBuy(c, s, a).Ok?
    ensures RefundToSell(c, s + a, a).Ok?
    ensures var cost, refund := CostToBuy(c, s, a).value, RefundToSell(c, s + a, a).value;
            cost - refund ==
            if (Area(c, s + a) - Area(c, s)) % (2 * c.denom) == 0 then 0 else 1
  {
    CostMeaning(c, s, a);
    RefundMeaning(c, s + a, a);
  }

  // ---- Migration progress -----------------------------------------------------

  /** The progress bar is full exactly when the curve may migrate, on every input. */
  lemma FullProgressIsMigratable(c: CurveParams, s: U64)
    ensures ProgressBp(c, s) == 10_000 <==> IsMigratable(c, s)
    ensures ProgressBp(c, s) <= 10_000
  {
    if c.migration != 0 {
      var r := ReserveAt(c, s);
      var reserve := if r.Ok? then r.value else 0;
      assert reserve * 10_000 <= U128_MAX;
      FloorAtLeast(reserve * 10_000, c.migration, 10_000);
      if reserve * 10_000 >= 10_000 * c.migration {
        assert reserve >= c.migration;
      }
    }
  }

  /** Within the range where the area is priceable, more supply is never less migratable. */
  lemma MigratableUpward(c: ValidCurve, s: U64, t: U64)
    requires s <= t <= c.cap && IsMigratable(c, s) && ReserveAt(c, t).Ok?
    ensures IsMigratable(c, t)
  {
    ReserveMeaning(c, s);
    ReserveMeaning(c, t);
    AreaMonotone(c, s, t);
    FloorMonotone(Area(c, s), Area(c, t), 2 * c.denom);
  }

  // ---- Quoted average prices ----------------------------------------------------------

  lemma SpotBracket(c: CurveParams, s: U64)
    requires c.denom > 0 && SpotPriceMsat(c, s).Ok?
    ensures c.p0 + c.k * s >= 0
    ensures var q, v := c.p0 + c.k * s, SpotPriceMsat(c, s).value;
            2 * (v * c.denom) <= 2 * (1000 * q) + c.denom && 2 * (1000 * q) < 2 * (v * c.denom) + c.denom + 1
  {
    MulNonNegative(c.k, s);
    var q, d := c.p0 + c.k * s, c.denom;
    FloorBracket(q * 1000 + d / 2, d);
    SpotIsRounded(c, s, (q * 1000 + d / 2) / d);
    HalfBracket(q * 1000, d, SpotPriceMsat(c, s).value * d);
  }

  lemma SpotIsRounded(c: CurveParams, s: U64, rounded: nat)
    requires c.denom > 0 && SpotPriceMsat(c, s).Ok? && c.p0 + c.k * s >= 0
    requires rounded == ((c.p0 + c.k * s) * 1000 + c.denom / 2) / c.denom
    ensures SpotPriceMsat(c, s).value == rounded
  {}

  lemma HalfBracket(n: nat, d: nat, product: nat)
    requires product <= n + d / 2 < product + d
    ensures 2 * product <= 2 * n + d && 2 * n < 2 * product + d + 1
  {}

  /** The area of `a` units above supply `s` is twice their price at `s`, and more. */
  lemma AreaAboveSpot(c: CurveParams, s: nat, a: nat)
    ensures c.p0 + c.k * s >= 0
    ensures Area(c, s + a) - Area(c, s) >= 2 * (a * (c.p0 + c.k * s))
  {
    AreaDifference(c, s, s + a);
    MulNonNegative(c.k, s);
    MulNonNegative(c.k, a);
    TwiceAndMore(c.p0, c.k, s, a);
  }

  lemma TwiceAndMore(p: nat, k: nat, s: nat, a: nat)
    requires p + k * s >= 0 && k * a >= 0
    ensures a * (2 * p + k * (s + (s + a))) >= 2 * (a * (p + k * s))
  {
    MulNonNegative(k * a, a);
    assert k * (s + (s + a)) == 2 * (k * s) + k * a;
    MulAdd(2 * (p + k * s), k * a, a);
    MulSwap(a, 2 * p + k * (s + (s + a)), 1);
    MulSwap(a, p + k * s, 1);
  }

  /** The area of the last `a` units of supply `s` is at most twice their price at `s`. */
  lemma AreaBelowSpot(c: CurveParams, s: nat, a: nat)
    requires a <= s
    ensures c.p0 + c.k * s >= 0
    ensures Area(c, s) - Area(c, s - a) <= 2 * (a * (c.p0 + c.k * s))
  {
    AreaOfSale(c, s, a);
    MulNonNegative(c.k, s);
    MulNonNegative(c.k, a);
    TwiceAndLess(c.p0, c.k, s, a);
  }

  lemma TwiceAndLess(p: nat, k: nat, s: nat, a: nat)
    requires a <= s && p + k * s >= 0 && k * a >= 0
    ensures a * (2 * p + k * (s - a + s)) <= 2 * (a * (p + k * s))
  {
    MulNonNegative(k * a, a);
    assert k * (s - a + s) == 2 * (k * s) - k * a;
    MulAdd(2 * (p + k * s), k * a, a);
    MulSwap(a, 2 * p + k * (s - a + s), 1);
    MulSwap(a, p + k * s, 1);
  }

  /** If `cost * d >= a * q`, the average of `cost * 1000` over `a` is above `1000 * q / d`. */
  lemma AverageAbove(q: nat, cost: nat, d: nat, a: nat, avg: nat, spot: nat)
    requires a > 0 && d > 0 && cost * d >= a * q && cost * 1000 < avg * a + a
    requires 2 * (spot * d) <= 2 * (1000 * q) + d
    ensures spot <= avg + 1
  {
    var up := avg + 1;
    MulAdd(avg, 1, a);
    MulCancel(cost * 1000, up * a, d);
    MulSwap(cost, 1000, d);
    MulSwap(up, a, d);
    MulSwap(1000, q, a);
    MulSwap(a, q, 1000);
    assert (1000 * q) * a == 1000 * (a * q);
    if up * d <= 1000 * q {
      MulCancel(up * d, 1000 * q, a);
      assert false;
    }
    if spot > up {
      MulStep(up, spot, d);
    }
  }

  lemma AverageBelow(q: nat, refund: nat, d: nat, a: nat, avg: nat, spot: nat)
    requires a > 0 && d > 0 && refund * d <= a * q && avg * a <= refund * 1000
    requires 2 * (1000 * q) < 2 * (spot * d) + d + 1
    ensures avg <= spot
  {
    MulCancel(avg * a, refund * 1000, d);
    MulSwap(refund, 1000, d);
    MulSwap(avg, a, d);
    assert (1000 * q) * a == 1000 * (a * q);
    if avg * d > 1000 * q {
      MulCancel(1000 * q, avg * d, a);
      assert false;
    }
    if avg > spot {
      MulStep(spot, avg, d);
    }
  }

  lemma Halve(n: nat, d: nat, half: int)
    ensures n * (2 * d) >= 2 * half ==> n * d >= half
    ensures n * (2 * d) <= 2 * half ==> n * d <= half
  {
    assert n * (2 * d) == 2 * (n * d);
  }

  lemma AverageBracket(sats: U64, a: U64)
    requires a > 0
    ensures var v := AvgPriceMsat(sats, a);
            v * a <= sats * 1000 && (v < U64_MAX ==> sats * 1000 < v * a + a)
  {
    FloorBracket(sats * 1000, a);
    if sats * 1000 / a > U64_MAX {
      MulCancel(U64_MAX, sats * 1000 / a, a);
    }
  }

  lemma CostAboveSpot(c: CurveParams, s: U64, a: U64, q: nat)
    requires c.denom > 0 && CostToBuy(c, s, a).Ok? && q == c.p0 + c.k * s
    ensures CostToBuy(c, s, a).value * c.denom >= a * q
  {
    hide CostToBuy, Area;
    CostBracket(c, s, a);
    AreaAboveSpot(c, s, a);
    Halve(CostToBuy(c, s, a).value, c.denom, a * q);
  }

  lemma RefundBelowSpot(c: CurveParams, s: U64, a: U64, q: nat)
    requires c.denom > 0 && a <= s && RefundToSell(c, s, a).Ok? && q == c.p0 + c.k * s
    ensures RefundToSell(c, s, a).value * c.denom <= a * q
  {
    hide RefundToSell, Area;
    RefundBracket(c, s, a);
    AreaBelowSpot(c, s, a);
    Halve(RefundToSell(c, s, a).value, c.denom, a * q);
  }

  /** A buyer's average price is at least the spot price before the buy, up to the last
      thousandth of a sat. */
  lemma AverageBuyIsAboveSpot(c: CurveParams, s: U64, a: U64)
    requires c.denom > 0 && a > 0 && CostToBuy(c, s, a).Ok? && SpotPriceMsat(c, s).Ok?
    ensures SpotPriceMsat(c, s).value <= AvgPriceMsat(CostToBuy(c, s, a).value, a) + 1
  {
    hide CostToBuy, SpotPriceMsat, AvgPriceMsat;
    SpotBracket(c, s);
    var q: nat := c.p0 + c.k * s;
    CostAboveSpot(c, s, a, q);
    var cost := CostToBuy(c, s, a).value;
    AverageBracket(cost, a);
    if AvgPriceMsat(cost, a) < U64_MAX {
      AverageAbove(q, cost, c.denom, a, AvgPriceMsat(cost, a), SpotPriceMsat(c, s).value);
    }
  }

  /** A seller's average price is at most the spot price before the sell. */
  lemma AverageSellIsBelowSpot(c: CurveParams, s: U64, a: U64)
    requires c.denom > 0 && 0 < a <= s && RefundToSell(c, s, a).Ok? && SpotPriceMsat(c, s).Ok?
    ensures AvgPriceMsat(RefundToSell(c, s, a).value, a) <= SpotPriceMsat(c, s).value
  {
    hide RefundToSell, SpotPriceMsat, AvgPriceMsat;
    SpotBracket(c, s);
    var q: nat := c.p0 + c.k * s;
    RefundBelowSpot(c, s, a, q);
    var refund := RefundToSell(c, s, a).value;
    AverageBracket(refund, a);
    AverageBelow(q, refund, c.denom, a, AvgPriceMsat(refund, a), SpotPriceMsat(c, s).value);
  }
}
