/** The affine bonding curve: exact integer pricing with checked 128-bit
    arithmetic, and the binary search for the largest affordable buy. */
module Curve {
  import opened Numbers

  datatype CurveError = InvalidParams | Overflow | SupplyCapExceeded | InsufficientSupply

  type CurveResult<+T> = Result<T, CurveError>

  datatype CurveParams = CurveParams(p0: U64, k: U64, denom: U64, cap: U64, migration: U64)

  datatype BuyQuote = BuyQuote(tokens: U64, cost: U64, newSupply: U64, avgPriceMsat: U64)

  datatype SellQuote = SellQuote(tokens: U64, refund: U64, newSupply: U64, avgPriceMsat: U64)

  /** The structural checks made on parameters before a market may use them. */
  predicate Validate(c: CurveParams) {
    && c.denom != 0
    && !(c.p0 == 0 && c.k == 0)
    && c.cap != 0
  }

  /** Parameters that passed validation. */
  type ValidCurve = c: CurveParams | Validate(c) witness CurveParams(1, 0, 1, 1, 0)

  // ---- Checked arithmetic -------------------------------------------------

  function Checked128(n: nat): CurveResult<nat> {
    if n <= U128_MAX then Ok(n) else Err(Overflow)
  }

  function Checked64(n: nat): CurveResult<U64> {
    if n <= U64_MAX then Ok(n) else Err(Overflow)
  }

  // ---- Pricing ------------------------------------------------------------

  /** The integral of the price over `[s1, s2]` as numerator and denominator. */
  function IntegralFrac(c: CurveParams, s1: U64, s2: U64): (r: CurveResult<(nat, nat)>)
    requires s1 <= s2
    ensures r.Ok? ==> r.value.1 > 0
  {
    if c.denom == 0 then Err(InvalidParams)
    else
      var ks :- Checked128(c.k * (s1 + s2));
      var twoP0 :- Checked128(2 * c.p0);
      var bracket :- Checked128(twoP0 + ks);
      var numer :- Checked128((s2 - s1) * bracket);
      Ok((numer, 2 * c.denom))
  }

  function CostToBuy(c: CurveParams, supply: U64, amount: U64): CurveResult<U64> {
    if amount == 0 then Ok(0)
    else
      var s2 :- Checked64(supply + amount);
      if s2 > c.cap then Err(SupplyCapExceeded)
      else
        var frac :- IntegralFrac(c, supply, s2);
        Checked64(CeilDiv(frac.0, frac.1))
  }

  function RefundToSell(c: CurveParams, supply: U64, amount: U64): CurveResult<U64> {
    if amount == 0 then Ok(0)
    else if amount > supply then Err(InsufficientSupply)
    else
      var frac :- IntegralFrac(c, supply - amount, supply);
      Checked64(FloorDiv(frac.0, frac.1))
  }

  function AvgPriceMsat(sats: U64, tokens: U64): U64 {
    if tokens == 0 then 0 else Min(sats * 1000 / tokens, U64_MAX)
  }

  function SpotPriceMsat(c: CurveParams, supply: U64): CurveResult<U64> {
    if c.denom == 0 then Err(InvalidParams)
    else
      var ks :- Checked128(c.k * supply);
      var perToken :- Checked128(c.p0 + ks);
      var msat :- Checked128(perToken * 1000);
      Checked64((msat + c.denom / 2) / c.denom)
  }

  function QuoteBuy(c: CurveParams, supply: U64, amount: U64): CurveResult<BuyQuote> {
    var cost :- CostToBuy(c, supply, amount);
    var avg :- if amount == 0 then SpotPriceMsat(c, supply) else Ok(AvgPriceMsat(cost, amount));
    Ok(BuyQuote(amount, cost, supply + amount, avg))
  }

  function QuoteSell(c: CurveParams, supply: U64, amount: U64): CurveResult<SellQuote> {
    var refund :- RefundToSell(c, supply, amount);
    var avg :- if amount == 0 then SpotPriceMsat(c, supply) else Ok(AvgPriceMsat(refund, amount));
    Ok(SellQuote(amount, refund, supply - amount, avg))
  }

  function ReserveAt(c: CurveParams, supply: U64): CurveResult<U64> {
    if supply > c.cap then Err(SupplyCapExceeded)
    else
      var frac :- IntegralFrac(c, 0, supply);
      Checked64(FloorDiv(frac.0, frac.1))
  }

  function ProgressBp(c: CurveParams, supply: U64): nat {
    if c.migration == 0 then 0
    else
      var r := ReserveAt(c, supply);
      var reserve := if r.Ok? then r.value else 0;
      Min(Min(reserve * 10_000, U128_MAX) / c.migration, 10_000)
  }

  predicate IsMigratable(c: CurveParams, supply: U64) {
    && c.migration != 0
    && var r := ReserveAt(c, supply);
       r.Ok? && r.value >= c.migration
  }

  // ---- Largest affordable buy ----------------------------------------------

  predicate Affordable(c: CurveParams, supply: U64, amount: U64, budget: U64) {
    var cost := CostToBuy(c, supply, amount);
    cost.Ok? && cost.value <= budget
  }

  function MaxDelta(c: CurveParams, supply: U64): U64 {
    if supply <= c.cap then c.cap - supply else 0
  }

  /** The greatest affordable amount not above `limit`, by trying every amount
      downwards: what the binary search must agree with. */
  function MaxAffordable(c: CurveParams, supply: U64, budget: U64, limit: U64): (t: U64)
    ensures t <= limit
    ensures Affordable(c, supply, t, budget)
    ensures forall a: U64 :: a <= limit && Affordable(c, supply, a, budget) ==> a <= t
  {
    if limit == 0 || Affordable(c, supply, limit, budget) then limit
    else MaxAffordable(c, supply, budget, limit - 1)
  }

  function TokensForSats(c: CurveParams, supply: U64, budget: U64): CurveResult<BuyQuote> {
    var limit := MaxDelta(c, supply);
    if budget == 0 || limit == 0 then
      var spot :- SpotPriceMsat(c, Min(supply, c.cap));
      Ok(BuyQuote(0, 0, supply, spot))
    else
      QuoteBuy(c, supply, MaxAffordable(c, supply, budget, limit))
  }
}
