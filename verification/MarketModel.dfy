/** One bonding-curve market as a value: previews, and the effect of every
    operation on the whole state. The class in `Desk.dfy` is proved against
    these functions, and `MarketRuns.dfy` proves what they promise over runs. */
module MarketModel {
  import opened Numbers
  import opened Curve
  import opened MapSum

  const MAX_FEE_BP: nat := 1_000

  datatype DeskError =
    | MarketNotFound | MarketExists | NotTrading | FeeTooHigh | DustAmount
    | InsufficientBalance | ReserveUnderflow | CurveFailure(cause: CurveError)
    | AlreadyMigrated

  type DeskResult<+T> = Result<T, DeskError>

  datatype Visibility = Private | Public

  datatype MarketStatus = Trading | Paused | Migrated

  datatype Side = Buy | Sell

  datatype Trade = Trade(ts: U64, side: Side, user: string, tokens: U64, sats: U64, fee: U64,
                         supplyAfter: U64, priceMsat: U64)

  datatype MarketInfo = MarketInfo(tokenId: string, ticker: string, name: string, creator: string,
                                   visibility: Visibility, createdAt: U64)

  datatype MarketSpec = MarketSpec(tokenId: string, ticker: string, name: string, creator: string,
                                   params: CurveParams, visibility: Visibility, feeBp: nat, seed: U64)

  datatype BuyPreview = BuyPreview(tokens: U64, cost: U64, fee: U64, total: nat, newSupply: U64, avgPriceMsat: U64)

  datatype SellPreview = SellPreview(tokens: U64, refund: U64, fee: U64, payout: nat, newSupply: U64, avgPriceMsat: U64)

  /** A fee that market creation accepted. */
  type FeeBp = n: nat | n <= MAX_FEE_BP

  /** The two running totals `reserve` and `fees` are unbounded here;
      `MarketRuns.ReserveStaysInRange` says when they fit the 64-bit fields. */
  datatype MarketState = MarketState(
    info: MarketInfo,
    params: ValidCurve,
    feeBp: FeeBp,
    status: MarketStatus,
    supply: U64,
    reserve: nat,
    withdrawn: U64,
    fees: nat,
    balances: map<string, nat>,
    trades: seq<Trade>)

  function BalanceOf(balances: map<string, nat>, user: string): nat {
    if user in balances then balances[user] else 0
  }

  // ---- Previews -------------------------------------------------------------

  /** The fee on `sats`: the product in 128 bits, truncated back to 64. */
  function FeeOn(feeBp: nat, sats: U64): U64 {
    Wrap64(sats * feeBp / 10_000)
  }

  /** The part of a budget left for the curve once the fee is set aside. */
  function CurveBudget(feeBp: nat, budget: U64): U64 {
    Wrap64(budget * 10_000 / (10_000 + feeBp))
  }

  function PreviewOfQuote(feeBp: nat, q: BuyQuote): BuyPreview {
    var fee := FeeOn(feeBp, q.cost);
    BuyPreview(q.tokens, q.cost, fee, q.cost + fee, q.newSupply, q.avgPriceMsat)
  }

  function PreviewBuy(m: MarketState, budget: U64): DeskResult<BuyPreview> {
    if m.status != Trading then Err(NotTrading)
    else
      match TokensForSats(m.params, m.supply, CurveBudget(m.feeBp, budget))
      case Err(e) => Err(CurveFailure(e))
      case Ok(q) =>
        if q.tokens == 0 then Err(DustAmount) else Ok(PreviewOfQuote(m.feeBp, q))
  }

  /** A fee of at most 100 % never exceeds what it is taken from. */
  lemma FeeWithin(feeBp: FeeBp, sats: U64)
    ensures FeeOn(feeBp, sats) == sats * feeBp / 10_000 <= sats
  {
    MulNonNegative(sats, feeBp);
    MulNonNegative(sats, 10_000 - feeBp);
    MulAdd(10_000, feeBp, sats);
    FloorAtMost(sats * feeBp, 10_000, sats);
    ModBound(sats * feeBp / 10_000, U64_MAX + 1);
  }

  function PreviewSell(m: MarketState, user: string, amount: U64): DeskResult<SellPreview> {
    if m.status == Paused then Err(NotTrading)
    else if amount == 0 then Err(DustAmount)
    else if BalanceOf(m.balances, user) < amount then Err(InsufficientBalance)
    else
      match QuoteSell(m.params, m.supply, amount)
      case Err(e) => Err(CurveFailure(e))
      case Ok(q) =>
        var fee := FeeOn(m.feeBp, q.refund);
        FeeWithin(m.feeBp, q.refund);
        Ok(SellPreview(amount, q.refund, fee, q.refund - fee, q.newSupply, q.avgPriceMsat))
  }

  // ---- Operations -----------------------------------------------------------

  function Debited(balances: map<string, nat>, user: string, amount: nat): map<string, nat>
    requires amount <= BalanceOf(balances, user)
  {
    var left := BalanceOf(balances, user) - amount;
    if left == 0 then balances - {user} else balances[user := left]
  }

  function Settled(m: MarketState): MarketState {
    if m.status == Trading && IsMigratable(m.params, m.supply) then m.(status := Migrated) else m
  }

  function BuyStep(m: MarketState, user: string, budget: U64, ts: U64): DeskResult<(MarketState, Trade)> {
    var p :- PreviewBuy(m, budget);
    var trade := Trade(ts, Buy, user, p.tokens, p.cost, p.fee, p.newSupply, p.avgPriceMsat);
    Ok((Settled(m.(supply := p.newSupply,
                   reserve := m.reserve + p.cost,
                   fees := m.fees + p.fee,
                   balances := m.balances[user := BalanceOf(m.balances, user) + p.tokens],
                   trades := m.trades + [trade])), trade))
  }

  function SellStep(m: MarketState, user: string, amount: U64, ts: U64): DeskResult<(MarketState, Trade)> {
    var p :- PreviewSell(m, user, amount);
    if m.reserve < p.refund then Err(ReserveUnderflow)
    else
      var trade := Trade(ts, Sell, user, amount, p.refund, p.fee, m.supply - amount, p.avgPriceMsat);
      Ok((Settled(m.(supply := m.supply - amount,
                     reserve := m.reserve - p.refund,
                     fees := m.fees + p.fee,
                     balances := Debited(m.balances, user, amount),
                     trades := m.trades + [trade])), trade))
  }

  function WithdrawStep(m: MarketState, user: string, amount: U64): DeskResult<MarketState> {
    if amount == 0 then Err(DustAmount)
    else if BalanceOf(m.balances, user) < amount then Err(InsufficientBalance)
    else
      Ok(m.(balances := Debited(m.balances, user, amount),
            withdrawn := Min(m.withdrawn + amount, U64_MAX)))
  }

  function SetPausedStep(m: MarketState, paused: bool): DeskResult<MarketState> {
    if m.status == Migrated then Err(AlreadyMigrated)
    else Ok(m.(status := if paused then Paused else Trading))
  }

  /** A market before its first trade. */
  function Empty(spec: MarketSpec, ts: U64): MarketState
    requires Validate(spec.params) && spec.feeBp <= MAX_FEE_BP
  {
    MarketState(
      MarketInfo(spec.tokenId, spec.ticker, spec.name, spec.creator, spec.visibility, ts),
      spec.params, spec.feeBp, Trading, 0, 0, 0, 0, map[], [])
  }

  /** A new market, with the creator's opening buy when a seed is given. */
  function Create(spec: MarketSpec, ts: U64): DeskResult<MarketState> {
    if !Validate(spec.params) then Err(CurveFailure(InvalidParams))
    else if spec.feeBp > MAX_FEE_BP then Err(FeeTooHigh)
    else if spec.seed == 0 then Ok(Empty(spec, ts))
    else
      var bought :- BuyStep(Empty(spec, ts), spec.creator, spec.seed, ts);
      Ok(bought.0)
  }

  // ---- The desk: all markets by token id ----------------------------------------

  type DeskState = map<string, MarketState>

  function CreateIn(d: DeskState, spec: MarketSpec, ts: U64): DeskResult<DeskState> {
    if !Validate(spec.params) then Err(CurveFailure(InvalidParams))
    else if spec.feeBp > MAX_FEE_BP then Err(FeeTooHigh)
    else if spec.tokenId in d then Err(MarketExists)
    else
      var m :- Create(spec, ts);
      Ok(d[spec.tokenId := m])
  }

  function BuyIn(d: DeskState, id: string, user: string, budget: U64, ts: U64): DeskResult<(DeskState, Trade)> {
    if id !in d then Err(MarketNotFound)
    else
      var bought :- BuyStep(d[id], user, budget, ts);
      Ok((d[id := bought.0], bought.1))
  }

  function SellIn(d: DeskState, id: string, user: string, amount: U64, ts: U64): DeskResult<(DeskState, Trade)> {
    if id !in d then Err(MarketNotFound)
    else
      var sold :- SellStep(d[id], user, amount, ts);
      Ok((d[id := sold.0], sold.1))
  }

  function WithdrawIn(d: DeskState, id: string, user: string, amount: U64): DeskResult<DeskState> {
    if id !in d then Err(MarketNotFound)
    else
      var left :- WithdrawStep(d[id], user, amount);
      Ok(d[id := left])
  }

  function SetPausedIn(d: DeskState, id: string, paused: bool): DeskResult<DeskState> {
    if id !in d then Err(MarketNotFound)
    else
      var m :- SetPausedStep(d[id], paused);
      Ok(d[id := m])
  }
}
