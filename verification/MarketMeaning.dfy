/** What each operation of a market does to its fields, and exactly when it is refused. */
module MarketMeaning {
  import opened Numbers
  import opened Curve
  import opened CurveLaws
  import opened CurveDisplays
  import opened MarketModel
  import opened MarketRuns

  /** The terms a market was created with. */
  predicate SameTerms(m: MarketState, after: MarketState) {
    after.info == m.info && after.params == m.params && after.feeBp == m.feeBp
  }

  /** `after` has one more trade: its supply, reserve and fees, and the log's last entry, move by
      what the trade says, and the price it shows is its average in thousandths of a sat. */
  predicate Booked(m: MarketState, after: MarketState, t: Trade) {
    && SameTerms(m, after) && after.withdrawn == m.withdrawn
    && after.trades == m.trades + [t]
    && after.fees == m.fees + t.fee && t.fee == t.sats * m.feeBp / 10_000
    && t.supplyAfter == after.supply
    && t.priceMsat * t.tokens <= t.sats * 1000
    && (t.priceMsat < U64_MAX ==> t.sats * 1000 < (t.priceMsat + 1) * t.tokens)
  }

  /** The area below the supply pays for the migration target. */
  predicate TargetReached(c: CurveParams, supply: nat)
    requires c.denom > 0
  {
    && c.migration > 0 && supply <= c.cap && Area(c, supply) <= U128_MAX
    && c.migration <= Area(c, supply) / (2 * c.denom) <= U64_MAX
  }

  lemma MigratableIsTarget(c: ValidCurve, supply: U64)
    ensures IsMigratable(c, supply) <==> TargetReached(c, supply)
  {
    ReserveMeaning(c, supply);
  }

  // ---- Buying ---------------------------------------------------------------------

  lemma CurveShare(feeBp: FeeBp, budget: U64)
    ensures CurveBudget(feeBp, budget) == budget * 10_000 / (10_000 + feeBp)
  {
    CurveBudgetBracket(feeBp, budget);
  }

  lemma BuysStayUnderCap(m: MarketState, budget: U64)
    requires PreviewBuy(m, budget).Ok?
    ensures m.supply <= m.params.cap
  {
    hide SpotPriceMsat, QuoteBuy, MaxAffordable, CurveBudget;
  }

  lemma PreviewPrices(m: MarketState, budget: U64)
    requires m.supply <= m.params.cap && PreviewBuy(m, budget).Ok?
    ensures var p := PreviewBuy(m, budget).value;
            && QuoteBuy(m.params, m.supply, p.tokens).Ok?
            && var q := QuoteBuy(m.params, m.supply, p.tokens).value;
               p.cost == q.cost && p.avgPriceMsat == q.avgPriceMsat && p.newSupply == q.newSupply
  {
    hide CostToBuy, SpotPriceMsat, Affordable;
  }

  /** No amount from `low` up to the cap costs at most `sats`. */
  ghost predicate NoneCostsAtMost(c: CurveParams, supply: U64, low: nat, sats: U64) {
    forall t: U64 :: low <= t && supply + t <= c.cap ==>
      CostToBuy(c, supply, t).Ok? ==> CostToBuy(c, supply, t).value > sats
  }

  lemma NothingAffordable(c: ValidCurve, supply: U64, sats: U64)
    requires supply <= c.cap
    ensures NoneCostsAtMost(c, supply, 1, sats) <==> MaxAffordable(c, supply, sats, c.cap - supply) == 0
  {
    var most := MaxAffordable(c, supply, sats, c.cap - supply);
    assert Affordable(c, supply, most, sats);
    hide CostToBuy, MaxAffordable;
    if most == 0 {
      forall t: U64 | 1 <= t && supply + t <= c.cap
        ensures CostToBuy(c, supply, t).Ok? ==> CostToBuy(c, supply, t).value > sats
      {
        assert !Affordable(c, supply, t, sats);
      }
    }
  }

  /** A preview answers in one of three ways: a purchase when some amount is affordable with the
      budget's curve share, dust when none is, and an overflow when even the spot price to
      show instead cannot be given. */
  lemma PreviewDecided(m: MarketState, budget: U64, share: U64)
    requires m.supply <= m.params.cap && m.status == Trading && share == budget * 10_000 / (10_000 + m.feeBp)
    ensures var none := NoneCostsAtMost(m.params, m.supply, 1, share);
            if !none then PreviewBuy(m, budget).Ok?
            else if SpotPriceMsat(m.params, m.supply).Ok? then PreviewBuy(m, budget) == Err(DustAmount)
            else PreviewBuy(m, budget) == Err(CurveFailure(Overflow))
  {
    CurveShare(m.feeBp, budget);
    NothingAffordable(m.params, m.supply, share);
    SearchDecided(m.params, m.supply, share);
    hide NoneCostsAtMost, MaxAffordable, SpotPriceMsat, CurveBudget, TokensForSats, FeeOn;
  }

  lemma SearchDecided(c: ValidCurve, supply: U64, sats: U64)
    requires supply <= c.cap
    ensures var q, most := TokensForSats(c, supply, sats), MaxAffordable(c, supply, sats, c.cap - supply);
            if most > 0 then q.Ok? && q.value.tokens == most
            else if SpotPriceMsat(c, supply).Ok? then q.Ok? && q.value.tokens == 0
            else q == Err(Overflow)
  {
    SpotMeaning(c, supply);
    TokensForSatsFailsOnlyOnSpot(c, supply, sats);
    if TokensForSats(c, supply, sats).Ok? {
      TokensForSatsIsMaximal(c, supply, sats);
    } else {
      SearchFailsLikeSpot(c, supply, sats);
    }
    hide SpotPriceMsat, TokensForSats, MaxAffordable, Affordable;
  }

  lemma SearchFailsLikeSpot(c: ValidCurve, supply: U64, sats: U64)
    requires supply <= c.cap && TokensForSats(c, supply, sats).Err? && SpotPriceMsat(c, supply) == Err(Overflow)
    ensures TokensForSats(c, supply, sats) == Err(Overflow)
  {
    hide SpotPriceMsat, CostToBuy;
    assert sats > 0 && c.cap > supply ==> Affordable(c, supply, MaxAffordable(c, supply, sats, c.cap - supply), sats);
  }

  /** A buy that goes through takes the greatest amount affordable with the budget's curve share,
      for its rounded-up price and the floored fee, and books it for the buyer alone. */
  lemma BuyMeaning(m: MarketState, user: string, budget: U64, ts: U64, share: U64)
    requires BuyStep(m, user, budget, ts).Ok?
    requires share == budget * 10_000 / (10_000 + m.feeBp)
    ensures var (after, t) := BuyStep(m, user, budget, ts).value;
            && m.status == Trading
            && t.ts == ts && t.side == Buy && t.user == user && t.tokens > 0
            && CostToBuy(m.params, m.supply, t.tokens) == Ok(t.sats)
            && t.sats <= share && NoneCostsAtMost(m.params, m.supply, t.tokens + 1, share)
            && t.sats + t.fee <= budget
            && Booked(m, after, t)
            && after.supply == m.supply + t.tokens <= m.params.cap
            && after.reserve == m.reserve + t.sats
            && after.balances == m.balances[user := (if user in m.balances then m.balances[user] else 0) + t.tokens]
            && after.status == if TargetReached(m.params, after.supply) then Migrated else Trading
  {
    BuysStayUnderCap(m, budget);
    PreviewBuyMeaning(m, budget);
    PreviewPrices(m, budget);
    CurveShare(m.feeBp, budget);
    MoreIsTooMuch(m.params, m.supply, PreviewBuy(m, budget).value.tokens, share);
    hide PreviewBuy, CostToBuy, IsMigratable, CurveBudget, TargetReached, QuoteBuy, NoneCostsAtMost;
    var p := PreviewBuy(m, budget).value;
    QuoteMeaning(m.params, m.supply, p.tokens);
    MigratableIsTarget(m.params, p.newSupply);
  }

  /** Why a buy is refused: the market is not trading, or its preview fails. */
  lemma BuyRefused(m: MarketState, user: string, budget: U64, ts: U64)
    ensures m.status != Trading <==> BuyStep(m, user, budget, ts) == Err(NotTrading)
    ensures m.status == Trading ==>
            (BuyStep(m, user, budget, ts).Ok? <==> PreviewBuy(m, budget).Ok?)
            && (PreviewBuy(m, budget).Err? ==> BuyStep(m, user, budget, ts) == Err(PreviewBuy(m, budget).error))
  {
    hide TokensForSats, CurveBudget, FeeOn, IsMigratable;
  }

  lemma MoreIsTooMuch(c: ValidCurve, supply: U64, most: U64, sats: U64)
    requires supply <= c.cap
    requires forall t: U64 :: t <= c.cap - supply ==> (Affordable(c, supply, t, sats) <==> t <= most)
    ensures NoneCostsAtMost(c, supply, most + 1, sats)
  {
    hide CostToBuy;
    forall t: U64 | most + 1 <= t && supply + t <= c.cap
      ensures CostToBuy(c, supply, t).Ok? ==> CostToBuy(c, supply, t).value > sats
    {
      assert !Affordable(c, supply, t, sats);
    }
  }

  // ---- Selling and withdrawing ------------------------------------------------------

  /** The ledger after `amount` has left one holder: an emptied entry is dropped. */
  ghost predicate TakenFrom(balances: map<string, nat>, after: map<string, nat>, user: string, amount: nat) {
    && user in balances && amount <= balances[user]
    && (forall other :: other != user ==> (other in after <==> other in balances)
                                          && (other in balances ==> after[other] == balances[other]))
    && (user in after <==> balances[user] > amount)
    && (user in after ==> after[user] == balances[user] - amount)
  }

  lemma DebitedIsTaken(balances: map<string, nat>, user: string, amount: nat)
    requires user in balances && amount <= balances[user]
    ensures TakenFrom(balances, Debited(balances, user, amount), user, amount)
  {}

  /** The refusals of a sell, in the order they are tried. */
  lemma SellRefused(m: MarketState, user: string, amount: U64, ts: U64)
    ensures var r, held := SellStep(m, user, amount, ts), if user in m.balances then m.balances[user] else 0;
            if m.status == Paused then r == Err(NotTrading)
            else if amount == 0 then r == Err(DustAmount)
            else if held < amount then r == Err(InsufficientBalance)
            else
              var refund := RefundToSell(m.params, m.supply, amount);
              if refund.Err? then r == Err(CurveFailure(refund.error))
              else if m.reserve < refund.value then r == Err(ReserveUnderflow)
              else r.Ok?
  {
    hide RefundToSell, IsMigratable, FeeOn, AvgPriceMsat;
  }

  /** A sell that goes through pays the rounded-down refund out of the reserve, keeps the
      floored fee, and takes the amount from the seller alone. */
  lemma SellMeaning(m: MarketState, user: string, amount: U64, ts: U64)
    requires SellStep(m, user, amount, ts).Ok?
    ensures var (after, t) := SellStep(m, user, amount, ts).value;
            && m.status != Paused && 0 < amount <= m.supply
            && t.ts == ts && t.side == Sell && t.user == user && t.tokens == amount
            && RefundToSell(m.params, m.supply, amount) == Ok(t.sats) && t.sats <= m.reserve
            && Booked(m, after, t)
            && after.supply == m.supply - amount
            && after.reserve == m.reserve - t.sats
            && TakenFrom(m.balances, after.balances, user, amount)
            && after.status == if m.status == Migrated || TargetReached(m.params, after.supply) then Migrated else Trading
  {
    PreviewSellMeaning(m, user, amount);
    DebitedIsTaken(m.balances, user, amount);
    hide RefundToSell, IsMigratable, TargetReached, TakenFrom, Debited, FeeOn;
    SellQuoteMeaning(m.params, m.supply, amount);
    MigratableIsTarget(m.params, m.supply - amount);
  }

  /** What the seller is told: the payout is the refund less the fee. */
  lemma SellPreviewMeaning(m: MarketState, user: string, amount: U64, ts: U64)
    requires SellStep(m, user, amount, ts).Ok?
    ensures PreviewSell(m, user, amount).Ok?
    ensures var p, t := PreviewSell(m, user, amount).value, SellStep(m, user, amount, ts).value.1;
            && p.tokens == t.tokens && p.refund == t.sats && p.fee == t.fee && p.payout == t.sats - t.fee
            && p.newSupply == t.supplyAfter && p.avgPriceMsat == t.priceMsat
  {
    hide RefundToSell, AvgPriceMsat, FeeOn, IsMigratable;
  }

  /** A withdrawal succeeds exactly when a positive amount is held; it takes that from the holder
      alone, counts it as withdrawn, and leaves supply, reserve, fees and trades. */
  lemma WithdrawMeaning(m: MarketState, user: string, amount: U64)
    ensures var r, held := WithdrawStep(m, user, amount), if user in m.balances then m.balances[user] else 0;
            if amount == 0 then r == Err(DustAmount)
            else if held < amount then r == Err(InsufficientBalance)
            else
              && r.Ok? && TakenFrom(m.balances, r.value.balances, user, amount)
              && r.value.withdrawn == (if m.withdrawn + amount <= U64_MAX then m.withdrawn + amount else U64_MAX)
              && SameTerms(m, r.value) && r.value.status == m.status && r.value.supply == m.supply
              && r.value.reserve == m.reserve && r.value.fees == m.fees && r.value.trades == m.trades
  {
    if 0 < amount <= BalanceOf(m.balances, user) {
      DebitedIsTaken(m.balances, user, amount);
      hide Debited, TakenFrom;
    }
  }

  // ---- Creating -----------------------------------------------------------------------

  /** A market without its opening buy: the terms asked for, and nothing traded. */
  predicate Fresh(m: MarketState, spec: MarketSpec, ts: U64) {
    && m.info.tokenId == spec.tokenId && m.info.ticker == spec.ticker && m.info.name == spec.name
    && m.info.creator == spec.creator && m.info.visibility == spec.visibility && m.info.createdAt == ts
    && m.params == spec.params && m.feeBp == spec.feeBp && m.status == Trading
    && m.supply == 0 && m.reserve == 0 && m.withdrawn == 0 && m.fees == 0 && m.balances == map[] && m.trades == []
  }

  /** Creation fails on parameters that divide by zero, give tokens away or allow none, then on a
      fee above a tenth, then on a taken id, then on the opening buy; otherwise the desk
      has one more market, fresh or after its creator's buy for the seed. */
  lemma CreateMeaning(d: DeskState, spec: MarketSpec, ts: U64, unseeded: MarketSpec)
    requires unseeded == spec.(seed := 0)
    ensures var r, c := CreateIn(d, spec, ts), spec.params;
            if c.denom == 0 || (c.p0 == 0 && c.k == 0) || c.cap == 0 then r == Err(CurveFailure(InvalidParams))
            else if spec.feeBp * 10 > 10_000 then r == Err(FeeTooHigh)
            else if spec.tokenId in d then r == Err(MarketExists)
            else
              && Create(unseeded, ts).Ok? && Fresh(Create(unseeded, ts).value, spec, ts)
              && (if spec.seed == 0 then r == Ok(d[spec.tokenId := Create(unseeded, ts).value])
                  else
                    match BuyStep(Create(unseeded, ts).value, spec.creator, spec.seed, ts)
                    case Err(e) => r == Err(e)
                    case Ok(bought) => r == Ok(d[spec.tokenId := bought.0]))
  {
    hide BuyStep;
  }

  // ---- The desk ------------------------------------------------------------------------

  /** The desk with one market replaced. */
  predicate OnlyChanges(d: DeskState, after: DeskState, id: string, m: MarketState) {
    && id in d && after.Keys == d.Keys && after[id] == m
    && forall other :: other in d && other != id ==> after[other] == d[other]
  }

  /** Every trade at a desk is the trade at its own market; no other market is touched, and an
      unknown id is refused as such. */
  lemma TradesStayApart(d: DeskState, id: string, user: string, n: U64, ts: U64)
    ensures if id !in d then
              && BuyIn(d, id, user, n, ts) == Err(MarketNotFound) && SellIn(d, id, user, n, ts) == Err(MarketNotFound)
              && WithdrawIn(d, id, user, n) == Err(MarketNotFound)
            else
              && (match BuyStep(d[id], user, n, ts)
                  case Err(e) => BuyIn(d, id, user, n, ts) == Err(e)
                  case Ok(bought) => BuyIn(d, id, user, n, ts).Ok?
                                     && OnlyChanges(d, BuyIn(d, id, user, n, ts).value.0, id, bought.0)
                                     && BuyIn(d, id, user, n, ts).value.1 == bought.1)
              && (match SellStep(d[id], user, n, ts)
                  case Err(e) => SellIn(d, id, user, n, ts) == Err(e)
                  case Ok(sold) => SellIn(d, id, user, n, ts).Ok?
                                   && OnlyChanges(d, SellIn(d, id, user, n, ts).value.0, id, sold.0)
                                   && SellIn(d, id, user, n, ts).value.1 == sold.1)
              && (match WithdrawStep(d[id], user, n)
                  case Err(e) => WithdrawIn(d, id, user, n) == Err(e)
                  case Ok(left) => WithdrawIn(d, id, user, n).Ok?
                                   && OnlyChanges(d, WithdrawIn(d, id, user, n).value, id, left))
  {
    hide BuyStep, SellStep, WithdrawStep;
  }

  /** What the desk holds after one operation on a market, carried out or refused. */
  function AfterOp(d: DeskState, id: string, op: Op): DeskState {
    match op
    case DoBuy(user, budget, ts) => (match BuyIn(d, id, user, budget, ts) case Ok(bought) => bought.0 case Err(_) => d)
    case DoSell(user, amount, ts) => (match SellIn(d, id, user, amount, ts) case Ok(sold) => sold.0 case Err(_) => d)
    case DoWithdraw(user, amount) => (match WithdrawIn(d, id, user, amount) case Ok(left) => left case Err(_) => d)
    case DoSetPaused(paused) => (match SetPausedIn(d, id, paused) case Ok(left) => left case Err(_) => d)
  }

  /** The runs of one market are what the desk's operations make of it: each desk operation is a
      step of its market's run, and of no other's. */
  lemma DeskOperationsAreRuns(d: DeskState, id: string, op: Op)
    requires id in d
    ensures OnlyChanges(d, AfterOp(d, id, op), id, Run(d[id], [op]))
  {
    hide BuyStep, SellStep, WithdrawStep, SetPausedStep;
    OneOperation(d[id], op);
  }

  lemma OneOperation(m: MarketState, op: Op)
    ensures Run(m, [op]) == Apply(m, op)
  {
    hide Apply;
    assert [op][1..] == [];
    assert Run(m, [op]) == Run(Apply(m, op), []);
  }

  // ---- Pausing -------------------------------------------------------------------------

  /** Pausing and resuming fail exactly for an unknown or a migrated market. */
  lemma PauseFailsExactlyWhen(d: DeskState, id: string, paused: bool)
    ensures SetPausedIn(d, id, paused) == Err(MarketNotFound) <==> id !in d
    ensures SetPausedIn(d, id, paused) == Err(AlreadyMigrated) <==> id in d && d[id].status == Migrated
    ensures SetPausedIn(d, id, paused).Ok? <==> id in d && d[id].status != Migrated
  {}

  /** Once paused, a market refuses every quote, buy and sell, and nothing else about it or
      about any other market has changed; only its holders may still withdraw. */
  lemma PausedMeansNoTrades(d: DeskState, id: string, user: string, n: U64, ts: U64)
    requires SetPausedIn(d, id, true).Ok?
    ensures var after := SetPausedIn(d, id, true).value;
            && id in d && id in after && OnlyChanges(d, after, id, after[id])
            && after[id].(status := d[id].status) == d[id]
            && PreviewBuy(after[id], n) == Err(NotTrading) && PreviewSell(after[id], user, n) == Err(NotTrading)
            && BuyIn(after, id, user, n, ts) == Err(NotTrading)
            && SellIn(after, id, user, n, ts) == Err(NotTrading)
            && (WithdrawIn(after, id, user, n).Ok? <==> WithdrawIn(d, id, user, n).Ok?)
  {}

  /** Resumed, it quotes by the search again, and trades what it quotes. */
  lemma ResumedMeansTrades(d: DeskState, id: string, user: string, budget: U64, ts: U64, share: U64)
    requires SetPausedIn(d, id, false).Ok? && share == budget * 10_000 / (10_000 + d[id].feeBp)
    ensures var after := SetPausedIn(d, id, false).value;
            && id in d && id in after && OnlyChanges(d, after, id, after[id])
            && after[id].(status := d[id].status) == d[id]
            && var m := d[id];
               && var q := TokensForSats(m.params, m.supply, share);
                  && (q.Err? ==> PreviewBuy(after[id], budget) == Err(CurveFailure(q.error)))
                  && (q.Ok? && q.value.tokens == 0 ==> PreviewBuy(after[id], budget) == Err(DustAmount))
                  && (q.Ok? && q.value.tokens > 0 ==>
                        && PreviewBuy(after[id], budget).Ok? && BuyIn(after, id, user, budget, ts).Ok?
                        && PreviewBuy(after[id], budget).value.tokens == q.value.tokens
                        && PreviewBuy(after[id], budget).value.cost == q.value.cost)
  {
    CurveShare(d[id].feeBp, budget);
    hide TokensForSats, CurveBudget, FeeOn, IsMigratable;
  }

  /** A pause that is lifted again leaves a trading market as it was. */
  lemma PauseThenResume(d: DeskState, id: string)
    requires id in d && d[id].status == Trading
    ensures SetPausedIn(d, id, true).Ok?
    ensures SetPausedIn(SetPausedIn(d, id, true).value, id, false) == Ok(d)
  {
    var resumed := SetPausedIn(SetPausedIn(d, id, true).value, id, false).value;
    assert resumed[id] == d[id];
    assert resumed == d;
  }

  /** As long as nobody resumes it, a paused market stays paused and no operation touches its
      supply, reserve, fees or trades. */
  lemma {:induction false} PausedRunsTradeNothing(m: MarketState, ops: seq<Op>)
    requires m.status == Paused && DoSetPaused(false) !in ops
    ensures var after := Run(m, ops);
            && SameTerms(m, after) && after.status == Paused && after.supply == m.supply
            && after.reserve == m.reserve && after.fees == m.fees && after.trades == m.trades
    decreases |ops|
  {
    if ops != [] {
      var op := ops[0];
      assert op != DoSetPaused(false);
      PausedStepTradesNothing(m, op);
      PausedRunsTradeNothing(Apply(m, op), ops[1..]);
    }
  }

  lemma PausedStepTradesNothing(m: MarketState, op: Op)
    requires m.status == Paused && op != DoSetPaused(false)
    ensures var after := Apply(m, op);
            && SameTerms(m, after) && after.status == Paused && after.supply == m.supply
            && after.reserve == m.reserve && after.fees == m.fees && after.trades == m.trades
  {
    hide BuyStep, SellStep, WithdrawStep, TakenFrom;
    match op
    case DoBuy(user, budget, ts) => BuyRefused(m, user, budget, ts);
    case DoSell(user, amount, ts) => SellRefused(m, user, amount, ts);
    case DoWithdraw(user, amount) => WithdrawMeaning(m, user, amount);
    case DoSetPaused(paused) =>
  }
}
