/** The desk as the program runs it: markets are objects updated in place, in the
    order of the source's own statements. Every method is tied to the function of
    `MarketModel` that gives its result and the whole state it leaves behind; a
    refused operation leaves all of it untouched. */
module Desk {
  import opened Numbers
  import opened Curve
  import opened CurveLaws
  import opened MapSum
  import opened MarketModel
  import opened MarketRuns

  class Market {
    const info: MarketInfo
    const params: ValidCurve
    const feeBp: FeeBp
    var status: MarketStatus
    var supply: U64
    var reserve: nat
    var withdrawn: U64
    var fees: nat
    var balances: map<string, U64>
    var trades: seq<Trade>

    function State(): MarketState
      reads this
    {
      MarketState(info, params, feeBp, status, supply, reserve, withdrawn, fees, balances, trades)
    }

    constructor (spec: MarketSpec, ts: U64)
      requires Validate(spec.params) && spec.feeBp <= MAX_FEE_BP
      ensures State() == Empty(spec, ts)
    {
      info := MarketInfo(spec.tokenId, spec.ticker, spec.name, spec.creator, spec.visibility, ts);
      params, feeBp := spec.params, spec.feeBp;
      status, supply, reserve, withdrawn, fees := Trading, 0, 0, 0, 0;
      balances, trades := map[], [];
    }

    method QuoteBudget(budget: U64) returns (r: DeskResult<BuyPreview>)
      ensures r == PreviewBuy(State(), budget)
    {
      if status != Trading {
        return Err(NotTrading);
      }
      var q := FindTokensForSats(params, supply, CurveBudget(feeBp, budget));
      if q.Err? {
        return Err(CurveFailure(q.error));
      }
      if q.value.tokens == 0 {
        return Err(DustAmount);
      }
      r := Ok(PreviewOfQuote(feeBp, q.value));
    }

    method MaybeMigrate()
      modifies this`status
      ensures State() == Settled(old(State()))
    {
      if status == Trading && IsMigratable(params, supply) {
        status := Migrated;
      }
    }

    method ExecuteBuy(user: string, budget: U64, ts: U64) returns (r: DeskResult<Trade>)
      requires LedgerOk(State())
      modifies this
      ensures LedgerOk(State())
      ensures match BuyStep(old(State()), user, budget, ts)
              case Ok(bought) => r == Ok(bought.1) && State() == bought.0
              case Err(e) => r == Err(e) && State() == old(State())
    {
      hide LedgerOk, PreviewBuy, IsMigratable, CostToBuy, Affordable;
      var preview := QuoteBudget(budget);
      if preview.Err? {
        return Err(preview.error);
      }
      var p := preview.value;
      HolderWithinSupply(State(), user);
      PreviewBuyMeaning(State(), budget);
      BuyKeepsLedger(State(), user, budget, ts);
      var held := if user in balances then balances[user] else 0;
      supply := p.newSupply;
      reserve := reserve + p.cost;
      fees := fees + p.fee;
      balances := balances[user := held + p.tokens];
      var trade := Trade(ts, Buy, user, p.tokens, p.cost, p.fee, supply, p.avgPriceMsat);
      trades := trades + [trade];
      MaybeMigrate();
      r := Ok(trade);
    }

    /** The reserve is written before the ledger entry is looked up again; that the
        entry is there is what makes the second lookup's error unreachable. */
    method ExecuteSell(user: string, amount: U64, ts: U64) returns (r: DeskResult<Trade>)
      requires LedgerOk(State())
      modifies this
      ensures LedgerOk(State())
      ensures match SellStep(old(State()), user, amount, ts)
              case Ok(sold) => r == Ok(sold.1) && State() == sold.0
              case Err(e) => r == Err(e) && State() == old(State())
    {
      hide LedgerOk, PreviewSell, IsMigratable, RefundToSell;
      var preview := PreviewSell(State(), user, amount);
      if preview.Err? {
        return Err(preview.error);
      }
      var p := preview.value;
      PreviewSellMeaning(State(), user, amount);
      if reserve < p.refund {
        return Err(ReserveUnderflow);
      }
      SellKeepsLedger(State(), user, amount, ts);
      reserve := reserve - p.refund;
      fees := fees + p.fee;
      if user !in balances {
        return Err(InsufficientBalance);
      }
      balances := balances[user := balances[user] - amount];
      if balances[user] == 0 {
        balances := balances - {user};
      }
      assert balances == Debited(old(balances), user, amount);
      supply := supply - amount;
      var trade := Trade(ts, Sell, user, amount, p.refund, p.fee, supply, p.avgPriceMsat);
      trades := trades + [trade];
      MaybeMigrate();
      r := Ok(trade);
    }

    method ExecuteWithdraw(user: string, amount: U64) returns (r: DeskResult<()>)
      requires LedgerOk(State())
      modifies this
      ensures LedgerOk(State())
      ensures match WithdrawStep(old(State()), user, amount)
              case Ok(after) => r == Ok(()) && State() == after
              case Err(e) => r == Err(e) && State() == old(State())
    {
      if amount == 0 {
        return Err(DustAmount);
      }
      if (if user in balances then balances[user] else 0) < amount {
        return Err(InsufficientBalance);
      }
      WithdrawKeepsLedger(State(), user, amount);
      balances := balances[user := balances[user] - amount];
      if balances[user] == 0 {
        balances := balances - {user};
      }
      assert balances == Debited(old(balances), user, amount);
      withdrawn := Min(withdrawn + amount, U64_MAX);
      r := Ok(());
    }
  }

  predicate Distinct(markets: map<string, Market>) {
    forall i, j :: i in markets && j in markets && markets[i] == markets[j] ==> i == j
  }

  lemma StatusKeepsLedger(m: MarketState, status: MarketStatus)
    requires LedgerOk(m)
    ensures LedgerOk(m.(status := status))
  {}

  class Desk {
    var markets: map<string, Market>
    /** The state of every market, kept in step with the objects by `Valid`. */
    ghost var view: DeskState

    /** Distinct ids name distinct objects, `view` is what they hold, and every
        market's ledger adds up. */
    ghost predicate Valid()
      reads this, markets.Values
    {
      && (forall id :: id in view <==> id in markets)
      && (forall id :: id in markets ==> view[id] == markets[id].State() && LedgerOk(view[id]))
      && Distinct(markets)
    }

    constructor ()
      ensures Valid() && view == map[]
    {
      markets, view := map[], map[];
    }

    method CreateMarket(spec: MarketSpec, ts: U64) returns (r: DeskResult<()>)
      requires Valid()
      modifies this
      ensures Valid()
      ensures match CreateIn(old(view), spec, ts)
              case Ok(d) => r == Ok(()) && view == d
              case Err(e) => r == Err(e) && view == old(view)
    {
      hide Create, LedgerOk;
      if !Validate(spec.params) {
        return Err(CurveFailure(InvalidParams));
      }
      if spec.feeBp > MAX_FEE_BP {
        return Err(FeeTooHigh);
      }
      if spec.tokenId in markets {
        return Err(MarketExists);
      }
      var listed := OpenMarket(spec, ts);
      if listed.Err? {
        return Err(listed.error);
      }
      List(spec.tokenId, listed.value);
      r := Ok(());
    }

    /** Put one more market object under a free id. */
    method List(id: string, m: Market)
      requires Valid() && id !in markets && m !in markets.Values && LedgerOk(m.State())
      modifies this
      ensures Valid()
      ensures markets == old(markets)[id := m] && view == old(view)[id := m.State()]
    {
      assert forall other :: other in markets ==> markets[other] != m;
      markets, view := markets[id := m], view[id := m.State()];
    }

    /** The new market before it is listed, seeded by its creator when asked. */
    static method OpenMarket(spec: MarketSpec, ts: U64) returns (r: DeskResult<Market>)
      requires Validate(spec.params) && spec.feeBp <= MAX_FEE_BP
      ensures match Create(spec, ts)
              case Ok(m) => r.Ok? && fresh(r.value) && r.value.State() == m && LedgerOk(m)
              case Err(e) => r == Err(e)
    {
      var m := new Market(spec, ts);
      if spec.seed > 0 {
        var seeded := m.ExecuteBuy(spec.creator, spec.seed, ts);
        if seeded.Err? {
          return Err(seeded.error);
        }
      }
      r := Ok(m);
    }

    /** Every market but this one is as the view has it. */
    ghost predicate ValidBut(id: string, m: Market)
      reads this, markets.Values
    {
      && (forall id :: id in view <==> id in markets) && id in markets && markets[id] == m
      && (forall other :: other in markets && other != id ==>
            view[other] == markets[other].State() && LedgerOk(view[other]))
      && Distinct(markets)
    }

    /** Bring the view up to date with the one market that changed. */
    ghost method Review(id: string, m: Market)
      requires ValidBut(id, m) && LedgerOk(m.State())
      modifies this`view
      ensures Valid() && view == old(view)[id := m.State()]
    {
      hide LedgerOk, Distinct;
      ghost var now := m.State();
      view := view[id := now];
      forall other | other in markets
        ensures view[other] == markets[other].State() && LedgerOk(view[other])
      {
        assert other == id || view[other] == old(view)[other];
      }
    }

    method BuyTokens(id: string, user: string, budget: U64, ts: U64) returns (r: DeskResult<Trade>)
      requires Valid()
      modifies this`view, markets.Values
      ensures Valid()
      ensures match BuyIn(old(view), id, user, budget, ts)
              case Ok(bought) => r == Ok(bought.1) && view == bought.0
              case Err(e) => r == Err(e) && view == old(view)
    {
      hide BuyStep, LedgerOk;
      if id !in markets {
        return Err(MarketNotFound);
      }
      var m := markets[id];
      r := m.ExecuteBuy(user, budget, ts);
      Review(id, m);
    }

    method SellTokens(id: string, user: string, amount: U64, ts: U64) returns (r: DeskResult<Trade>)
      requires Valid()
      modifies this`view, markets.Values
      ensures Valid()
      ensures match SellIn(old(view), id, user, amount, ts)
              case Ok(sold) => r == Ok(sold.1) && view == sold.0
              case Err(e) => r == Err(e) && view == old(view)
    {
      hide SellStep, LedgerOk;
      if id !in markets {
        return Err(MarketNotFound);
      }
      var m := markets[id];
      r := m.ExecuteSell(user, amount, ts);
      Review(id, m);
    }

    method WithdrawTokens(id: string, user: string, amount: U64) returns (r: DeskResult<()>)
      requires Valid()
      modifies this`view, markets.Values
      ensures Valid()
      ensures match WithdrawIn(old(view), id, user, amount)
              case Ok(d) => r == Ok(()) && view == d
              case Err(e) => r == Err(e) && view == old(view)
    {
      hide WithdrawStep, LedgerOk;
      if id !in markets {
        return Err(MarketNotFound);
      }
      var m := markets[id];
      r := m.ExecuteWithdraw(user, amount);
      Review(id, m);
    }

    method SetPaused(id: string, paused: bool) returns (r: DeskResult<()>)
      requires Valid()
      modifies this`view, markets.Values
      ensures Valid()
      ensures match SetPausedIn(old(view), id, paused)
              case Ok(d) => r == Ok(()) && view == d
              case Err(e) => r == Err(e) && view == old(view)
      ensures r == Err(MarketNotFound) <==> id !in old(view)
      ensures r == Err(AlreadyMigrated) <==> id in old(view) && old(view)[id].status == Migrated
      ensures r.Ok? <==> id in old(view) && old(view)[id].status != Migrated
      ensures r.Ok? ==> view == old(view)[id := old(view)[id].(status := if paused then Paused else Trading)]
    {
      hide LedgerOk;
      if id !in markets {
        return Err(MarketNotFound);
      }
      var m := markets[id];
      if m.status == Migrated {
        return Err(AlreadyMigrated);
      }
      m.status := if paused then Paused else Trading;
      StatusKeepsLedger(old(view)[id], m.status);
      Review(id, m);
      r := Ok(());
    }
  }
}
