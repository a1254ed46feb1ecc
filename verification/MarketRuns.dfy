/** What a market promises over every run of buys, sells, withdrawals and pauses. */
module MarketRuns {
  import opened Numbers
  import opened Curve
  import opened CurveLaws
  import opened MapSum
  import opened MarketModel

  // ---- Budget ----------------------------------------------------------------

  lemma CurveBudgetBracket(feeBp: FeeBp, budget: U64)
    ensures var b := CurveBudget(feeBp, budget);
            && b == budget * 10_000 / (10_000 + feeBp)
            && b <= budget
            && b * (10_000 + feeBp) <= budget * 10_000 < b * (10_000 + feeBp) + (10_000 + feeBp)
  {
    ScaleDown(budget, 10_000 + feeBp);
    ModBound(budget * 10_000 / (10_000 + feeBp), U64_MAX + 1);
  }

  lemma ScaleDown(n: nat, d: nat)
    requires d >= 10_000
    ensures 0 <= n * 10_000 / d <= n
    ensures (n * 10_000 / d) * d <= n * 10_000 < (n * 10_000 / d) * d + d
  {
    FloorBracket(n * 10_000, d);
    MulAdd(10_000, d - 10_000, n);
    MulNonNegative(d - 10_000, n);
    FloorAtMost(n * 10_000, d, n);
  }

  /** The fee on a cost, against the budget that leaves room for it. */
  lemma FeeBracket(feeBp: FeeBp, cost: U64)
    ensures var scaled := cost * (10_000 + feeBp);
            && FeeOn(feeBp, cost) == cost * feeBp / 10_000
            && scaled == cost * 10_000 + cost * feeBp && 0 <= cost * feeBp
  {
    FeeWithin(feeBp, cost);
    MulNonNegative(cost, feeBp);
    MulAdd(10_000, feeBp, cost);
  }

  lemma CostWithinBudget(budget: U64, cost: U64, b: nat, d: nat, fee: nat, product: nat)
    requires d > 0 && cost <= b && b * d <= budget * 10_000 && cost * d == cost * 10_000 + product
    requires fee == product / 10_000
    ensures cost + fee <= budget
  {
    MulCancel(cost, b, d);
    assert product <= (budget - cost) * 10_000;
    hide *;
    FloorAtMost(product, 10_000, budget - cost);
  }

  lemma CostAboveBudget(budget: U64, cost: U64, b: nat, d: nat, fee: nat, product: nat)
    requires d > 0 && cost > b && budget * 10_000 < b * d + d && cost * d == cost * 10_000 + product
    requires fee == product / 10_000 && cost < budget
    ensures cost + fee >= budget
  {
    MulCancel(b + 1, cost, d);
    MulAdd(b, 1, d);
    assert product >= (budget - cost) * 10_000;
    hide *;
    FloorAtLeast(product, 10_000, budget - cost);
  }

  /** A cost fits a curve budget only if cost and fee together fit the whole budget,
      and a cost above the curve budget uses the whole budget up. */
  lemma FeeFitsBudget(feeBp: FeeBp, budget: U64, cost: U64)
    ensures cost <= CurveBudget(feeBp, budget) ==> cost + FeeOn(feeBp, cost) <= budget
    ensures cost > CurveBudget(feeBp, budget) ==> cost + FeeOn(feeBp, cost) >= budget
  {
    var b, d := CurveBudget(feeBp, budget), 10_000 + feeBp;
    CurveBudgetBracket(feeBp, budget);
    FeeBracket(feeBp, cost);
    hide CurveBudget, FeeOn;
    if cost <= b {
      CostWithinBudget(budget, cost, b, d, FeeOn(feeBp, cost), cost * feeBp);
    } else if cost < budget {
      CostAboveBudget(budget, cost, b, d, FeeOn(feeBp, cost), cost * feeBp);
    }
  }

  /** Everything a successful buy preview says. */
  lemma PreviewBuyMeaning(m: MarketState, budget: U64)
    requires m.supply <= m.params.cap && PreviewBuy(m, budget).Ok?
    ensures var p := PreviewBuy(m, budget).value;
            && p.tokens > 0
            && p.newSupply == m.supply + p.tokens <= m.params.cap
            && CostToBuy(m.params, m.supply, p.tokens) == Ok(p.cost)
            && p.fee == p.cost * m.feeBp / 10_000
            && p.total == p.cost + p.fee <= budget
            && forall t: U64 :: t <= m.params.cap - m.supply ==>
                 (Affordable(m.params, m.supply, t, CurveBudget(m.feeBp, budget)) <==> t <= p.tokens)
  {
    TokensForSatsIsMaximal(m.params, m.supply, CurveBudget(m.feeBp, budget));
    var p := PreviewBuy(m, budget).value;
    FeeFitsBudget(m.feeBp, budget, p.cost);
    FeeWithin(m.feeBp, p.cost);
  }

  /** A buy never spends more than its budget, and one more priceable token would
      have used the budget up. */
  lemma BudgetIsUsed(m: MarketState, budget: U64)
    requires m.supply <= m.params.cap && PreviewBuy(m, budget).Ok?
    ensures var p := PreviewBuy(m, budget).value;
            && p.total <= budget
            && (p.newSupply < m.params.cap && CostToBuy(m.params, m.supply, p.tokens + 1).Ok? ==>
                  var next := CostToBuy(m.params, m.supply, p.tokens + 1).value;
                  next + FeeOn(m.feeBp, next) >= budget)
  {
    PreviewBuyMeaning(m, budget);
    var p := PreviewBuy(m, budget).value;
    if p.newSupply < m.params.cap && CostToBuy(m.params, m.supply, p.tokens + 1).Ok? {
      var t: U64 := p.tokens + 1;
      assert !Affordable(m.params, m.supply, t, CurveBudget(m.feeBp, budget));
      FeeFitsBudget(m.feeBp, budget, CostToBuy(m.params, m.supply, t).value);
    }
  }

  /** On the flat curve at one sat per token, tokens and sats are the same number. */
  lemma UnitPrice(c: CurveParams, a: U64)
    requires c == CurveParams(1, 0, 1, c.cap, 0) && 0 < a <= c.cap
    ensures CostToBuy(c, 0, a) == Ok(a)
  {
    CostMeaning(c, 0, a);
    assert Area(c, a) == 2 * a;
  }

  lemma UnitSearch(c: ValidCurve, budget: U64)
    requires c == CurveParams(1, 0, 1, c.cap, 0) && 0 < budget <= c.cap
    ensures TokensForSats(c, 0, budget) == Ok(BuyQuote(budget, budget, budget, AvgPriceMsat(budget, budget)))
  {
    UnitPrice(c, budget);
    assert Affordable(c, 0, budget, budget);
    var t := MaxAffordable(c, 0, budget, c.cap);
    UnitPrice(c, t);
  }

  /** The bound is not strict: on that curve, with the smallest fee and a budget of two
      sats, two tokens would cost exactly the budget, yet the preview buys one. */
  lemma BudgetCanBeLeftUnspent(m: MarketState, budget: U64)
    requires m.params == CurveParams(1, 0, 1, m.params.cap, 0) && m.params.cap >= budget && m.feeBp == 1
    requires m.supply == 0 && m.status == Trading && budget == 2
    ensures PreviewBuy(m, budget).Ok?
    ensures PreviewBuy(m, budget).value.tokens == 1 && PreviewBuy(m, budget).value.total == 1
    ensures CostToBuy(m.params, 0, 2) == Ok(2) && 2 + FeeOn(m.feeBp, 2) == budget
  {
    CurveBudgetBracket(1, 2);
    UnitSearch(m.params, 1);
    UnitPrice(m.params, 2);
    FeeWithin(1, 1);
    FeeWithin(1, 2);
  }

  // ---- The trade log as a journal ----------------------------------------------

  /** Totals rebuilt from a trade log alone. */
  datatype Journal = Journal(supply: int, reserve: int, fees: int, paidIn: int, paidOut: int)

  function Post(j: Journal, t: Trade): Journal {
    match t.side
    case Buy =>
      Journal(j.supply + t.tokens, j.reserve + t.sats, j.fees + t.fee, j.paidIn + t.sats + t.fee, j.paidOut)
    case Sell =>
      Journal(j.supply - t.tokens, j.reserve - t.sats, j.fees + t.fee, j.paidIn, j.paidOut + t.sats - t.fee)
  }

  function Replay(trades: seq<Trade>): Journal {
    if trades == [] then Journal(0, 0, 0, 0, 0)
    else Post(Replay(trades[..|trades| - 1]), trades[|trades| - 1])
  }

  /** Every recorded supply is the replayed one, and no trade is empty. */
  ghost predicate Faithful(trades: seq<Trade>) {
    forall i :: 0 <= i < |trades| ==>
      trades[i].tokens > 0 && trades[i].supplyAfter == Replay(trades[..i + 1]).supply
  }

  lemma ReplayAppend(trades: seq<Trade>, t: Trade)
    ensures Replay(trades + [t]) == Post(Replay(trades), t)
    ensures Faithful(trades) && t.tokens > 0 && t.supplyAfter == Post(Replay(trades), t).supply
            ==> Faithful(trades + [t])
  {
    var all := trades + [t];
    assert all[..|trades|] == trades;
    assert all[..|trades| + 1] == all;
    if Faithful(trades) && t.tokens > 0 && t.supplyAfter == Post(Replay(trades), t).supply {
      forall i | 0 <= i < |all|
        ensures all[i].tokens > 0 && all[i].supplyAfter == Replay(all[..i + 1]).supply
      {
        if i < |trades| {
          assert all[..i + 1] == trades[..i + 1];
        }
      }
    }
  }

  // ---- The invariant -------------------------------------------------------------

  /** Rounding dust: what the reserve holds beyond the exact area, times `2 * denom`. */
  function Dust(m: MarketState): int {
    m.reserve * (2 * m.params.denom) - Area(m.params, m.supply)
  }

  ghost predicate LedgerOk(m: MarketState) {
    && Sum(m.balances) + m.withdrawn == m.supply <= m.params.cap
    && forall u :: u in m.balances ==> m.balances[u] > 0
  }

  ghost predicate DustOk(m: MarketState) {
    && 0 <= Dust(m)
    && (m.trades != [] ==> Dust(m) < |m.trades| * (2 * m.params.denom))
    && (m.trades == [] ==> m.supply == 0 && m.reserve == 0)
  }

  ghost predicate JournalOk(m: MarketState) {
    && Faithful(m.trades)
    && var j := Replay(m.trades);
       j.supply == m.supply && j.reserve == m.reserve && j.fees == m.fees
  }

  predicate StatusOk(m: MarketState) {
    m.status != Migrated ==> !IsMigratable(m.params, m.supply)
  }

  ghost predicate Inv(m: MarketState) {
    LedgerOk(m) && DustOk(m) && JournalOk(m) && StatusOk(m)
  }

  lemma EmptyKeepsInvariant(spec: MarketSpec, ts: U64)
    requires Validate(spec.params) && spec.feeBp <= MAX_FEE_BP
    ensures Inv(Empty(spec, ts))
  {
    var m := Empty(spec, ts);
    ReserveMeaning(m.params, 0);
    FloorAtMost(0, 2 * m.params.denom, 0);
  }

  /** A credit adds to the ledger exactly what was bought. */
  lemma CreditSum(balances: map<string, nat>, user: string, tokens: nat)
    ensures Sum(balances[user := BalanceOf(balances, user) + tokens]) == Sum(balances) + tokens
  {
    SumUpdate(balances, user, BalanceOf(balances, user) + tokens);
  }

  /** A debit takes from the ledger exactly what was sold or withdrawn, and leaves no
      empty entry behind. */
  lemma DebitSum(balances: map<string, nat>, user: string, amount: nat)
    requires amount <= BalanceOf(balances, user)
    requires forall u :: u in balances ==> balances[u] > 0
    ensures Sum(Debited(balances, user, amount)) == Sum(balances) - amount
    ensures forall u :: u in Debited(balances, user, amount) ==> Debited(balances, user, amount)[u] > 0
  {
    SumUpdate(balances, user, BalanceOf(balances, user) - amount);
    SumRemove(balances, user);
  }

  /** A holder never has more than the whole supply. */
  lemma HolderWithinSupply(m: MarketState, user: string)
    requires LedgerOk(m)
    ensures BalanceOf(m.balances, user) <= m.supply
    ensures m.withdrawn <= m.supply <= m.params.cap
  {
    SumBounds(m.balances);
  }

  /** One buy: dust grows by less than one sat, and by nothing less than zero. */
  lemma BuyDust(m: MarketState, user: string, budget: U64, ts: U64)
    requires m.supply <= m.params.cap && BuyStep(m, user, budget, ts).Ok?
    ensures var after := BuyStep(m, user, budget, ts).value.0;
            Dust(m) <= Dust(after) < Dust(m) + 2 * m.params.denom
  {
    PreviewBuyMeaning(m, budget);
    var p := PreviewBuy(m, budget).value;
    CostBracket(m.params, m.supply, p.tokens);
    MulAdd(m.reserve, p.cost, 2 * m.params.denom);
  }

  lemma PreviewSellMeaning(m: MarketState, user: string, amount: U64)
    requires PreviewSell(m, user, amount).Ok?
    ensures var p := PreviewSell(m, user, amount).value;
            && 0 < amount <= BalanceOf(m.balances, user)
            && amount <= m.supply
            && RefundToSell(m.params, m.supply, amount) == Ok(p.refund)
            && p.fee == p.refund * m.feeBp / 10_000 <= p.refund
            && p.payout == p.refund - p.fee
            && p.newSupply == m.supply - amount
  {
    FeeWithin(m.feeBp, PreviewSell(m, user, amount).value.refund);
  }

  /** One sell: the same bracket. */
  lemma SellDust(m: MarketState, user: string, amount: U64, ts: U64)
    requires SellStep(m, user, amount, ts).Ok?
    ensures var after := SellStep(m, user, amount, ts).value.0;
            Dust(m) <= Dust(after) < Dust(m) + 2 * m.params.denom
  {
    PreviewSellMeaning(m, user, amount);
    var p := PreviewSell(m, user, amount).value;
    RefundBracket(m.params, m.supply, amount);
    MulAdd(m.reserve, p.refund, 2 * m.params.denom);
  }

  lemma DustStep(m: MarketState, after: MarketState, t: Trade)
    requires DustOk(m) && after.params == m.params && after.trades == m.trades + [t]
    requires Dust(m) <= Dust(after) < Dust(m) + 2 * m.params.denom
    ensures DustOk(after)
  {
    MulAdd(|m.trades|, 1, 2 * m.params.denom);
    if m.trades == [] {
      assert Dust(m) == 0;
    }
  }

  lemma BuyKeepsLedger(m: MarketState, user: string, budget: U64, ts: U64)
    requires LedgerOk(m) && BuyStep(m, user, budget, ts).Ok?
    ensures LedgerOk(BuyStep(m, user, budget, ts).value.0)
  {
    PreviewBuyMeaning(m, budget);
    CreditSum(m.balances, user, PreviewBuy(m, budget).value.tokens);
  }

  lemma SellKeepsLedger(m: MarketState, user: string, amount: U64, ts: U64)
    requires LedgerOk(m) && SellStep(m, user, amount, ts).Ok?
    ensures LedgerOk(SellStep(m, user, amount, ts).value.0)
  {
    PreviewSellMeaning(m, user, amount);
    DebitSum(m.balances, user, amount);
  }

  lemma WithdrawKeepsLedger(m: MarketState, user: string, amount: U64)
    requires LedgerOk(m) && WithdrawStep(m, user, amount).Ok?
    ensures LedgerOk(WithdrawStep(m, user, amount).value)
    ensures WithdrawStep(m, user, amount).value.withdrawn == m.withdrawn + amount
  {
    SumBounds(m.balances);
    DebitSum(m.balances, user, amount);
  }

  lemma BuyKeepsInvariant(m: MarketState, user: string, budget: U64, ts: U64)
    requires Inv(m) && BuyStep(m, user, budget, ts).Ok?
    ensures Inv(BuyStep(m, user, budget, ts).value.0)
  {
    var (after, trade) := BuyStep(m, user, budget, ts).value;
    PreviewBuyMeaning(m, budget);
    BuyDust(m, user, budget, ts);
    DustStep(m, after, trade);
    BuyKeepsLedger(m, user, budget, ts);
    ReplayAppend(m.trades, trade);
  }

  lemma SellKeepsInvariant(m: MarketState, user: string, amount: U64, ts: U64)
    requires Inv(m) && SellStep(m, user, amount, ts).Ok?
    ensures Inv(SellStep(m, user, amount, ts).value.0)
  {
    var (after, trade) := SellStep(m, user, amount, ts).value;
    PreviewSellMeaning(m, user, amount);
    SellDust(m, user, amount, ts);
    DustStep(m, after, trade);
    SellKeepsLedger(m, user, amount, ts);
    ReplayAppend(m.trades, trade);
  }

  lemma CreateKeepsInvariant(spec: MarketSpec, ts: U64)
    requires Create(spec, ts).Ok?
    ensures Inv(Create(spec, ts).value)
  {
    EmptyKeepsInvariant(spec, ts);
    if spec.seed > 0 {
      BuyKeepsInvariant(Empty(spec, ts), spec.creator, spec.seed, ts);
    }
  }

  // ---- Runs ------------------------------------------------------------------------

  datatype Op =
    | DoBuy(user: string, budget: U64, ts: U64)
    | DoSell(user: string, amount: U64, ts: U64)
    | DoWithdraw(user: string, amount: U64)
    | DoSetPaused(paused: bool)

  /** One operation; a refused one leaves the market as it was. */
  function Apply(m: MarketState, op: Op): MarketState {
    match op
    case DoBuy(user, budget, ts) =>
      (var r := BuyStep(m, user, budget, ts); if r.Ok? then r.value.0 else m)
    case DoSell(user, amount, ts) =>
      (var r := SellStep(m, user, amount, ts); if r.Ok? then r.value.0 else m)
    case DoWithdraw(user, amount) =>
      (var r := WithdrawStep(m, user, amount); if r.Ok? then r.value else m)
    case DoSetPaused(paused) =>
      (var r := SetPausedStep(m, paused); if r.Ok? then r.value else m)
  }

  function Run(m: MarketState, ops: seq<Op>): MarketState
    decreases |ops|
  {
    if ops == [] then m else Run(Apply(m, ops[0]), ops[1..])
  }

  lemma ApplyKeepsInvariant(m: MarketState, op: Op)
    requires Inv(m)
    ensures Inv(Apply(m, op))
  {
    match op
    case DoBuy(user, budget, ts) =>
      if BuyStep(m, user, budget, ts).Ok? { BuyKeepsInvariant(m, user, budget, ts); }
    case DoSell(user, amount, ts) =>
      if SellStep(m, user, amount, ts).Ok? { SellKeepsInvariant(m, user, amount, ts); }
    case DoWithdraw(user, amount) =>
      if WithdrawStep(m, user, amount).Ok? { WithdrawKeepsLedger(m, user, amount); }
    case DoSetPaused(paused) =>
  }

  /** The invariant holds in every market reachable from creation: solvency in exact
      form, ledger conservation, faithful journal, migration status. */
  lemma {:induction false} RunKeepsInvariant(m: MarketState, ops: seq<Op>)
    requires Inv(m)
    ensures Inv(Run(m, ops))
    decreases |ops|
  {
    if ops != [] {
      ApplyKeepsInvariant(m, ops[0]);
      RunKeepsInvariant(Apply(m, ops[0]), ops[1..]);
    }
  }

  lemma ReachableMarketsAreSound(spec: MarketSpec, ts: U64, ops: seq<Op>)
    requires Create(spec, ts).Ok?
    ensures Inv(Run(Create(spec, ts).value, ops))
  {
    CreateKeepsInvariant(spec, ts);
    RunKeepsInvariant(Create(spec, ts).value, ops);
  }
}
