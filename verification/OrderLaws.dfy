/** What a remote buyer may rely on, over every run of the listener. */
module OrderLaws {
  import opened Numbers
  import opened Curve
  import opened CurveLaws
  import opened MarketModel
  import opened MarketRuns
  import opened Orders

  // ---- The invariant ------------------------------------------------------------

  /** A quote whose parts fit together and fit the budget it was asked for. */
  predicate SoundQuote(cost: U64, fee: U64, tokens: U64, budget: U64) {
    tokens > 0 && cost + fee <= budget
  }

  ghost predicate OrdersOk(s: ListenerState) {
    forall id :: id in s.orders ==>
      var o := s.orders[id];
      o.id == id && SoundQuote(o.cost, o.fee, o.tokens, o.budget)
  }

  predicate DraftOk(s: ListenerState) {
    s.draft.Some? ==>
      var d := s.draft.value;
      d.id !in s.orders && SoundQuote(d.preview.cost, d.preview.fee, d.preview.tokens, d.budget)
  }

  /** The preimage has this payment hash: the hex of its sha256 is the payment hash, character
      by character, with upper-case letters read as lower-case ones. */
  predicate Releases(paymentHash: string, preimage: string, hashOf: HashOfPreimage) {
    && hashOf(preimage).Some?
    && var hash := hashOf(preimage).value;
       && |hash| == |paymentHash|
       && forall i :: 0 <= i < |hash| ==>
            var c := paymentHash[i];
            if 'A' <= c <= 'Z' then hash[i] as int == c as int + 32 else hash[i] == c
  }

  lemma VerifiedReleases(o: Order, preimage: string, hashOf: HashOfPreimage)
    ensures VerifyPreimage(o, preimage, hashOf) <==> Releases(o.paymentHash, preimage, hashOf)
  {
    var low := Lower(o.paymentHash);
    assert forall i :: 0 <= i < |low| ==> low[i] == LowerChar(o.paymentHash[i]);
    if Releases(o.paymentHash, preimage, hashOf) {
      assert hashOf(preimage).value == low;
    }
  }

  /** A fill belongs to a filled order of the same buyer, was released by its preimage,
      and spent no more than the order was quoted. */
  predicate FillOk(s: ListenerState, f: Fill, hashOf: HashOfPreimage) {
    && f.orderId in s.orders
    && var o := s.orders[f.orderId];
       && o.status == Filled
       && Releases(o.paymentHash, f.preimage, hashOf)
       && f.trade.side == Buy && f.trade.user == o.buyer
       && f.trade.sats + f.trade.fee <= o.cost + o.fee
  }

  ghost predicate FillsOk(s: ListenerState, hashOf: HashOfPreimage) {
    && (forall i :: 0 <= i < |s.fills| ==> FillOk(s, s.fills[i], hashOf))
    && (forall i, j :: 0 <= i < j < |s.fills| ==> s.fills[i].orderId != s.fills[j].orderId)
    && (forall id :: id in s.orders && s.orders[id].status == Filled ==>
          exists i :: 0 <= i < |s.fills| && s.fills[i].orderId == id)
  }

  ghost predicate DeskOk(d: DeskState) {
    forall id :: id in d ==> Inv(d[id])
  }

  ghost predicate ListenerInv(s: ListenerState, hashOf: HashOfPreimage) {
    DeskOk(s.desk) && OrdersOk(s) && DraftOk(s) && FillsOk(s, hashOf)
  }

  predicate Initial(s: ListenerState) {
    s.desk == map[] && s.orders == map[] && s.draft == None && s.fills == []
  }

  /** What a desk buy contributes: a sound desk and a trade within its budget. */
  lemma BuyInFacts(d: DeskState, asset: string, buyer: string, budget: U64, now: U64)
    requires DeskOk(d) && BuyIn(d, asset, buyer, budget, now).Ok?
    ensures var (after, trade) := BuyIn(d, asset, buyer, budget, now).value;
            DeskOk(after) && trade.side == Buy && trade.user == buyer && trade.sats + trade.fee <= budget
  {
    BuyKeepsInvariant(d[asset], buyer, budget, now);
    PreviewBuyMeaning(d[asset], budget);
  }

  lemma RecordedFill(s: ListenerState, desk: DeskState, f: Fill, hashOf: HashOfPreimage)
    requires ListenerInv(s, hashOf) && DeskOk(desk) && f.orderId in s.orders
    requires var o := s.orders[f.orderId];
             && o.status != Filled && Releases(o.paymentHash, f.preimage, hashOf)
             && f.trade.side == Buy && f.trade.user == o.buyer
             && f.trade.sats + f.trade.fee <= o.cost + o.fee
    ensures ListenerInv(
              s.(desk := desk, orders := s.orders[f.orderId := s.orders[f.orderId].(status := Filled)],
                 fills := s.fills + [f]), hashOf)
  {
    var after := s.(desk := desk, orders := s.orders[f.orderId := s.orders[f.orderId].(status := Filled)],
                    fills := s.fills + [f]);
    assert after.fills[|s.fills|] == f;
    assert forall i :: 0 <= i < |s.fills| ==> after.fills[i] == s.fills[i];
  }

  lemma FillKeepsInvariant(s: ListenerState, id: string, preimage: string, now: U64, hashOf: HashOfPreimage)
    requires ListenerInv(s, hashOf) && ProofRefusal(s.orders, id, preimage, hashOf).None?
    ensures ListenerInv(FillStep(s, id, preimage, now), hashOf)
  {
    hide BuyIn, OrdersOk, DraftOk, FillsOk, VerifyPreimage, Releases;
    var o := s.orders[id];
    VerifiedReleases(o, preimage, hashOf);
    ModBound(o.cost + o.fee, U64_MAX + 1);
    var bought := BuyIn(s.desk, o.asset, o.buyer, PaidSats(o), now);
    if bought.Ok? {
      BuyInFacts(s.desk, o.asset, o.buyer, PaidSats(o), now);
      RecordedFill(s, bought.value.0, Fill(id, preimage, bought.value.1), hashOf);
    }
  }

  lemma QuoteKeepsInvariant(s: ListenerState, id: string, buyer: string, asset: string, budget: U64, hashOf: HashOfPreimage)
    requires ListenerInv(s, hashOf) && BeginQuote(s.desk, s.orders, id, buyer, asset, budget).Ok?
    ensures ListenerInv(s.(draft := Some(BeginQuote(s.desk, s.orders, id, buyer, asset, budget).value)), hashOf)
  {
    hide PreviewBuy;
    PreviewBuyMeaning(s.desk[asset], budget);
  }

  lemma OrderKeepsInvariant(s: ListenerState, node: NodeInvoice, now: U64, hashOf: HashOfPreimage)
    requires ListenerInv(s, hashOf) && s.draft.Some? && FinishQuote(s.draft.value, node, now).Ok?
    ensures var o := FinishQuote(s.draft.value, node, now).value;
            ListenerInv(s.(orders := s.orders[o.id := o], draft := None), hashOf)
  {}

  lemma DeskChangeKeepsInvariant(s: ListenerState, desk: DeskState, hashOf: HashOfPreimage)
    requires ListenerInv(s, hashOf) && DeskOk(desk)
    ensures ListenerInv(s.(desk := desk), hashOf)
  {}

  lemma LocalTradeKeepsDesk(d: DeskState, market: string, op: Op)
    requires DeskOk(d) && market in d
    ensures DeskOk(d[market := Apply(d[market], op)])
  {
    hide Apply, Inv;
    ApplyKeepsInvariant(d[market], op);
  }

  lemma LocalCreateKeepsDesk(d: DeskState, spec: MarketSpec, ts: U64)
    requires DeskOk(d) && CreateIn(d, spec, ts).Ok?
    ensures DeskOk(CreateIn(d, spec, ts).value)
  {
    hide Create, Inv;
    CreateKeepsInvariant(spec, ts);
  }

  lemma StepKeepsInvariant(s: ListenerState, a: Action, hashOf: HashOfPreimage)
    requires ListenerInv(s, hashOf) && Enabled(s, a)
    ensures ListenerInv(Step(s, a, hashOf), hashOf)
  {
    hide ListenerInv, BeginQuote, FinishQuote, FillStep, ProofRefusal, CreateIn, Apply;
    match a
    case AskQuote(id, buyer, asset, budget) =>
      if BeginQuote(s.desk, s.orders, id, buyer, asset, budget).Ok? {
        QuoteKeepsInvariant(s, id, buyer, asset, budget, hashOf);
      }
    case InvoiceArrives(node, now) =>
      if FinishQuote(s.draft.value, node, now).Ok? {
        OrderKeepsInvariant(s, node, now, hashOf);
      } else {
        DraftDropKeepsInvariant(s, hashOf);
      }
    case ProvePayment(id, preimage, now) =>
      if ProofRefusal(s.orders, id, preimage, hashOf).None? {
        FillKeepsInvariant(s, id, preimage, now, hashOf);
      }
    case AskStatus(_) =>
    case LocalTrade(market, op) =>
      if market in s.desk {
        InvariantHasDesk(s, hashOf);
        LocalTradeKeepsDesk(s.desk, market, op);
        DeskChangeKeepsInvariant(s, s.desk[market := Apply(s.desk[market], op)], hashOf);
      }
    case LocalCreate(spec, ts) =>
      if CreateIn(s.desk, spec, ts).Ok? {
        InvariantHasDesk(s, hashOf);
        LocalCreateKeepsDesk(s.desk, spec, ts);
        DeskChangeKeepsInvariant(s, CreateIn(s.desk, spec, ts).value, hashOf);
      }
    case Restart =>
      DraftDropKeepsInvariant(s, hashOf);
  }

  lemma InvariantHasDesk(s: ListenerState, hashOf: HashOfPreimage)
    requires ListenerInv(s, hashOf)
    ensures DeskOk(s.desk)
  {}

  lemma DraftDropKeepsInvariant(s: ListenerState, hashOf: HashOfPreimage)
    requires ListenerInv(s, hashOf)
    ensures ListenerInv(s.(draft := None), hashOf)
  {}

  lemma {:induction false} RunKeepsInvariant(s: ListenerState, actions: seq<Action>, hashOf: HashOfPreimage)
    requires ListenerInv(s, hashOf) && CanRun(s, actions, hashOf)
    ensures ListenerInv(RunAll(s, actions, hashOf), hashOf)
    decreases |actions|
  {
    if actions != [] {
      StepKeepsInvariant(s, actions[0], hashOf);
      RunKeepsInvariant(Step(s, actions[0], hashOf), actions[1..], hashOf);
    }
  }

  // ---- Exactly one trade per order -------------------------------------------------

  /** Messages may be duplicated and reordered, the local user may trade in between and
      the app may restart between handlers: still every order causes at most one trade,
      only after its preimage, and for no more sats than the buyer paid. */
  lemma AtMostOneTradePerOrder(s: ListenerState, actions: seq<Action>, hashOf: HashOfPreimage)
    requires Initial(s) && CanRun(s, actions, hashOf)
    ensures var after := RunAll(s, actions, hashOf);
            && (forall i, j :: 0 <= i < j < |after.fills| ==> after.fills[i].orderId != after.fills[j].orderId)
            && (forall i :: 0 <= i < |after.fills| ==> FillOk(after, after.fills[i], hashOf))
  {
    RunKeepsInvariant(s, actions, hashOf);
  }

  /** Whoever has an order filled has shown the preimage of its invoice: over any run a filled
      order has a fill released by that preimage, and its buyer made the trade. */
  lemma FilledOnlyByItsPreimage(s: ListenerState, actions: seq<Action>, hashOf: HashOfPreimage, id: string)
    requires Initial(s) && CanRun(s, actions, hashOf)
    requires id in RunAll(s, actions, hashOf).orders && RunAll(s, actions, hashOf).orders[id].status == Filled
    ensures var after := RunAll(s, actions, hashOf);
            var o := after.orders[id];
            exists i :: 0 <= i < |after.fills| && after.fills[i].orderId == id
                        && Releases(o.paymentHash, after.fills[i].preimage, hashOf)
                        && after.fills[i].trade.side == Buy && after.fills[i].trade.user == o.buyer
  {
    RunKeepsInvariant(s, actions, hashOf);
    var after := RunAll(s, actions, hashOf);
    hide RunAll, CanRun, Releases;
    var i :| 0 <= i < |after.fills| && after.fills[i].orderId == id;
    assert FillOk(after, after.fills[i], hashOf);
  }

  /** What may happen to one order: nothing, or the move from waiting to filled. */
  predicate SameOrder(before: Order, after: Order) {
    after == before || (before.status != Filled && after == before.(status := Filled))
  }

  /** An order is never overwritten or dropped: its terms stay, and filled is final. */
  lemma {:induction false} OrdersAreNeverOverwritten(
    s: ListenerState, actions: seq<Action>, hashOf: HashOfPreimage, id: string)
    requires ListenerInv(s, hashOf) && CanRun(s, actions, hashOf) && id in s.orders
    ensures id in RunAll(s, actions, hashOf).orders
    ensures SameOrder(s.orders[id], RunAll(s, actions, hashOf).orders[id])
    decreases |actions|
  {
    if actions != [] {
      StepKeepsInvariant(s, actions[0], hashOf);
      var next := Step(s, actions[0], hashOf);
      assert id in next.orders && SameOrder(s.orders[id], next.orders[id]);
      OrdersAreNeverOverwritten(next, actions[1..], hashOf, id);
    }
  }

  // ---- Quote against fill ------------------------------------------------------------

  /** The fee on `cost` is computed without rounding. */
  predicate ExactFee(feeBp: nat, cost: nat) {
    cost * feeBp % 10_000 == 0
  }

  lemma SmallestExactFee(feeBp: FeeBp)
    ensures ExactFee(feeBp, 1) <==> feeBp == 0
  {}

  /** The paid total, cost plus fee, leaves the curve the full cost exactly when the fee
      was computed without rounding, and one sat less otherwise. */
  lemma PaidBudget(feeBp: FeeBp, cost: U64)
    requires cost > 0 && cost + FeeOn(feeBp, cost) <= U64_MAX
    ensures CurveBudget(feeBp, cost + FeeOn(feeBp, cost)) ==
            if ExactFee(feeBp, cost) then cost else cost - 1
  {
    var fee, d := FeeOn(feeBp, cost), 10_000 + feeBp;
    FeeWithin(feeBp, cost);
    CurveBudgetBracket(feeBp, cost + fee);
    DivSplit(cost * feeBp, 10_000);
    MulAdd(10_000, feeBp, cost);
    BudgetDivision((cost + fee) * 10_000, cost, d, cost * feeBp % 10_000);
  }

  lemma BudgetDivision(n: nat, cost: nat, d: nat, r: nat)
    requires d >= 10_000 && cost > 0 && r < 10_000
    requires n == cost * d - r
    ensures n / d == if r == 0 then cost else cost - 1
  {
    FloorAtLeast(n, d, cost);
    FloorAtMost(n, d, cost);
    MulAdd(cost, 1, d);
    FloorAtLeast(n, d, cost - 1);
  }

  /** A search with exactly the price of its own answer gives that answer again. */
  lemma SearchAtCost(c: ValidCurve, supply: U64, budget: U64)
    requires supply <= c.cap && TokensForSats(c, supply, budget).Ok?
    requires TokensForSats(c, supply, budget).value.tokens > 0
    ensures var q := TokensForSats(c, supply, budget).value;
            q.cost > 0 && TokensForSats(c, supply, q.cost) == Ok(q)
  {
    TokensForSatsIsMaximal(c, supply, budget);
    var q := TokensForSats(c, supply, budget).value;
    NoFreeTokens(c, supply, q.tokens);
    var t := MaxAffordable(c, supply, q.cost, c.cap - supply);
    assert Affordable(c, supply, q.tokens, q.cost);
    assert Affordable(c, supply, t, budget);
    assert t == q.tokens;
  }

  /** A search with one sat less finds strictly fewer tokens, and none below one sat. */
  lemma SearchBelowCost(c: ValidCurve, supply: U64, tokens: U64, cost: U64)
    requires 0 < tokens && supply + tokens <= c.cap && cost > 0
    requires CostToBuy(c, supply, tokens) == Ok(cost)
    ensures var less := MaxAffordable(c, supply, cost - 1, c.cap - supply);
            && less < tokens
            && (cost == 1 ==> less == 0)
            && var again := TokensForSats(c, supply, cost - 1);
               if less > 0 then again.Ok? && again.value.tokens == less
               else again.Ok? ==> again.value.tokens == 0
  {
    var t := MaxAffordable(c, supply, cost - 1, c.cap - supply);
    if t >= tokens {
      CostMonotone(c, supply, tokens, t);
    }
    if cost == 1 && t > 0 {
      NoFreeTokens(c, supply, t);
    }
  }

  /** The tokens a paid order can still get on an unmoved market. */
  function RefilledTokens(c: CurveParams, supply: U64, p: BuyPreview, feeBp: nat): U64
    requires supply <= c.cap && p.cost > 0
  {
    if ExactFee(feeBp, p.cost) then p.tokens
    else MaxAffordable(c, supply, p.cost - 1, c.cap - supply)
  }

  /** On an unmoved market, paying the quoted total buys the quoted tokens exactly when
      `cost * feeBp` is a multiple of 10000. Otherwise the curve sees one sat less: the
      buyer gets strictly fewer tokens, and the fill fails when one sat less buys none. */
  lemma QuotedTokensAreFilled(m: MarketState, budget: U64)
    requires m.supply <= m.params.cap && PreviewBuy(m, budget).Ok?
    ensures var p := PreviewBuy(m, budget).value;
            && p.cost > 0 && p.total == p.cost + p.fee <= budget
            && var got := RefilledTokens(m.params, m.supply, p, m.feeBp);
               && (got == p.tokens <==> ExactFee(m.feeBp, p.cost))
               && got <= p.tokens
               && (p.cost == 1 && m.feeBp > 0 ==> got == 0)
               && var again := PreviewBuy(m, p.total);
                  if got > 0 then again.Ok? && again.value.tokens == got else again.Err?
  {
    hide CostToBuy, Affordable, CurveBudget, PreviewBuy, TokensForSats, FeeOn, RefilledTokens, ExactFee;
    SmallestExactFee(m.feeBp);
    PreviewIsSearch(m, budget);
    PreviewTotals(m, budget);
    var p := PreviewBuy(m, budget).value;
    if ExactFee(m.feeBp, p.cost) {
      RefillsWhole(m, budget, p);
    } else {
      RefillsLess(m, budget, p);
    }
    PreviewFromSearch(m, p.total);
  }

  lemma PreviewTotals(m: MarketState, budget: U64)
    requires m.supply <= m.params.cap && PreviewBuy(m, budget).Ok?
    ensures var p := PreviewBuy(m, budget).value;
            p.cost > 0 && p.total == p.cost + p.fee <= budget && p.fee == FeeOn(m.feeBp, p.cost)
  {
    PreviewBuyMeaning(m, budget);
    FeeWithin(m.feeBp, PreviewBuy(m, budget).value.cost);
    NoFreeTokens(m.params, m.supply, PreviewBuy(m, budget).value.tokens);
    hide CostToBuy, Affordable, CurveBudget, PreviewBuy, TokensForSats, FeeOn;
  }

  lemma PreviewPrice(m: MarketState, budget: U64)
    requires m.supply <= m.params.cap && PreviewBuy(m, budget).Ok?
    ensures var p := PreviewBuy(m, budget).value;
            0 < p.tokens && m.supply + p.tokens <= m.params.cap && CostToBuy(m.params, m.supply, p.tokens) == Ok(p.cost)
  {
    PreviewBuyMeaning(m, budget);
    hide PreviewBuy, CostToBuy, CurveBudget, Affordable;
  }

  /** Paid without rounding, the total leaves the curve the whole cost. */
  lemma RefillsWhole(m: MarketState, budget: U64, p: BuyPreview)
    requires m.supply <= m.params.cap && PreviewBuy(m, budget) == Ok(p) && p.cost > 0 && ExactFee(m.feeBp, p.cost)
    requires p.total == p.cost + FeeOn(m.feeBp, p.cost) <= budget
    ensures RefilledTokens(m.params, m.supply, p, m.feeBp) == p.tokens > 0 && (p.cost == 1 ==> m.feeBp == 0)
    ensures var q := TokensForSats(m.params, m.supply, CurveBudget(m.feeBp, p.total));
            q.Ok? && q.value.tokens == p.tokens
  {
    PreviewIsSearch(m, budget);
    SmallestExactFee(m.feeBp);
    hide PreviewBuy, TokensForSats, CurveBudget, FeeOn, ExactFee;
    SearchAtCost(m.params, m.supply, CurveBudget(m.feeBp, budget));
    PaidBudget(m.feeBp, p.cost);
  }

  /** Paid with rounding, it leaves the curve one sat less. */
  lemma RefillsLess(m: MarketState, budget: U64, p: BuyPreview)
    requires m.supply <= m.params.cap && PreviewBuy(m, budget) == Ok(p) && p.cost > 0 && !ExactFee(m.feeBp, p.cost)
    requires p.total == p.cost + FeeOn(m.feeBp, p.cost) <= budget
    ensures var got := RefilledTokens(m.params, m.supply, p, m.feeBp);
            && got < p.tokens && (p.cost == 1 ==> got == 0)
            && var q := TokensForSats(m.params, m.supply, CurveBudget(m.feeBp, p.total));
               if got > 0 then q.Ok? && q.value.tokens == got else q.Ok? ==> q.value.tokens == 0
  {
    hide PreviewBuy, TokensForSats, CurveBudget, FeeOn, Affordable, CostToBuy, ExactFee, MaxAffordable;
    PreviewPrice(m, budget);
    PaidBudget(m.feeBp, p.cost);
    SearchBelowCost(m.params, m.supply, p.tokens, p.cost);
  }

  lemma PreviewIsSearch(m: MarketState, budget: U64)
    requires PreviewBuy(m, budget).Ok?
    ensures m.status == Trading
    ensures var q := TokensForSats(m.params, m.supply, CurveBudget(m.feeBp, budget));
            q.Ok? && q.value.cost == PreviewBuy(m, budget).value.cost && q.value.tokens == PreviewBuy(m, budget).value.tokens > 0
  {}

  /** A preview is decided by the search alone. */
  lemma PreviewFromSearch(m: MarketState, budget: U64)
    ensures m.status == Trading ==>
            var q := TokensForSats(m.params, m.supply, CurveBudget(m.feeBp, budget));
            if q.Ok? && q.value.tokens > 0
            then PreviewBuy(m, budget).Ok? && PreviewBuy(m, budget).value.tokens == q.value.tokens
            else PreviewBuy(m, budget).Err?
  {}

  /** A repeated proof or a status request reports the quoted amounts, not the traded
      ones: after a fill on an unmoved market the two agree exactly when the fee was
      computed without rounding. */
  lemma RepliesReportTheQuote(s: ListenerState, id: string, preimage: string, now: U64, hashOf: HashOfPreimage)
    requires id in s.orders && s.orders[id].asset in s.desk
    requires ProofRefusal(s.orders, id, preimage, hashOf).None?
    requires QuoteStillStands(s.desk[s.orders[id].asset], s.orders[id])
    requires |FillStep(s, id, preimage, now).fills| > |s.fills|
    ensures var o, after := s.orders[id], FillStep(s, id, preimage, now);
            var traded, m := after.fills[|s.fills|].trade, s.desk[o.asset];
            && after.orders == s.orders[id := o.(status := Filled)]
            && (traded.tokens == o.tokens <==> ExactFee(m.feeBp, o.cost))
    ensures var o, after := s.orders[id], FillStep(s, id, preimage, now);
            && StatusReply(after.orders, id) == FilledResponse(o, o.tokens, o.cost)
            && ProofRefusal(after.orders, id, preimage, hashOf) == Some(FilledResponse(o, o.tokens, o.cost))
  {
    var o := s.orders[id];
    FillShape(s, id, preimage, now);
    TradeAgainstQuote(s.desk[o.asset], o, now);
  }

  /** The shape of a fill that went through. */
  lemma FillShape(s: ListenerState, id: string, preimage: string, now: U64)
    requires id in s.orders && |FillStep(s, id, preimage, now).fills| > |s.fills|
    ensures var o, after := s.orders[id], FillStep(s, id, preimage, now);
            && o.asset in s.desk
            && var bought := BuyStep(s.desk[o.asset], o.buyer, PaidSats(o), now);
               && bought.Ok?
               && after.desk == s.desk[o.asset := bought.value.0]
               && after.orders == s.orders[id := o.(status := Filled)]
               && after.fills == s.fills + [Fill(id, preimage, bought.value.1)]
  {}

  lemma TradeAgainstQuote(m: MarketState, o: Order, now: U64)
    requires QuoteStillStands(m, o)
    ensures var bought := BuyStep(m, o.buyer, PaidSats(o), now);
            bought.Ok? ==> (bought.value.1.tokens == o.tokens <==> ExactFee(m.feeBp, o.cost))
  {
    hide PreviewBuy, BuyStep, RefilledTokens, ExactFee;
    QuotedTokensAreFilled(m, o.budget);
    ModBound(o.cost + o.fee, U64_MAX + 1);
    BuyTradesPreview(m, o.buyer, PaidSats(o), now);
  }

  /** The market would quote the order today just as it did then. */
  ghost predicate QuoteStillStands(m: MarketState, o: Order) {
    && m.supply <= m.params.cap
    && PreviewBuy(m, o.budget).Ok?
    && var p := PreviewBuy(m, o.budget).value;
       p.tokens == o.tokens && p.cost == o.cost && p.fee == o.fee
  }

  lemma BuyTradesPreview(m: MarketState, user: string, budget: U64, now: U64)
    ensures BuyStep(m, user, budget, now).Ok? <==> PreviewBuy(m, budget).Ok?
    ensures BuyStep(m, user, budget, now).Ok? ==>
            BuyStep(m, user, budget, now).value.1.tokens == PreviewBuy(m, budget).value.tokens
  {}
}
