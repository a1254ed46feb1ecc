/** Where the orders of a listener come from: every term of an order is what its own buyer
    asked for, what the market then quoted, and what the node then issued. */
module OrderHistory {
  import opened Numbers
  import opened Curve
  import opened MarketModel
  import opened MarketRuns
  import opened Orders
  import opened OrderLaws

  /** The state before action `n` of a run. */
  function At(s: ListenerState, actions: seq<Action>, hashOf: HashOfPreimage, n: nat): ListenerState
    requires n <= |actions|
  {
    if n == 0 then s
    else
      var before := At(s, actions, hashOf, n - 1);
      if Enabled(before, actions[n - 1]) then Step(before, actions[n - 1], hashOf) else before
  }

  lemma {:induction false} AtShift(s: ListenerState, actions: seq<Action>, hashOf: HashOfPreimage, n: nat)
    requires 0 < n <= |actions| && Enabled(s, actions[0])
    ensures At(s, actions, hashOf, n) == At(Step(s, actions[0], hashOf), actions[1..], hashOf, n - 1)
    decreases n
  {
    hide Enabled, Step;
    if n > 1 {
      AtShift(s, actions, hashOf, n - 1);
    } else {
      assert At(s, actions, hashOf, 0) == s;
    }
  }

  lemma {:induction false} AtTheEnd(s: ListenerState, actions: seq<Action>, hashOf: HashOfPreimage)
    requires CanRun(s, actions, hashOf)
    ensures At(s, actions, hashOf, |actions|) == RunAll(s, actions, hashOf)
    decreases |actions|
  {
    hide Enabled, Step;
    if actions != [] {
      AtTheEnd(Step(s, actions[0], hashOf), actions[1..], hashOf);
      AtShift(s, actions, hashOf, |actions|);
    }
  }

  /** Action `i` asks for this quote, and the market asked quotes these tokens, cost and fee. */
  predicate AskedAt(s: ListenerState, actions: seq<Action>, hashOf: HashOfPreimage, i: nat, id: string, buyer: string,
                    asset: string, budget: U64, tokens: U64, cost: U64, fee: U64) {
    && i < |actions| && actions[i] == AskQuote(id, buyer, asset, budget)
    && var desk := At(s, actions, hashOf, i).desk;
       && asset in desk && PreviewBuy(desk[asset], budget).Ok?
       && var p := PreviewBuy(desk[asset], budget).value;
          p.tokens == tokens && p.cost == cost && p.fee == fee
  }

  /** Action `j` brings this invoice, issued with this payment hash, at this time. */
  predicate InvoicedAt(actions: seq<Action>, j: nat, invoice: string, paymentHash: string, now: U64) {
    j < |actions| && actions[j] == InvoiceArrives(Issued(invoice, Some(paymentHash)), now)
  }

  predicate ComesFrom(s: ListenerState, actions: seq<Action>, hashOf: HashOfPreimage, o: Order, i: nat, j: nat) {
    && i < j && AskedAt(s, actions, hashOf, i, o.id, o.buyer, o.asset, o.budget, o.tokens, o.cost, o.fee)
    && InvoicedAt(actions, j, o.invoice, o.paymentHash, o.createdAt)
  }

  ghost predicate OrderBefore(s: ListenerState, actions: seq<Action>, hashOf: HashOfPreimage, n: nat, o: Order) {
    exists i: nat, j: nat :: j < n && ComesFrom(s, actions, hashOf, o, i, j)
  }

  ghost predicate DraftBefore(s: ListenerState, actions: seq<Action>, hashOf: HashOfPreimage, n: nat, d: Draft) {
    exists i: nat :: i < n &&
      AskedAt(s, actions, hashOf, i, d.id, d.buyer, d.asset, d.budget, d.preview.tokens, d.preview.cost, d.preview.fee)
  }

  ghost predicate Explained(s: ListenerState, actions: seq<Action>, hashOf: HashOfPreimage, n: nat, now: ListenerState) {
    && (forall id :: id in now.orders ==> now.orders[id].id == id && OrderBefore(s, actions, hashOf, n, now.orders[id]))
    && (now.draft.Some? ==> DraftBefore(s, actions, hashOf, n, now.draft.value))
  }

  /** Naming the two actions explains an order, and naming the first explains a draft. */
  lemma OrderBeforeIf(s: ListenerState, actions: seq<Action>, hashOf: HashOfPreimage, n: nat, o: Order, i: nat, j: nat)
    requires j < n && ComesFrom(s, actions, hashOf, o, i, j)
    ensures OrderBefore(s, actions, hashOf, n, o)
  {
    hide ComesFrom;
  }

  lemma OrderLater(s: ListenerState, actions: seq<Action>, hashOf: HashOfPreimage, n: nat, o: Order)
    requires OrderBefore(s, actions, hashOf, n, o)
    ensures OrderBefore(s, actions, hashOf, n + 1, o)
    ensures OrderBefore(s, actions, hashOf, n + 1, o.(status := Filled))
  {
    hide AskedAt;
    var i: nat, j: nat :| j < n && ComesFrom(s, actions, hashOf, o, i, j);
    OrderBeforeIf(s, actions, hashOf, n + 1, o, i, j);
    OrderBeforeIf(s, actions, hashOf, n + 1, o.(status := Filled), i, j);
  }

  lemma DraftLater(s: ListenerState, actions: seq<Action>, hashOf: HashOfPreimage, n: nat, d: Draft)
    requires DraftBefore(s, actions, hashOf, n, d)
    ensures DraftBefore(s, actions, hashOf, n + 1, d)
  {
    hide AskedAt;
  }

  lemma StaysExplained(s: ListenerState, actions: seq<Action>, hashOf: HashOfPreimage, n: nat, now: ListenerState)
    requires Explained(s, actions, hashOf, n, now)
    ensures Explained(s, actions, hashOf, n + 1, now)
  {
    hide OrderBefore, DraftBefore;
    forall id | id in now.orders
      ensures OrderBefore(s, actions, hashOf, n + 1, now.orders[id])
    {
      OrderLater(s, actions, hashOf, n, now.orders[id]);
    }
    if now.draft.Some? {
      DraftLater(s, actions, hashOf, n, now.draft.value);
    }
  }

  lemma AskingQuote(desk: DeskState, orders: map<string, Order>, a: Action)
    requires a.AskQuote? && BeginQuote(desk, orders, a.id, a.buyer, a.asset, a.budget).Ok?
    ensures var d := BeginQuote(desk, orders, a.id, a.buyer, a.asset, a.budget).value;
            && a == AskQuote(d.id, d.buyer, d.asset, d.budget)
            && d.asset in desk && PreviewBuy(desk[d.asset], d.budget) == Ok(d.preview)
  {
    hide PreviewBuy;
  }

  lemma QuoteIsExplained(s: ListenerState, actions: seq<Action>, hashOf: HashOfPreimage, n: nat)
    requires n < |actions| && actions[n].AskQuote?
    requires var now, a := At(s, actions, hashOf, n), actions[n];
             BeginQuote(now.desk, now.orders, a.id, a.buyer, a.asset, a.budget).Ok?
    ensures var now, a := At(s, actions, hashOf, n), actions[n];
            DraftBefore(s, actions, hashOf, n + 1, BeginQuote(now.desk, now.orders, a.id, a.buyer, a.asset, a.budget).value)
  {
    var now, a := At(s, actions, hashOf, n), actions[n];
    var d := BeginQuote(now.desk, now.orders, a.id, a.buyer, a.asset, a.budget).value;
    AskingQuote(now.desk, now.orders, a);
    hide PreviewBuy, At, BeginQuote;
    assert AskedAt(s, actions, hashOf, n, d.id, d.buyer, d.asset, d.budget, d.preview.tokens, d.preview.cost, d.preview.fee);
  }

  lemma InvoiceIsExplained(s: ListenerState, actions: seq<Action>, hashOf: HashOfPreimage, n: nat, d: Draft)
    requires n < |actions| && actions[n].InvoiceArrives? && DraftBefore(s, actions, hashOf, n, d)
    requires FinishQuote(d, actions[n].node, actions[n].now).Ok?
    ensures var o := FinishQuote(d, actions[n].node, actions[n].now).value;
            o.id == d.id && OrderBefore(s, actions, hashOf, n + 1, o)
  {
    hide AskedAt, OrderBefore;
    var o := FinishQuote(d, actions[n].node, actions[n].now).value;
    var i: nat :| i < n &&
      AskedAt(s, actions, hashOf, i, d.id, d.buyer, d.asset, d.budget, d.preview.tokens, d.preview.cost, d.preview.fee);
    assert InvoicedAt(actions, n, o.invoice, o.paymentHash, o.createdAt);
    assert AskedAt(s, actions, hashOf, i, o.id, o.buyer, o.asset, o.budget, o.tokens, o.cost, o.fee);
    OrderBeforeIf(s, actions, hashOf, n + 1, o, i, n);
  }

  /** What a step may do to the order table and the draft. */
  lemma StepShape(now: ListenerState, a: Action, hashOf: HashOfPreimage)
    requires Enabled(now, a)
    ensures var after := Step(now, a, hashOf);
            match a
            case AskQuote(id, buyer, asset, budget) =>
              after.orders == now.orders
              && var r := BeginQuote(now.desk, now.orders, id, buyer, asset, budget);
                 after.draft == if r.Ok? then Some(r.value) else now.draft
            case InvoiceArrives(node, time) =>
              after.draft == None
              && var r := FinishQuote(now.draft.value, node, time);
                 after.orders == if r.Ok? then now.orders[r.value.id := r.value] else now.orders
            case ProvePayment(id, _, _) =>
              after.draft == now.draft
              && (after.orders == now.orders
                  || (id in now.orders && after.orders == now.orders[id := now.orders[id].(status := Filled)]))
            case Restart => after.orders == now.orders && after.draft == None
            case _ => after.orders == now.orders && after.draft == now.draft
  {
    hide BeginQuote, FinishQuote, BuyIn, Apply, CreateIn, VerifyPreimage;
  }

  lemma OrdersStep(s: ListenerState, actions: seq<Action>, hashOf: HashOfPreimage, n: nat)
    requires n < |actions| && Explained(s, actions, hashOf, n, At(s, actions, hashOf, n))
    requires Enabled(At(s, actions, hashOf, n), actions[n])
    ensures Explained(s, actions, hashOf, n + 1, Step(At(s, actions, hashOf, n), actions[n], hashOf))
  {
    hide At, Step, Enabled, OrderBefore, DraftBefore, BeginQuote, FinishQuote;
    var now, a := At(s, actions, hashOf, n), actions[n];
    StaysExplained(s, actions, hashOf, n, now);
    StepShape(now, a, hashOf);
    if a.AskQuote? && BeginQuote(now.desk, now.orders, a.id, a.buyer, a.asset, a.budget).Ok? {
      QuoteIsExplained(s, actions, hashOf, n);
    } else if a.InvoiceArrives? {
      DraftWaits(now, a);
      if FinishQuote(now.draft.value, a.node, a.now).Ok? {
        InvoiceIsExplained(s, actions, hashOf, n, now.draft.value);
      }
    } else if a.ProvePayment? && a.orderId in now.orders {
      OrderLater(s, actions, hashOf, n, now.orders[a.orderId]);
    }
  }

  lemma DraftWaits(s: ListenerState, a: Action)
    requires Enabled(s, a) && a.InvoiceArrives?
    ensures s.draft.Some?
  {}

  lemma {:induction false} AlwaysExplained(s: ListenerState, actions: seq<Action>, hashOf: HashOfPreimage, n: nat)
    requires Initial(s) && n <= |actions|
    ensures Explained(s, actions, hashOf, n, At(s, actions, hashOf, n))
    decreases n
  {
    if n > 0 {
      AlwaysExplained(s, actions, hashOf, n - 1);
      var before := At(s, actions, hashOf, n - 1);
      if Enabled(before, actions[n - 1]) {
        OrdersStep(s, actions, hashOf, n - 1);
      } else {
        StaysExplained(s, actions, hashOf, n - 1, before);
      }
      hide Explained, Enabled, Step;
    }
  }

  /** Over any run, every order in the table was asked for by its own buyer under its own id,
      holds the tokens, cost and fee the asked market quoted at that moment, and the invoice,
      payment hash and time of a later answer of the node. */
  lemma OrdersComeFromQuotes(s: ListenerState, actions: seq<Action>, hashOf: HashOfPreimage, id: string)
    requires Initial(s) && CanRun(s, actions, hashOf) && id in RunAll(s, actions, hashOf).orders
    ensures var o := RunAll(s, actions, hashOf).orders[id];
            o.id == id && exists i: nat, j: nat :: ComesFrom(s, actions, hashOf, o, i, j)
  {
    AlwaysExplained(s, actions, hashOf, |actions|);
    AtTheEnd(s, actions, hashOf);
    assert OrderBefore(s, actions, hashOf, |actions|, RunAll(s, actions, hashOf).orders[id]);
    hide ComesFrom, At, RunAll, CanRun;
  }
}
