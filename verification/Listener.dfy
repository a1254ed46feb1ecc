/** The desk listener as the program runs it: a poll loop over fetched messages that
    updates the order table and the desk in place. */
module Listener {
  import opened Numbers
  import opened MarketModel
  import opened MarketRuns
  import opened MarketMeaning
  import opened Desk
  import opened Orders
  import opened OrderLaws

  datatype Request =
    | BuyQuote(asset: string, budget: U64)
    | PaymentProof(orderId: string, preimage: string)
    | OrderStatus(orderId: string)

  /** A fetched message; `request` is nothing when its content does not parse. `node` and
      `now` are what the Lightning node and the clock answer while it is handled. */
  datatype Message = Message(wrapId: string, sender: string, request: Option<Request>, node: NodeInvoice, now: U64)

  /** The machine steps one message amounts to. */
  function ActionsOf(s: ListenerState, m: Message): seq<Action> {
    match m.request
    case None => []
    case Some(BuyQuote(asset, budget)) =>
      [AskQuote(m.wrapId, m.sender, asset, budget)] +
      (if BeginQuote(s.desk, s.orders, m.wrapId, m.sender, asset, budget).Ok? then [InvoiceArrives(m.node, m.now)] else [])
    case Some(PaymentProof(id, preimage)) => [ProvePayment(id, preimage, m.now)]
    case Some(OrderStatus(id)) => [AskStatus(id)]
  }

  lemma MessageIsARun(s: ListenerState, m: Message, hashOf: HashOfPreimage)
    requires s.draft.None?
    ensures CanRun(s, ActionsOf(s, m), hashOf)
    ensures RunAll(s, ActionsOf(s, m), hashOf).draft.None?
  {
    var actions := ActionsOf(s, m);
    if |actions| == 2 {
      RunOfTwo(s, actions[0], actions[1], hashOf);
    } else if |actions| == 1 {
      RunOfOne(s, actions[0], hashOf);
    }
  }

  lemma RunOfOne(s: ListenerState, a: Action, hashOf: HashOfPreimage)
    requires Enabled(s, a)
    ensures CanRun(s, [a], hashOf) && RunAll(s, [a], hashOf) == Step(s, a, hashOf)
  {
    assert [a][1..] == [];
  }

  lemma RunOfTwo(s: ListenerState, a: Action, b: Action, hashOf: HashOfPreimage)
    requires Enabled(s, a) && Enabled(Step(s, a, hashOf), b)
    ensures CanRun(s, [a, b], hashOf)
    ensures RunAll(s, [a, b], hashOf) == Step(Step(s, a, hashOf), b, hashOf)
  {
    RunOfOne(Step(s, a, hashOf), b, hashOf);
    assert [a, b][1..] == [b];
  }

  function Handle(s: ListenerState, m: Message, hashOf: HashOfPreimage): (after: ListenerState)
    requires s.draft.None?
    ensures after.draft.None?
  {
    MessageIsARun(s, m, hashOf);
    RunAll(s, ActionsOf(s, m), hashOf)
  }

  /** The answer to a proven payment: what was traded, or why it was not. */
  function FillReply(s: ListenerState, id: string, now: U64): Response
    requires id in s.orders
  {
    var o := s.orders[id];
    match BuyIn(s.desk, o.asset, o.buyer, PaidSats(o), now)
    case Err(e) => Failed(Refused(e))
    case Ok(bought) => FilledResponse(o, bought.1.tokens, bought.1.sats)
  }

  /** The answer to a message; one that does not parse gets none. */
  function ReplyTo(s: ListenerState, m: Message, hashOf: HashOfPreimage): Option<Response> {
    match m.request
    case None => None
    case Some(BuyQuote(asset, budget)) =>
      Some(match BeginQuote(s.desk, s.orders, m.wrapId, m.sender, asset, budget)
           case Err(e) => e
           case Ok(d) =>
             match FinishQuote(d, m.node, m.now)
             case Err(e) => e
             case Ok(o) => InvoiceResponse(o))
    case Some(PaymentProof(id, preimage)) =>
      Some(match ProofRefusal(s.orders, id, preimage, hashOf)
           case Some(refusal) => refusal
           case None => FillReply(s, id, m.now))
    case Some(OrderStatus(id)) => Some(StatusReply(s.orders, id))
  }

  /** Whoever is told that an order is filled is told the truth: it was filled before, and the
      amounts are the quoted ones, or this very proof filled it, and they are the traded ones.
      An invoice is sent only for the order that holds it, and a new order is its sender's. */
  lemma RepliesAreTrue(s: ListenerState, m: Message, hashOf: HashOfPreimage)
    requires s.draft.None? && ListenerInv(s, hashOf) && ReplyTo(s, m, hashOf).Some?
    ensures var after := Handle(s, m, hashOf);
            var orders := after.orders;
            match ReplyTo(s, m, hashOf).value
            case FilledBuy(id, asset, tokens, sats) =>
              && id in s.orders && id in orders && orders[id].status == Filled && orders[id].asset == asset
              && (if s.orders[id].status == Filled
                  then after == s && tokens == orders[id].tokens && sats == orders[id].cost
                  else
                    && |after.fills| == |s.fills| + 1
                    && var f := after.fills[|s.fills|];
                       f.orderId == id && f.trade.tokens == tokens && f.trade.sats == sats)
            case Invoice(id, invoice, tokens, cost, fee) =>
              && id == m.wrapId && id in orders
              && var o := orders[id];
                 && o.id == id && o.invoice == invoice && o.tokens == tokens && o.cost == cost && o.fee == fee
                 && (id !in s.orders ==> o.buyer == m.sender && o.status == AwaitingPayment && o.createdAt == m.now)
            case Pending(id) => id in orders && orders[id].status != Filled && after == s
            case Failed(_) => after == s
  {
    HandleUnfolds(s, m, hashOf);
    hide BuyIn, PreviewBuy, VerifyPreimage, Handle, DeskOk, FillsOk;
  }

  /** Every reply and every new state, by what was asked: a status request. */
  lemma StatusMeaning(s: ListenerState, m: Message, id: string, hashOf: HashOfPreimage)
    requires s.draft.None? && ListenerInv(s, hashOf) && m.request == Some(OrderStatus(id))
    ensures Handle(s, m, hashOf) == s
    ensures ReplyTo(s, m, hashOf) ==
            Some(if id !in s.orders then Failed(UnknownOrder)
                 else if s.orders[id].status == Filled
                 then FilledBuy(id, s.orders[id].asset, s.orders[id].tokens, s.orders[id].cost)
                 else Pending(id))
  {
    HandleUnfolds(s, m, hashOf);
    hide Handle, DeskOk, FillsOk, DraftOk;
  }

  /** A payment proof: unknown and already filled orders and wrong preimages change nothing;
      otherwise the market is asked for what cost and fee together buy, and the order becomes
      filled exactly when it sells. */
  lemma ProofMeaning(s: ListenerState, m: Message, id: string, preimage: string, paid: U64, hashOf: HashOfPreimage)
    requires s.draft.None? && ListenerInv(s, hashOf) && m.request == Some(PaymentProof(id, preimage))
    requires id in s.orders ==> paid == s.orders[id].cost + s.orders[id].fee
    ensures var after, reply := Handle(s, m, hashOf), ReplyTo(s, m, hashOf);
            if id !in s.orders then after == s && reply == Some(Failed(UnknownOrder))
            else
              var o := s.orders[id];
              if o.status == Filled then after == s && reply == Some(FilledBuy(id, o.asset, o.tokens, o.cost))
              else if !Releases(o.paymentHash, preimage, hashOf) then after == s && reply == Some(Failed(InvalidPreimage))
              else
                match BuyIn(s.desk, o.asset, o.buyer, paid, m.now)
                case Err(e) => after == s && reply == Some(Failed(Refused(e)))
                case Ok((desk, trade)) =>
                  && reply == Some(FilledBuy(id, o.asset, trade.tokens, trade.sats))
                  && after.desk == desk && after.draft == None
                  && after.orders == s.orders[id := o.(status := Filled)]
                  && after.fills == s.fills + [Fill(id, preimage, trade)]
  {
    HandleUnfolds(s, m, hashOf);
    if id in s.orders {
      OrderPaid(s, id, hashOf);
      RefusalMeaning(s, id, preimage, hashOf);
    }
    hide BuyIn, Handle, ListenerInv, Releases, ProofRefusal, PaidSats, FillStep, FillReply;
    if id in s.orders && ProofRefusal(s.orders, id, preimage, hashOf).None? {
      FillMeaning(s, id, preimage, m.now, paid);
    } else if id !in s.orders {
      UnknownRefused(s, id, preimage, hashOf);
    }
  }

  lemma UnknownRefused(s: ListenerState, id: string, preimage: string, hashOf: HashOfPreimage)
    requires id !in s.orders
    ensures ProofRefusal(s.orders, id, preimage, hashOf) == Some(Failed(UnknownOrder))
  {}

  lemma OrderPaid(s: ListenerState, id: string, hashOf: HashOfPreimage)
    requires ListenerInv(s, hashOf) && id in s.orders
    ensures s.orders[id].id == id && PaidSats(s.orders[id]) == s.orders[id].cost + s.orders[id].fee
  {
    ModBound(s.orders[id].cost + s.orders[id].fee, U64_MAX + 1);
    hide DeskOk, FillsOk, DraftOk;
  }

  lemma RefusalMeaning(s: ListenerState, id: string, preimage: string, hashOf: HashOfPreimage)
    requires id in s.orders && s.orders[id].id == id
    ensures var o := s.orders[id];
            ProofRefusal(s.orders, id, preimage, hashOf) ==
            if o.status == Filled then Some(FilledBuy(id, o.asset, o.tokens, o.cost))
            else if !Releases(o.paymentHash, preimage, hashOf) then Some(Failed(InvalidPreimage))
            else None
  {
    VerifiedReleases(s.orders[id], preimage, hashOf);
    hide Releases, VerifyPreimage;
  }

  lemma FillMeaning(s: ListenerState, id: string, preimage: string, now: U64, paid: U64)
    requires id in s.orders && s.orders[id].id == id && PaidSats(s.orders[id]) == paid
    ensures var o, after, reply := s.orders[id], FillStep(s, id, preimage, now), FillReply(s, id, now);
            match BuyIn(s.desk, o.asset, o.buyer, paid, now)
            case Err(e) => after == s && reply == Failed(Refused(e))
            case Ok((desk, trade)) =>
              && reply == FilledBuy(id, o.asset, trade.tokens, trade.sats)
              && after.desk == desk && after.draft == s.draft
              && after.orders == s.orders[id := o.(status := Filled)]
              && after.fills == s.fills + [Fill(id, preimage, trade)]
  {
    hide BuyIn, PaidSats;
  }

  /** A buy quote: a known id gets its invoice again; otherwise the market's refusal or the
      node's is reported, or a new order of the sender is stored with what the market
      previewed and the node issued. */
  lemma QuoteRequestMeaning(s: ListenerState, m: Message, asset: string, budget: U64, hashOf: HashOfPreimage)
    requires s.draft.None? && ListenerInv(s, hashOf) && m.request == Some(BuyQuote(asset, budget))
    ensures var after, reply, id := Handle(s, m, hashOf), ReplyTo(s, m, hashOf), m.wrapId;
            if id in s.orders then
              var o := s.orders[id];
              after == s && reply == Some(Invoice(id, o.invoice, o.tokens, o.cost, o.fee))
            else if asset !in s.desk then after == s && reply == Some(Failed(Refused(MarketNotFound)))
            else
              match PreviewBuy(s.desk[asset], budget)
              case Err(e) => after == s && reply == Some(Failed(Refused(e)))
              case Ok(p) =>
                match m.node
                case NoInvoice => after == s && reply == Some(Failed(LightningNotReady))
                case Issued(_, None) => after == s && reply == Some(Failed(NoPaymentHash))
                case Issued(invoice, Some(hash)) =>
                  && reply == Some(Invoice(id, invoice, p.tokens, p.cost, p.fee))
                  && after.desk == s.desk && after.fills == s.fills && after.draft == None
                  && after.orders.Keys == s.orders.Keys + {id}
                  && (forall other :: other in s.orders ==> after.orders[other] == s.orders[other])
                  && var o := after.orders[id];
                     && o.id == id && o.buyer == m.sender && o.asset == asset && o.budget == budget
                     && o.tokens == p.tokens && o.cost == p.cost && o.fee == p.fee && o.invoice == invoice
                     && o.paymentHash == hash && o.status == AwaitingPayment && o.createdAt == m.now
  {
    HandleUnfolds(s, m, hashOf);
    hide PreviewBuy, Handle, DeskOk, FillsOk, DraftOk;
  }

  /** The local user's part of the machine: at any time, a quote waiting or not, a local operation
      or creation does to the desk what the desk does, and to orders and fills nothing; a
      restart loses the waiting quote only. */
  lemma LocalActionsAreTheDesks(s: ListenerState, market: string, op: Op, spec: MarketSpec, ts: U64, hashOf: HashOfPreimage)
    ensures Enabled(s, LocalTrade(market, op)) && Enabled(s, LocalCreate(spec, ts)) && Enabled(s, Restart)
    ensures var after := Step(s, LocalTrade(market, op), hashOf);
            after == s.(desk := after.desk) && after.desk == AfterOp(s.desk, market, op)
    ensures var after := Step(s, LocalCreate(spec, ts), hashOf);
            after == s.(desk := match CreateIn(s.desk, spec, ts) case Ok(d) => d case Err(_) => s.desk)
    ensures Step(s, Restart, hashOf) == s.(draft := None)
  {
    LocalTradeIsTheDesks(s, market, op, hashOf);
    hide AfterOp, CreateIn, MarketRuns.Apply;
  }

  lemma LocalTradeIsTheDesks(s: ListenerState, market: string, op: Op, hashOf: HashOfPreimage)
    ensures Step(s, LocalTrade(market, op), hashOf).desk == AfterOp(s.desk, market, op)
  {
    if market in s.desk {
      DeskOperationsAreRuns(s.desk, market, op);
      OneOperation(s.desk[market], op);
      hide AfterOp, MarketRuns.Apply, Run;
      assert AfterOp(s.desk, market, op) == s.desk[market := MarketRuns.Apply(s.desk[market], op)];
    } else {
      hide BuyStep, SellStep, WithdrawStep, SetPausedStep, MarketRuns.Apply, Run;
    }
  }

  /** One poll: each message whose wrap id is new is handled, in order. */
  function Poll(s: ListenerState, seen: set<string>, messages: seq<Message>, hashOf: HashOfPreimage)
    : (r: (ListenerState, set<string>))
    requires s.draft.None?
    ensures r.0.draft.None?
    decreases |messages|
  {
    if messages == [] then (s, seen)
    else
      var n := |messages| - 1;
      var (before, known) := Poll(s, seen, messages[..n], hashOf);
      var m := messages[n];
      if m.wrapId in known then (before, known) else (Handle(before, m, hashOf), known + {m.wrapId})
  }

  /** The answers of one poll, each to the sender of its message. */
  function Replies(s: ListenerState, seen: set<string>, messages: seq<Message>, hashOf: HashOfPreimage): seq<(string, Response)>
    requires s.draft.None?
    decreases |messages|
  {
    if messages == [] then []
    else
      var n := |messages| - 1;
      var (before, known) := Poll(s, seen, messages[..n], hashOf);
      var m := messages[n];
      var earlier := Replies(s, seen, messages[..n], hashOf);
      if m.wrapId in known || ReplyTo(before, m, hashOf).None? then earlier
      else earlier + [(m.sender, ReplyTo(before, m, hashOf).value)]
  }

  lemma NothingPolled(s: ListenerState, seen: set<string>, messages: seq<Message>, hashOf: HashOfPreimage)
    requires s.draft.None?
    ensures Poll(s, seen, messages[..0], hashOf) == (s, seen) && Replies(s, seen, messages[..0], hashOf) == []
  {}

  lemma PollsOneMore(s: ListenerState, seen: set<string>, messages: seq<Message>, i: nat, hashOf: HashOfPreimage)
    requires s.draft.None? && i < |messages|
    ensures var (before, known) := Poll(s, seen, messages[..i], hashOf);
            var m, earlier := messages[i], Replies(s, seen, messages[..i], hashOf);
            && Poll(s, seen, messages[..i + 1], hashOf)
               == (if m.wrapId in known then (before, known) else (Handle(before, m, hashOf), known + {m.wrapId}))
            && Replies(s, seen, messages[..i + 1], hashOf)
               == if m.wrapId in known || ReplyTo(before, m, hashOf).None? then earlier
                  else earlier + [(m.sender, ReplyTo(before, m, hashOf).value)]
  {
    assert messages[..i + 1][..i] == messages[..i];
    hide Handle, ReplyTo;
  }

  /** The ids a poll knows afterwards: those it knew, and those of its messages. */
  lemma {:induction false} PollKnows(s: ListenerState, seen: set<string>, messages: seq<Message>, hashOf: HashOfPreimage)
    requires s.draft.None?
    ensures Poll(s, seen, messages, hashOf).1 == seen + set m | m in messages :: m.wrapId
    decreases |messages|
  {
    hide Handle;
    if messages != [] {
      var n := |messages| - 1;
      PollKnows(s, seen, messages[..n], hashOf);
      assert messages == messages[..n] + [messages[n]];
    }
  }

  /** A poll goes through its messages in order; one whose id was seen before, in an earlier poll
      or in this one, changes nothing and gets no reply, and each other one is handled once, in
      the state its predecessors left, and answered to its own sender. */
  lemma PollHandlesNewMessages(s: ListenerState, seen: set<string>, messages: seq<Message>, i: nat, hashOf: HashOfPreimage)
    requires s.draft.None? && i < |messages|
    ensures var before, m := Poll(s, seen, messages[..i], hashOf).0, messages[i];
            var after, sent := Poll(s, seen, messages[..i + 1], hashOf).0, Replies(s, seen, messages[..i], hashOf);
            var sentAfter := Replies(s, seen, messages[..i + 1], hashOf);
            if m.wrapId in seen || exists j :: 0 <= j < i && messages[j].wrapId == m.wrapId
            then after == before && sentAfter == sent
            else
              && after == Handle(before, m, hashOf)
              && (match ReplyTo(before, m, hashOf)
                  case None => sentAfter == sent
                  case Some(reply) => sentAfter == sent + [(m.sender, reply)])
    ensures Poll(s, seen, messages[..0], hashOf).0 == s && Replies(s, seen, messages[..0], hashOf) == []
  {
    NothingPolled(s, seen, messages, hashOf);
    PollsOneMore(s, seen, messages, i, hashOf);
    PollKnows(s, seen, messages[..i], hashOf);
    hide Handle, ReplyTo, Poll, Replies;
    var known, m := Poll(s, seen, messages[..i], hashOf).1, messages[i];
    if m.wrapId in known && m.wrapId !in seen {
      var earlier :| earlier in messages[..i] && earlier.wrapId == m.wrapId;
      var j :| 0 <= j < i && messages[j] == earlier;
    }
    forall j | 0 <= j < i && messages[j].wrapId == m.wrapId
      ensures m.wrapId in known
    {
      assert messages[j] in messages[..i];
    }
  }

  class DeskListener {
    const desk: Desk
    var orders: map<string, Order>
    var seen: set<string>
    ghost var fills: seq<Fill>

    constructor (desk: Desk)
      ensures this.desk == desk && orders == map[] && seen == {} && fills == []
    {
      this.desk := desk;
      orders, seen, fills := map[], {}, [];
    }

    ghost predicate Valid()
      reads this, desk, desk.markets.Values
    {
      desk.Valid()
    }

    /** The listener between handlers, as a state of the machine. */
    ghost function State(): ListenerState
      reads this, desk
    {
      ListenerState(desk.view, orders, None, fills)
    }

    method HandleBuyQuote(id: string, sender: string, asset: string, budget: U64, node: NodeInvoice, now: U64)
      returns (reply: Response)
      requires Valid()
      modifies this`orders
      ensures Valid()
      ensures match BeginQuote(desk.view, old(orders), id, sender, asset, budget)
              case Err(e) => reply == e && orders == old(orders)
              case Ok(d) =>
                match FinishQuote(d, node, now)
                case Err(e) => reply == e && orders == old(orders)
                case Ok(o) => reply == InvoiceResponse(o) && orders == old(orders)[o.id := o]
    {
      if id in orders {
        return InvoiceResponse(orders[id]);
      }
      if asset !in desk.markets {
        return Failed(Refused(MarketNotFound));
      }
      var preview := desk.markets[asset].QuoteBudget(budget);
      if preview.Err? {
        return Failed(Refused(preview.error));
      }
      var drafted := Draft(id, sender, asset, budget, preview.value);
      if node.NoInvoice? {
        return Failed(LightningNotReady);
      }
      if node.paymentHash.None? {
        return Failed(NoPaymentHash);
      }
      var order := OrderOf(drafted, node.invoice, node.paymentHash.value, now);
      orders := orders[order.id := order];
      reply := InvoiceResponse(order);
    }

    method HandlePaymentProof(id: string, preimage: string, now: U64, hashOf: HashOfPreimage) returns (reply: Response)
      requires Valid()
      modifies this`orders, this`fills, desk`view, desk.markets.Values
      ensures Valid()
      ensures match ProofRefusal(old(orders), id, preimage, hashOf)
              case Some(refusal) => reply == refusal && State() == old(State())
              case None => State() == FillStep(old(State()), id, preimage, now) && reply == FillReply(old(State()), id, now)
      ensures reply == Failed(InvalidPreimage) <==>
                id in old(orders) && old(orders)[id].status != Filled
                && !Releases(old(orders)[id].paymentHash, preimage, hashOf)
      ensures reply == Failed(InvalidPreimage) || reply == Failed(UnknownOrder) ==> State() == old(State())
      ensures reply == Failed(UnknownOrder) <==> id !in old(orders)
    {
      if id !in orders {
        return Failed(UnknownOrder);
      }
      var order := orders[id];
      if order.status == Filled {
        return FilledResponse(order, order.tokens, order.cost);
      }
      VerifiedReleases(order, preimage, hashOf);
      if !VerifyPreimage(order, preimage, hashOf) {
        return Failed(InvalidPreimage);
      }
      reply := FillOrder(id, preimage, now);
    }

    /** A proven payment: buy for the buyer, then mark the order. */
    method FillOrder(id: string, preimage: string, now: U64) returns (reply: Response)
      requires Valid() && id in orders
      modifies this`orders, this`fills, desk`view, desk.markets.Values
      ensures Valid()
      ensures State() == FillStep(old(State()), id, preimage, now) && reply == FillReply(old(State()), id, now)
    {
      hide BuyIn, VerifyPreimage, Desk.Valid;
      var order := orders[id];
      var trade := desk.BuyTokens(order.asset, order.buyer, PaidSats(order), now);
      if trade.Err? {
        reply := Failed(Refused(trade.error));
      } else {
        orders, fills := orders[id := order.(status := Filled)], fills + [Fill(id, preimage, trade.value)];
        reply := FilledResponse(order, trade.value.tokens, trade.value.sats);
      }
    }

    method HandleMessage(m: Message, hashOf: HashOfPreimage) returns (reply: Option<Response>)
      requires Valid()
      modifies this`orders, this`fills, desk`view, desk.markets.Values
      ensures Valid()
      ensures State() == Handle(old(State()), m, hashOf)
      ensures reply == ReplyTo(old(State()), m, hashOf)
    {
      reply := None;
      HandleUnfolds(State(), m, hashOf);
      match m.request {
        case None =>
        case Some(BuyQuote(asset, budget)) =>
          var r := HandleBuyQuote(m.wrapId, m.sender, asset, budget, m.node, m.now);
          reply := Some(r);
        case Some(PaymentProof(id, preimage)) =>
          var r := HandlePaymentProof(id, preimage, m.now, hashOf);
          reply := Some(r);
        case Some(OrderStatus(id)) =>
          reply := Some(StatusReply(orders, id));
      }
    }

    /** The poll loop: it grows `seen` and handles each new message once. */
    method PollOnce(messages: seq<Message>, hashOf: HashOfPreimage) returns (replies: seq<(string, Response)>)
      requires Valid()
      modifies this`orders, this`fills, this`seen, desk`view, desk.markets.Values
      ensures Valid()
      ensures (State(), seen) == Poll(old(State()), old(seen), messages, hashOf)
      ensures replies == Replies(old(State()), old(seen), messages, hashOf)
    {
      hide Handle, ReplyTo, Poll, Replies, Desk.Valid;
      replies := [];
      ghost var before, known := State(), seen;
      NothingPolled(before, known, messages, hashOf);
      for i := 0 to |messages|
        invariant Valid()
        invariant desk.markets == old(desk.markets)
        invariant (State(), seen) == Poll(before, known, messages[..i], hashOf)
        invariant replies == Replies(before, known, messages[..i], hashOf)
      {
        var m := messages[i];
        PollsOneMore(before, known, messages, i, hashOf);
        if m.wrapId in seen {
          continue;
        }
        seen := seen + {m.wrapId};
        var reply := HandleMessage(m, hashOf);
        if reply.Some? {
          replies := replies + [(m.sender, reply.value)];
        }
      }
      assert messages[..|messages|] == messages;
    }
  }

  /** What handling one message does, case by case. */
  lemma HandleUnfolds(s: ListenerState, m: Message, hashOf: HashOfPreimage)
    requires s.draft.None?
    ensures match m.request
            case None => Handle(s, m, hashOf) == s
            case Some(OrderStatus(_)) => Handle(s, m, hashOf) == s
            case Some(PaymentProof(id, preimage)) =>
              Handle(s, m, hashOf) ==
              if ProofRefusal(s.orders, id, preimage, hashOf).Some? then s else FillStep(s, id, preimage, m.now)
            case Some(BuyQuote(asset, budget)) =>
              Handle(s, m, hashOf) ==
              match BeginQuote(s.desk, s.orders, m.wrapId, m.sender, asset, budget)
              case Err(_) => s
              case Ok(d) =>
                match FinishQuote(d, m.node, m.now)
                case Err(_) => s
                case Ok(o) => s.(orders := s.orders[o.id := o])
  {
    var actions := ActionsOf(s, m);
    if |actions| == 2 {
      RunOfTwo(s, actions[0], actions[1], hashOf);
    } else if |actions| == 1 {
      RunOfOne(s, actions[0], hashOf);
    }
  }

  /** Polling is a run of the machine, so everything proved over runs holds for it. */
  lemma {:induction false} PollKeepsInvariant(s: ListenerState, seen: set<string>, messages: seq<Message>, hashOf: HashOfPreimage)
    requires s.draft.None? && ListenerInv(s, hashOf)
    ensures ListenerInv(Poll(s, seen, messages, hashOf).0, hashOf)
    decreases |messages|
  {
    if messages != [] {
      var n := |messages| - 1;
      PollKeepsInvariant(s, seen, messages[..n], hashOf);
      var (before, known) := Poll(s, seen, messages[..n], hashOf);
      MessageIsARun(before, messages[n], hashOf);
      OrderLaws.RunKeepsInvariant(before, ActionsOf(before, messages[n]), hashOf);
    }
  }
}
