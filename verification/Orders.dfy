/** Remote orders over Nostr messages: the quote, the payment proof, and the order
    table, as steps over values. Handlers run one at a time, but a quote waits for
    its Lightning invoice, and the local user may trade in between. */
module Orders {
  import opened Numbers
  import opened Curve
  import opened MarketModel
  import opened MarketRuns

  datatype OrderStatus = AwaitingPayment | Filled | Expired

  datatype Order = Order(id: string, buyer: string, asset: string, budget: U64, tokens: U64,
                         cost: U64, fee: U64, invoice: string, paymentHash: string,
                         status: OrderStatus, createdAt: U64)

  datatype Failure = Refused(cause: DeskError) | LightningNotReady | NoPaymentHash | UnknownOrder | InvalidPreimage

  datatype Response =
    | Invoice(orderId: string, invoice: string, tokens: U64, cost: U64, fee: U64)
    | FilledBuy(orderId: string, asset: string, tokens: U64, sats: U64)
    | Pending(orderId: string)
    | Failed(cause: Failure)

  /** The preimage's hash in hex, or nothing when it is not hex: sha256 is a parameter. */
  type HashOfPreimage = string -> Option<string>

  function LowerChar(c: char): char {
    if 'A' <= c <= 'Z' then c - 'A' + 'a' else c
  }

  function Lower(s: string): string {
    seq(|s|, i requires 0 <= i < |s| => LowerChar(s[i]))
  }

  predicate VerifyPreimage(o: Order, preimage: string, hashOf: HashOfPreimage) {
    hashOf(preimage) == Some(Lower(o.paymentHash))
  }

  function InvoiceResponse(o: Order): Response {
    Invoice(o.id, o.invoice, o.tokens, o.cost, o.fee)
  }

  /** What the Lightning node answers to an invoice request: a failure, or an invoice
      whose payment hash may be unreadable. */
  datatype NodeInvoice = NoInvoice | Issued(invoice: string, paymentHash: Option<string>)

  /** A quote taken from the market and waiting for its invoice. */
  datatype Draft = Draft(id: string, buyer: string, asset: string, budget: U64, preview: BuyPreview)

  /** One executed fill: the order, the proof that released it, and the trade. */
  datatype Fill = Fill(orderId: string, preimage: string, trade: Trade)

  datatype ListenerState = ListenerState(desk: DeskState, orders: map<string, Order>,
                                         draft: Option<Draft>, fills: seq<Fill>)

  // ---- Handlers ---------------------------------------------------------------

  function QuoteOn(desk: DeskState, asset: string, budget: U64): DeskResult<BuyPreview> {
    if asset !in desk then Err(MarketNotFound) else PreviewBuy(desk[asset], budget)
  }

  /** First half of a buy quote: either the reply, or the draft that awaits an invoice. */
  function BeginQuote(desk: DeskState, orders: map<string, Order>, id: string, buyer: string,
                      asset: string, budget: U64): Result<Draft, Response> {
    if id in orders then Err(InvoiceResponse(orders[id]))
    else
      match QuoteOn(desk, asset, budget)
      case Err(e) => Err(Failed(Refused(e)))
      case Ok(p) => Ok(Draft(id, buyer, asset, budget, p))
  }

  function OrderOf(d: Draft, invoice: string, paymentHash: string, now: U64): Order {
    Order(d.id, d.buyer, d.asset, d.budget, d.preview.tokens, d.preview.cost, d.preview.fee,
          invoice, paymentHash, AwaitingPayment, now)
  }

  /** Second half: the order the invoice completes. */
  function FinishQuote(d: Draft, node: NodeInvoice, now: U64): Result<Order, Response> {
    match node
    case NoInvoice => Err(Failed(LightningNotReady))
    case Issued(_, None) => Err(Failed(NoPaymentHash))
    case Issued(invoice, Some(hash)) => Ok(OrderOf(d, invoice, hash, now))
  }

  function FilledResponse(o: Order, tokens: U64, sats: U64): Response {
    FilledBuy(o.id, o.asset, tokens, sats)
  }

  /** Why a payment proof is answered without a trade, if it is. */
  function ProofRefusal(orders: map<string, Order>, id: string, preimage: string, hashOf: HashOfPreimage): Option<Response> {
    if id !in orders then Some(Failed(UnknownOrder))
    else if orders[id].status == Filled then
      Some(FilledResponse(orders[id], orders[id].tokens, orders[id].cost))
    else if !VerifyPreimage(orders[id], preimage, hashOf) then Some(Failed(InvalidPreimage))
    else None
  }

  /** The sats a paid order brings to the market: the two 64-bit amounts added. */
  function PaidSats(o: Order): U64 {
    Wrap64(o.cost + o.fee)
  }

  function StatusReply(orders: map<string, Order>, id: string): Response {
    if id !in orders then Failed(UnknownOrder)
    else if orders[id].status == Filled then FilledResponse(orders[id], orders[id].tokens, orders[id].cost)
    else Pending(id)
  }

  // ---- The machine --------------------------------------------------------------

  datatype Action =
    | AskQuote(id: string, buyer: string, asset: string, budget: U64)
    | InvoiceArrives(node: NodeInvoice, now: U64)
    | ProvePayment(orderId: string, preimage: string, now: U64)
    | AskStatus(orderId: string)
    | LocalTrade(market: string, op: Op)
    | LocalCreate(spec: MarketSpec, ts: U64)
    | Restart

  /** While a quote waits for its invoice only the local user acts, or the app restarts. */
  predicate Enabled(s: ListenerState, a: Action) {
    match a
    case AskQuote(_, _, _, _) => s.draft.None?
    case InvoiceArrives(_, _) => s.draft.Some?
    case ProvePayment(_, _, _) => s.draft.None?
    case AskStatus(_) => s.draft.None?
    case LocalTrade(_, _) => true
    case LocalCreate(_, _) => true
    case Restart => true
  }

  function FillStep(s: ListenerState, id: string, preimage: string, now: U64): ListenerState
    requires id in s.orders
  {
    var o := s.orders[id];
    match BuyIn(s.desk, o.asset, o.buyer, PaidSats(o), now)
    case Err(_) => s
    case Ok(bought) =>
      s.(desk := bought.0,
         orders := s.orders[id := o.(status := Filled)],
         fills := s.fills + [Fill(id, preimage, bought.1)])
  }

  function Step(s: ListenerState, a: Action, hashOf: HashOfPreimage): ListenerState
    requires Enabled(s, a)
  {
    match a
    case AskQuote(id, buyer, asset, budget) =>
      (match BeginQuote(s.desk, s.orders, id, buyer, asset, budget)
       case Ok(d) => s.(draft := Some(d))
       case Err(_) => s)
    case InvoiceArrives(node, now) =>
      (match FinishQuote(s.draft.value, node, now)
       case Ok(o) => s.(orders := s.orders[o.id := o], draft := None)
       case Err(_) => s.(draft := None))
    case ProvePayment(id, preimage, now) =>
      if ProofRefusal(s.orders, id, preimage, hashOf).Some? then s else FillStep(s, id, preimage, now)
    case AskStatus(_) => s
    case LocalTrade(market, op) =>
      if market in s.desk then s.(desk := s.desk[market := Apply(s.desk[market], op)]) else s
    case LocalCreate(spec, ts) =>
      (match CreateIn(s.desk, spec, ts)
       case Ok(d) => s.(desk := d)
       case Err(_) => s)
    case Restart => s.(draft := None)
  }

  predicate CanRun(s: ListenerState, actions: seq<Action>, hashOf: HashOfPreimage)
    decreases |actions|
  {
    actions == [] ||
    (Enabled(s, actions[0]) && CanRun(Step(s, actions[0], hashOf), actions[1..], hashOf))
  }

  function RunAll(s: ListenerState, actions: seq<Action>, hashOf: HashOfPreimage): ListenerState
    requires CanRun(s, actions, hashOf)
    decreases |actions|
  {
    if actions == [] then s else RunAll(Step(s, actions[0], hashOf), actions[1..], hashOf)
  }
}
