/** The durable side of the gateway: its tables together with what really happened to
    every debit, node-issued key and unit the node holds. The records beside the tables
    are not stored by the program; they are the account against which it is judged. */
module GatewayCore {
  import opened Numbers
  import opened MapSum
  import opened Ledger
  import opened LedgerLaws

  /** How the ledger closed a debit. */
  datatype Closing = Open | Settled | Refunded

  /** What became of the value at the node. */
  datatype Fate = Unsent | Sent | Left | Dropped

  /** A reservation has a row id; a burn has only the handler that debited it. */
  datatype DebitId = Row(id: nat) | BurnOf(pid: nat)

  /** A debit made for a node call: its terms, the handler that made it, and both sides
      of its outcome. */
  datatype Payment = Payment(row: InFlightRow, owner: nat, closing: Closing, fate: Fate)

  datatype Stage = Issued | Waiting | Paid | Gone

  /** A batch, address or invoice the node issued, and the credit claimed on it. */
  datatype Claim = Claim(pubkey: string, asset: string, amount: U64, owner: nat,
                         arrived: bool, cancelled: bool, stage: Stage)

  datatype HashStatus = InTransit | Succeeded | Failed

  datatype Core = Core(
    t: Tables,
    payments: map<DebitId, Payment>,
    claims: map<Key, Claim>,
    holdings: map<string, nat>,
    surplus: map<string, nat>,
    hashes: map<string, HashStatus>)

  const EMPTY_CORE: Core := Core(EMPTY_TABLES, map[], map[], map[], map[], map[])

  /** Units of an asset the node holds. */
  function Held(c: Core, asset: string): nat {
    if asset in c.holdings then c.holdings[asset] else 0
  }

  /** Units of those that are the operator's own. */
  function Spare(c: Core, asset: string): nat {
    if asset in c.surplus then c.surplus[asset] else 0
  }

  // ---- Weights --------------------------------------------------------------------

  /** What a debit still stands for: units the node must keep for it, less units that
      have gone. Negative when it was refunded although its value had left. */
  function Weight(p: Payment): int {
    var n: int := p.row.amount;
    (if p.closing == Refunded then 0 else n) - (if p.fate == Left then n else 0)
  }

  function WeightOf(ps: map<DebitId, Payment>, d: DebitId, asset: string): int {
    if d in ps && ps[d].row.asset == asset then Weight(ps[d]) else 0
  }

  function Weights(ps: map<DebitId, Payment>, asset: string): map<DebitId, int> {
    map d | d in ps :: WeightOf(ps, d, asset)
  }

  ghost function Outstanding(ps: map<DebitId, Payment>, asset: string): int {
    Sum(Weights(ps, asset))
  }

  /** Units a user's burn has debited and neither recorded nor refunded. */
  function BurnOpen(ps: map<DebitId, Payment>, d: DebitId, asset: string, pubkey: string): int {
    if d in ps && d.BurnOf? && ps[d].closing == Open then RowAmount(ps[d].row, asset, pubkey) else 0
  }

  function BurnsOpen(ps: map<DebitId, Payment>, asset: string, pubkey: string): map<DebitId, int> {
    map d | d in ps :: BurnOpen(ps, d, asset, pubkey)
  }

  ghost function OpenBurns(ps: map<DebitId, Payment>, asset: string, pubkey: string): int {
    Sum(BurnsOpen(ps, asset, pubkey))
  }

  /** What a key credits when it is paid. */
  function Worth(cl: Claim): nat {
    Credited(AsI64(cl.amount))
  }

  /** Units that arrived for a key and are not yet credited. */
  function ClaimWeight(cs: map<Key, Claim>, k: Key, asset: string): int {
    if k !in cs || k.SatsHash? || cs[k].asset != asset then 0
    else
      var n: int := cs[k].amount;
      (if cs[k].arrived then n else 0) - (if cs[k].stage == Paid then Worth(cs[k]) else 0)
  }

  function ClaimWeights(cs: map<Key, Claim>, asset: string): map<Key, int> {
    map k | k in cs :: ClaimWeight(cs, k, asset)
  }

  ghost function Uncredited(cs: map<Key, Claim>, asset: string): int {
    Sum(ClaimWeights(cs, asset))
  }

  function DepositOf(cs: map<Key, Claim>, k: Key): int {
    if k in cs && k.SatsHash? && cs[k].stage == Paid then Worth(cs[k]) else 0
  }

  function DepositsOf(cs: map<Key, Claim>): map<Key, int> {
    map k | k in cs :: DepositOf(cs, k)
  }

  /** The sats of all resolved deposits. */
  ghost function Deposits(cs: map<Key, Claim>): int {
    Sum(DepositsOf(cs))
  }

  // ---- Exactly-once credits ----------------------------------------------------------

  predicate Credits(e: LedgerEvent, k: Key) {
    match k
    case BatchKey(batch) => e.kind == Mint && e.reference == Some(batch)
    case AddrKey(addr) => e.kind == Receive && e.reference == Some(addr)
    case LnHash(hash) => e.kind == LnReceive && e.reference == Some(hash)
    case SatsHash(hash) => e.kind == Deposit && e.reference == Some(hash)
  }

  /** The credit events recorded for one key. */
  function CreditsFor(events: seq<LedgerEvent>, k: Key): seq<LedgerEvent> {
    if events == [] then []
    else
      var n := |events| - 1;
      CreditsFor(events[..n], k) + (if Credits(events[n], k) then [events[n]] else [])
  }

  // ---- The invariant -------------------------------------------------------------------

  predicate PaysOut(row: InFlightRow) {
    row.kind == Send || row.kind == LnSend
  }

  /** The in-flight table holds exactly the open payments, under ids used once. */
  ghost predicate RowsOk(ps: map<DebitId, Payment>, rows: map<nat, InFlightRow>, nextId: nat) {
    && (forall d :: d in ps ==> if d.Row? then d.id < nextId && PaysOut(ps[d].row) else ps[d].row.kind == Burn)
    && (forall id :: id in rows <==> Row(id) in ps && ps[Row(id)].closing == Open)
    && (forall id :: id in rows ==> rows[id] == ps[Row(id)].row)
  }

  predicate RowMatches(k: Key, row: PendingRow, cl: Claim) {
    row.pubkey == cl.pubkey && row.amount == AsI64(cl.amount) && (!k.BatchKey? ==> row.asset == cl.asset)
  }

  /** The pending tables hold exactly the waiting claims, and only what arrived was paid. */
  ghost predicate ClaimsOk(cs: map<Key, Claim>, pending: map<Key, PendingRow>) {
    && (forall k :: k in pending <==> k in cs && cs[k].stage == Waiting)
    && (forall k :: k in pending ==> RowMatches(k, pending[k], cs[k]))
    && (forall k :: k in cs && cs[k].stage == Paid ==> cs[k].arrived)
  }

  function PaidEvents(cs: map<Key, Claim>, k: Key): seq<LedgerEvent> {
    if k in cs && cs[k].stage == Paid then [CreditEvent(k, cs[k].asset, cs[k].pubkey, Worth(cs[k]))] else []
  }

  /** Every key is credited once, in full, if it is paid, and never otherwise. */
  ghost predicate CreditsOk(cs: map<Key, Claim>, events: seq<LedgerEvent>) {
    forall k: Key :: CreditsFor(events, k) == PaidEvents(cs, k)
  }

  predicate MintRecorded(cs: map<Key, Claim>, mints: map<string, (string, string)>, batch: string) {
    var k := BatchKey(batch);
    if k in cs && cs[k].stage == Paid then batch in mints && mints[batch] == (cs[k].asset, cs[k].pubkey)
    else batch !in mints
  }

  /** The mint table holds exactly the credited batches, with their asset and owner. */
  ghost predicate MintsOk(cs: map<Key, Claim>, mints: map<string, (string, string)>) {
    forall batch: string :: MintRecorded(cs, mints, batch)
  }

  ghost predicate Shape(c: Core) {
    && RowsOk(c.payments, c.t.inFlight, c.t.nextId)
    && ClaimsOk(c.claims, c.t.pending)
    && CreditsOk(c.claims, c.t.events)
    && MintsOk(c.claims, c.t.mints)
  }

  /** A user's balance, reservations and open burns, less what history says. */
  ghost function JournalGap(c: Core, a: string, u: string): int {
    Unexplained(c.t, a, u) + OpenBurns(c.payments, a, u)
  }

  /** The node's holding of an asset, less everything it is held for. */
  ghost function BooksGap(c: Core, a: string): int {
    Held(c, a) - Liability(c.t, a) - Outstanding(c.payments, a) - Uncredited(c.claims, a) - Spare(c, a)
  }

  ghost function SatsGap(c: Core): int {
    TotalSats(c.t) - Deposits(c.claims)
  }

  ghost predicate Balanced(c: Core) {
    && (forall a: string, u: string :: JournalGap(c, a, u) == 0)
    && (forall a: string :: BooksGap(c, a) == 0)
    && SatsGap(c) == 0
  }

  ghost predicate CoreInv(c: Core) {
    Shape(c) && Balanced(c)
  }

  /** What no step may undo. `actor` is the handler taking the step, if one is: only the
      handler that made a debit may send it, and only it may close one that is not a
      Lightning payment; only the handler a key was issued to may store its row. */
  predicate PaymentEvolves(p: Payment, q: Payment, actor: Option<nat>) {
    && q.row == p.row && q.owner == p.owner
    && (p.closing != Open ==> q.closing == p.closing)
    && (p.fate == Left || p.fate == Dropped ==> q.fate == p.fate)
    && (p.fate == Sent ==> q.fate != Unsent)
    && (Some(p.owner) != actor && p.fate == Unsent ==> q.fate == Unsent)
    && (Some(p.owner) != actor && p.row.kind != LnSend ==> q.closing == p.closing)
  }

  predicate ClaimEvolves(x: Claim, y: Claim, actor: Option<nat>) {
    && y == x.(arrived := y.arrived, cancelled := y.cancelled, stage := y.stage)
    && (x.arrived ==> y.arrived)
    && (x.stage == Paid || x.stage == Gone ==> y.stage == x.stage)
    && (Some(x.owner) != actor && x.stage == Issued ==> y.stage == Issued)
  }

  ghost predicate PaymentsEvolve(ps: map<DebitId, Payment>, qs: map<DebitId, Payment>, actor: Option<nat>) {
    forall d :: d in ps ==> d in qs && PaymentEvolves(ps[d], qs[d], actor)
  }

  ghost predicate ClaimsEvolve(cs: map<Key, Claim>, ds: map<Key, Claim>, actor: Option<nat>) {
    forall k :: k in cs ==> k in ds && ClaimEvolves(cs[k], ds[k], actor)
  }

  // ---- Kernel steps: what one atomic step does to tables and account together -------------

  function WithTables(c: Core, t: Tables): Core { c.(t := t) }

  function PutPayment(c: Core, d: DebitId, p: Payment): Core { c.(payments := c.payments[d := p]) }

  function PutClaim(c: Core, k: Key, cl: Claim): Core { c.(claims := c.claims[k := cl]) }

  function MarkRow(c: Core, row: InFlightRow, owner: nat): Core
    requires DebitAndMark(c.t, row).Ok?
  {
    var (t, id) := DebitAndMark(c.t, row).value;
    PutPayment(WithTables(c, t), Row(id), Payment(row, owner, Open, Unsent))
  }

  /** Settling or refunding a row that is no longer there does nothing. */
  function SettleRow(c: Core, id: nat, reference: Option<string>): Core {
    if id !in c.t.inFlight || Row(id) !in c.payments then c
    else PutPayment(WithTables(c, Settle(c.t, id, reference).0), Row(id), c.payments[Row(id)].(closing := Settled))
  }

  function RefundRow(c: Core, id: nat): Core {
    if id !in c.t.inFlight || Row(id) !in c.payments then c
    else PutPayment(WithTables(c, Refund(c.t, id).0), Row(id), c.payments[Row(id)].(closing := Refunded))
  }

  function OpenBurn(c: Core, pid: nat, row: InFlightRow): Core
    requires Debit(c.t, row.asset, row.pubkey, row.amount).Ok?
  {
    PutPayment(WithTables(c, Debit(c.t, row.asset, row.pubkey, row.amount).value),
               BurnOf(pid), Payment(row, pid, Open, Unsent))
  }

  function BurnEvent(row: InFlightRow, txid: string): LedgerEvent {
    LedgerEvent(row.pubkey, row.asset, Burn, row.amount, None, Some(txid))
  }

  function RecordBurn(c: Core, d: DebitId, txid: string): Core
    requires d in c.payments
  {
    var p := c.payments[d];
    PutPayment(WithTables(c, Record(c.t, BurnEvent(p.row, txid))), d, p.(closing := Settled))
  }

  function RefundBurn(c: Core, d: DebitId): Core
    requires d in c.payments
  {
    var p := c.payments[d];
    PutPayment(WithTables(c, Credit(c.t, p.row.asset, p.row.pubkey, p.row.amount)), d, p.(closing := Refunded))
  }

  function SetFate(c: Core, d: DebitId, fate: Fate): Core
    requires d in c.payments
  {
    PutPayment(c, d, c.payments[d].(fate := fate))
  }

  /** The value of a debit leaves the node. */
  function PayOut(c: Core, d: DebitId): Core
    requires d in c.payments && c.payments[d].row.amount <= Held(c, c.payments[d].row.asset)
  {
    var row := c.payments[d].row;
    SetFate(c, d, Left).(holdings := c.holdings[row.asset := Held(c, row.asset) - row.amount])
  }

  /** The node confirms a key: the units are there, except that a deposit brings sats. */
  function Arrive(c: Core, k: Key): Core
    requires k in c.claims
  {
    var cl := c.claims[k];
    var confirmed := PutClaim(c, k, cl.(arrived := true));
    if k.SatsHash? then confirmed
    else confirmed.(holdings := c.holdings[cl.asset := Held(c, cl.asset) + cl.amount])
  }

  function WaitingRow(k: Key, cl: Claim, createdAt: int): PendingRow {
    PendingRow(if k.BatchKey? then "" else cl.asset, cl.pubkey, AsI64(cl.amount), createdAt)
  }

  function StoreRow(t: Tables, k: Key, row: PendingRow): Tables {
    if k.BatchKey?
    then match AddPendingMint(t, k.batch, row.pubkey, row.amount, row.createdAt) case Ok(after) => after case Err(_) => t
    else AddPending(t, k, row)
  }

  /** A handler stores the pending row of a key the node issued to it. */
  function Await(c: Core, k: Key, createdAt: int): Core
    requires k in c.claims
  {
    var cl := c.claims[k];
    PutClaim(WithTables(c, StoreRow(c.t, k, WaitingRow(k, cl, createdAt))), k, cl.(stage := Waiting))
  }

  function PayClaim(c: Core, k: Key): Core {
    if k !in c.t.pending || k !in c.claims then c
    else PutClaim(WithTables(c, Resolve(c.t, k, c.claims[k].asset).0), k, c.claims[k].(stage := Paid))
  }

  function DropClaim(c: Core, k: Key): Core {
    if k !in c.t.pending || k !in c.claims then c
    else PutClaim(WithTables(c, DropPending(c.t, k).0), k, c.claims[k].(stage := Gone))
  }

  function Purged(cs: map<Key, Claim>, stale: set<Key>): map<Key, Claim> {
    map k | k in cs :: if k in stale then cs[k].(stage := Gone) else cs[k]
  }

  function PurgeClaims(c: Core, cutoff: int): Core {
    c.(t := PurgeStaleLn(c.t, cutoff), claims := Purged(c.claims, StaleLn(c.t, cutoff)))
  }

  /** The operator adds own units to the node, or spends them. */
  function Fund(c: Core, asset: string, amount: nat): Core {
    c.(holdings := c.holdings[asset := Held(c, asset) + amount], surplus := c.surplus[asset := Spare(c, asset) + amount])
  }

  function SpendOwn(c: Core, asset: string, amount: nat): Core
    requires amount <= Spare(c, asset) && amount <= Held(c, asset)
  {
    c.(holdings := c.holdings[asset := Held(c, asset) - amount], surplus := c.surplus[asset := Spare(c, asset) - amount])
  }
}
