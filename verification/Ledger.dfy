/** The gateway's ledger tables as values, and every registry method as one atomic
    step on them: a transaction commits as a whole or leaves the tables unchanged. */
module Ledger {
  import opened Numbers

  const SATS: string := "sats"

  datatype EventKind =
    | Mint | Receive | Send | LnSend | LnReceive | Burn
    | TransferIn | TransferOut | Deposit | Fee | FeeEarned

  datatype LedgerEvent = LedgerEvent(pubkey: string, asset: string, kind: EventKind, amount: nat,
                                     counterparty: Option<string>, reference: Option<string>)

  datatype InFlightRow = InFlightRow(kind: EventKind, pubkey: string, asset: string, amount: nat,
                                     reference: Option<string>, counterparty: Option<string>)

  /** The four pending tables, keyed by table and key. */
  datatype Key = BatchKey(batch: string) | AddrKey(addr: string) | LnHash(hash: string) | SatsHash(hash: string)

  /** `asset` is empty for a mint, whose asset id is learnt when it resolves. */
  datatype PendingRow = PendingRow(asset: string, pubkey: string, amount: int, createdAt: int)

  type Holder = (string, string)

  datatype Tables = Tables(
    balances: map<Holder, nat>,
    pending: map<Key, PendingRow>,
    mints: map<string, (string, string)>,
    inFlight: map<nat, InFlightRow>,
    nextId: nat,
    sats: map<string, nat>,
    events: seq<LedgerEvent>)

  datatype RegistryError = InsufficientBalance | BatchClaimed | InsufficientSats

  const EMPTY_TABLES: Tables := Tables(map[], map[], map[], map[], 1, map[], [])

  /** The cast of a request's unsigned amount to the signed column type. */
  function AsI64(amount: U64): int {
    if amount <= I64_MAX then amount else amount - (U64_MAX + 1)
  }

  /** The amount a stored row credits. */
  function Credited(stored: int): nat {
    if stored >= 0 then stored else 0
  }

  // ---- Balances -----------------------------------------------------------------

  function Bal(t: Tables, asset: string, pubkey: string): nat {
    if (asset, pubkey) in t.balances then t.balances[(asset, pubkey)] else 0
  }

  function SatsOf(t: Tables, pubkey: string): nat {
    if pubkey in t.sats then t.sats[pubkey] else 0
  }

  function Credit(t: Tables, asset: string, pubkey: string, amount: nat): Tables {
    t.(balances := t.balances[(asset, pubkey) := Bal(t, asset, pubkey) + amount])
  }

  /** The update touches a row only where there is one. */
  function Debit(t: Tables, asset: string, pubkey: string, amount: nat): Result<Tables, RegistryError> {
    if Bal(t, asset, pubkey) < amount then Err(InsufficientBalance)
    else if (asset, pubkey) !in t.balances then Ok(t)
    else Ok(t.(balances := t.balances[(asset, pubkey) := Bal(t, asset, pubkey) - amount]))
  }

  function CreditSats(t: Tables, pubkey: string, amount: nat): Tables {
    t.(sats := t.sats[pubkey := SatsOf(t, pubkey) + amount])
  }

  function DebitSats(t: Tables, pubkey: string, amount: nat): Result<Tables, RegistryError> {
    if SatsOf(t, pubkey) < amount then Err(InsufficientSats)
    else if pubkey !in t.sats then Ok(t)
    else Ok(t.(sats := t.sats[pubkey := SatsOf(t, pubkey) - amount]))
  }

  function Record(t: Tables, e: LedgerEvent): Tables {
    t.(events := t.events + [e])
  }

  function Transfer(t: Tables, asset: string, from: string, to_: string, amount: nat): Result<Tables, RegistryError> {
    var debited :- Debit(t, asset, from, amount);
    var moved := Credit(debited, asset, to_, amount);
    var out := Record(moved, LedgerEvent(from, asset, TransferOut, amount, Some(to_), None));
    Ok(Record(out, LedgerEvent(to_, asset, TransferIn, amount, Some(from), None)))
  }

  // ---- Pending credits -------------------------------------------------------------

  /** A mint claim: idempotent for its owner, refused to anyone else. */
  function AddPendingMint(t: Tables, batch: string, owner: string, amount: int, createdAt: int): Result<Tables, RegistryError> {
    if BatchKey(batch) in t.pending then
      if t.pending[BatchKey(batch)].pubkey == owner then Ok(t) else Err(BatchClaimed)
    else Ok(t.(pending := t.pending[BatchKey(batch) := PendingRow("", owner, amount, createdAt)]))
  }

  /** A receive address replaces an earlier row; an invoice never does. */
  function AddPending(t: Tables, key: Key, row: PendingRow): Tables {
    if key in t.pending && !key.AddrKey? then t else t.(pending := t.pending[key := row])
  }

  function CreditEvent(key: Key, asset: string, pubkey: string, amount: nat): LedgerEvent {
    match key
    case BatchKey(batch) => LedgerEvent(pubkey, asset, Mint, amount, None, Some(batch))
    case AddrKey(addr) => LedgerEvent(pubkey, asset, Receive, amount, Some(addr), Some(addr))
    case LnHash(hash) => LedgerEvent(pubkey, asset, LnReceive, amount, None, Some(hash))
    case SatsHash(hash) => LedgerEvent(pubkey, SATS, Deposit, amount, None, Some(hash))
  }

  /** Resolve one pending row: credit, record, drop, as one transaction. `minted` is the
      asset id a mint produced; every other row names its own asset. */
  function Resolve(t: Tables, key: Key, minted: string): (Tables, bool) {
    if key !in t.pending then (t, false)
    else
      var row := t.pending[key];
      var amount := Credited(row.amount);
      var asset := if key.BatchKey? then minted else row.asset;
      var credited := if key.SatsHash? then CreditSats(t, row.pubkey, amount) else Credit(t, asset, row.pubkey, amount);
      var recorded := Record(credited, CreditEvent(key, asset, row.pubkey, amount));
      var noted := if key.BatchKey? && key.batch !in t.mints
                   then recorded.(mints := t.mints[key.batch := (asset, row.pubkey)]) else recorded;
      (noted.(pending := t.pending - {key}), true)
  }

  function DropPending(t: Tables, key: Key): (Tables, bool) {
    (t.(pending := t.pending - {key}), key in t.pending)
  }

  function StaleLn(t: Tables, cutoff: int): set<Key> {
    set k | k in t.pending && k.LnHash? && t.pending[k].createdAt < cutoff
  }

  function PurgeStaleLn(t: Tables, cutoff: int): Tables {
    t.(pending := t.pending - StaleLn(t, cutoff))
  }

  // ---- In-flight payments ------------------------------------------------------------

  /** Debit and durable intent in one transaction; ids are never reused. */
  function DebitAndMark(t: Tables, row: InFlightRow): Result<(Tables, nat), RegistryError> {
    var debited :- Debit(t, row.asset, row.pubkey, row.amount);
    Ok((debited.(inFlight := t.inFlight[t.nextId := row], nextId := t.nextId + 1), t.nextId))
  }

  function SettleEvent(row: InFlightRow, reference: Option<string>): LedgerEvent {
    LedgerEvent(row.pubkey, row.asset, row.kind, row.amount, row.counterparty,
                if reference.Some? then reference else row.reference)
  }

  function Settle(t: Tables, id: nat, reference: Option<string>): (Tables, bool) {
    if id !in t.inFlight then (t, false)
    else
      var recorded := Record(t, SettleEvent(t.inFlight[id], reference));
      (recorded.(inFlight := t.inFlight - {id}), true)
  }

  function Refund(t: Tables, id: nat): (Tables, bool) {
    if id !in t.inFlight then (t, false)
    else
      var row := t.inFlight[id];
      (Credit(t, row.asset, row.pubkey, row.amount).(inFlight := t.inFlight - {id}), true)
  }

  // ---- Fees ------------------------------------------------------------------------------

  function ChargeFee(t: Tables, payer: string, operator: string, amount: nat): Result<Tables, RegistryError> {
    var debited :- DebitSats(t, payer, amount);
    var paid := CreditSats(debited, operator, amount);
    var charged := Record(paid, LedgerEvent(payer, SATS, Fee, amount, Some(operator), None));
    Ok(Record(charged, LedgerEvent(operator, SATS, FeeEarned, amount, Some(payer), None)))
  }

  /** The payer gets the fee back whole; the operator gives back what it has of it. */
  function RefundFee(t: Tables, payer: string, operator: string, amount: nat): Tables {
    var credited := CreditSats(t, payer, amount);
    var take := Min(amount, SatsOf(credited, operator));
    if take == 0 then credited
    else credited.(sats := credited.sats[operator := SatsOf(credited, operator) - take])
  }
}
