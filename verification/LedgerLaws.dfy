/** How each registry step moves the quantities the gateway must conserve. */
module LedgerLaws {
  import opened Numbers
  import opened MapSum
  import opened Ledger

  // ---- Quantities ------------------------------------------------------------------

  predicate Incoming(kind: EventKind) {
    kind in {Mint, Receive, LnReceive, TransferIn}
  }

  predicate Outgoing(kind: EventKind) {
    kind in {Send, LnSend, Burn, TransferOut}
  }

  /** What one history event says about its owner's balance of an asset. */
  function EventEffect(e: LedgerEvent, asset: string, pubkey: string): int {
    var n: int := e.amount;
    if e.asset != asset || e.pubkey != pubkey then 0
    else if Incoming(e.kind) then n
    else if Outgoing(e.kind) then -n
    else 0
  }

  /** The balance a user's history alone implies. */
  function HistorySum(events: seq<LedgerEvent>, asset: string, pubkey: string): int {
    if events == [] then 0
    else
      var n := |events| - 1;
      HistorySum(events[..n], asset, pubkey) + EventEffect(events[n], asset, pubkey)
  }

  function RowAmount(row: InFlightRow, asset: string, pubkey: string): int {
    if row.asset == asset && row.pubkey == pubkey then row.amount else 0
  }

  function RowAmounts(rows: map<nat, InFlightRow>, asset: string, pubkey: string): map<nat, int> {
    map id | id in rows :: RowAmount(rows[id], asset, pubkey)
  }

  /** Units of an asset a user has reserved in in-flight rows. */
  ghost function Reserved(rows: map<nat, InFlightRow>, asset: string, pubkey: string): int {
    Sum(RowAmounts(rows, asset, pubkey))
  }

  /** Balance plus reservations, less what history implies. */
  ghost function Unexplained(t: Tables, asset: string, pubkey: string): int {
    Bal(t, asset, pubkey) + Reserved(t.inFlight, asset, pubkey) - HistorySum(t.events, asset, pubkey)
  }

  function HoldingsOf(balances: map<Holder, nat>, asset: string): map<Holder, int> {
    map h | h in balances :: if h.0 == asset then balances[h] else 0
  }

  /** What all users together hold of an asset. */
  ghost function Liability(t: Tables, asset: string): int {
    Sum(HoldingsOf(t.balances, asset))
  }

  ghost function TotalSats(t: Tables): int {
    Sum(t.sats)
  }

  // ---- Building blocks ----------------------------------------------------------------

  lemma HistoryAppend(events: seq<LedgerEvent>, e: LedgerEvent, asset: string, pubkey: string)
    ensures HistorySum(events + [e], asset, pubkey) == HistorySum(events, asset, pubkey) + EventEffect(e, asset, pubkey)
  {
    assert (events + [e])[..|events|] == events;
  }

  lemma ReservedInsert(rows: map<nat, InFlightRow>, id: nat, row: InFlightRow, asset: string, pubkey: string)
    requires id !in rows
    ensures Reserved(rows[id := row], asset, pubkey) == Reserved(rows, asset, pubkey) + RowAmount(row, asset, pubkey)
  {
    var w := RowAmounts(rows, asset, pubkey);
    assert RowAmounts(rows[id := row], asset, pubkey) == w[id := RowAmount(row, asset, pubkey)];
    SumUpdate(w, id, RowAmount(row, asset, pubkey));
  }

  lemma ReservedRemove(rows: map<nat, InFlightRow>, id: nat, asset: string, pubkey: string)
    requires id in rows
    ensures Reserved(rows - {id}, asset, pubkey) == Reserved(rows, asset, pubkey) - RowAmount(rows[id], asset, pubkey)
  {
    var w := RowAmounts(rows, asset, pubkey);
    assert RowAmounts(rows - {id}, asset, pubkey) == w - {id};
    SumRemove(w, id);
  }

  /** Setting one balance moves the asset's liability by the change, and no other's. */
  lemma LiabilityUpdate(t: Tables, asset: string, pubkey: string, v: nat, other: string)
    ensures Liability(t.(balances := t.balances[(asset, pubkey) := v]), other) ==
            Liability(t, other) + (if other == asset then v - Bal(t, asset, pubkey) else 0)
  {
    var w := HoldingsOf(t.balances, other);
    var at := if asset == other then v else 0;
    assert HoldingsOf(t.balances[(asset, pubkey) := v], other) == w[(asset, pubkey) := at];
    SumUpdate(w, (asset, pubkey), at);
  }

  lemma CreditMoves(t: Tables, asset: string, pubkey: string, amount: nat, a: string, u: string)
    ensures var after := Credit(t, asset, pubkey, amount);
            && Bal(after, a, u) == Bal(t, a, u) + (if a == asset && u == pubkey then amount else 0)
            && Liability(after, a) == Liability(t, a) + (if a == asset then amount else 0)
            && after == t.(balances := after.balances)
  {
    LiabilityUpdate(t, asset, pubkey, Bal(t, asset, pubkey) + amount, a);
  }

  lemma DebitMoves(t: Tables, asset: string, pubkey: string, amount: nat, a: string, u: string)
    ensures Debit(t, asset, pubkey, amount).Ok? <==> amount <= Bal(t, asset, pubkey)
    ensures Debit(t, asset, pubkey, amount).Ok? ==>
            var after := Debit(t, asset, pubkey, amount).value;
            && Bal(after, a, u) == Bal(t, a, u) - (if a == asset && u == pubkey then amount else 0)
            && Liability(after, a) == Liability(t, a) - (if a == asset then amount else 0)
            && after == t.(balances := after.balances)
  {
    if amount <= Bal(t, asset, pubkey) {
      LiabilityUpdate(t, asset, pubkey, Bal(t, asset, pubkey) - amount, a);
    }
  }

  lemma CreditSatsMoves(t: Tables, pubkey: string, amount: nat, u: string)
    ensures var after := CreditSats(t, pubkey, amount);
            && SatsOf(after, u) == SatsOf(t, u) + (if u == pubkey then amount else 0)
            && TotalSats(after) == TotalSats(t) + amount
            && after == t.(sats := after.sats)
  {
    SumUpdate(t.sats, pubkey, SatsOf(t, pubkey) + amount);
  }

  lemma DebitSatsMoves(t: Tables, pubkey: string, amount: nat, u: string)
    ensures DebitSats(t, pubkey, amount).Ok? <==> amount <= SatsOf(t, pubkey)
    ensures DebitSats(t, pubkey, amount).Ok? ==>
            var after := DebitSats(t, pubkey, amount).value;
            && SatsOf(after, u) == SatsOf(t, u) - (if u == pubkey then amount else 0)
            && TotalSats(after) == TotalSats(t) - amount
            && after == t.(sats := after.sats)
  {
    if amount <= SatsOf(t, pubkey) {
      SumUpdate(t.sats, pubkey, SatsOf(t, pubkey) - amount);
    }
  }

  // ---- Per-step laws ------------------------------------------------------------------

  lemma TransferHistory(events: seq<LedgerEvent>, asset: string, from: string, to_: string, amount: nat, a: string, u: string)
    ensures HistorySum(events + [LedgerEvent(from, asset, TransferOut, amount, Some(to_), None)]
                              + [LedgerEvent(to_, asset, TransferIn, amount, Some(from), None)], a, u) ==
            HistorySum(events, a, u) - (if a == asset && u == from then amount else 0)
                                     + (if a == asset && u == to_ then amount else 0)
  {
    var out := LedgerEvent(from, asset, TransferOut, amount, Some(to_), None);
    var in_ := LedgerEvent(to_, asset, TransferIn, amount, Some(from), None);
    HistoryAppend(events, out, a, u);
    HistoryAppend(events + [out], in_, a, u);
    hide HistorySum;
  }

  lemma TransferMoves(t: Tables, asset: string, from: string, to_: string, amount: nat, a: string, u: string)
    requires Debit(t, asset, from, amount).Ok?
    ensures var after := Credit(Debit(t, asset, from, amount).value, asset, to_, amount);
            && Bal(after, a, u) == Bal(t, a, u) - (if a == asset && u == from then amount else 0)
                                   + (if a == asset && u == to_ then amount else 0)
            && Liability(after, a) == Liability(t, a)
            && after == t.(balances := after.balances)
  {
    DebitMoves(t, asset, from, amount, a, u);
    CreditMoves(Debit(t, asset, from, amount).value, asset, to_, amount, a, u);
  }

  /** A transfer explains itself and creates nothing. */
  lemma TransferConserves(t: Tables, asset: string, from: string, to_: string, amount: nat, a: string, u: string)
    requires Transfer(t, asset, from, to_, amount).Ok?
    ensures var after := Transfer(t, asset, from, to_, amount).value;
            && Unexplained(after, a, u) == Unexplained(t, a, u)
            && Liability(after, a) == Liability(t, a)
            && after == t.(balances := after.balances, events := after.events)
  {
    hide Transfer, Credit, Debit, Liability, HistorySum, Reserved, Bal, EventEffect;
    TransferShape(t, asset, from, to_, amount);
    TransferMoves(t, asset, from, to_, amount, a, u);
    TransferHistory(t.events, asset, from, to_, amount, a, u);
    var moved := Credit(Debit(t, asset, from, amount).value, asset, to_, amount);
    EventsOnly(moved, Transfer(t, asset, from, to_, amount).value, a, u);
  }

  lemma EventsOnly(t: Tables, after: Tables, a: string, u: string)
    requires after == t.(events := after.events)
    ensures Bal(after, a, u) == Bal(t, a, u) && Liability(after, a) == Liability(t, a)
  {}

  lemma TransferShape(t: Tables, asset: string, from: string, to_: string, amount: nat)
    ensures Transfer(t, asset, from, to_, amount).Ok? <==> Debit(t, asset, from, amount).Ok?
    ensures Transfer(t, asset, from, to_, amount).Ok? ==>
            Transfer(t, asset, from, to_, amount).value ==
            Credit(Debit(t, asset, from, amount).value, asset, to_, amount)
              .(events := t.events + [LedgerEvent(from, asset, TransferOut, amount, Some(to_), None)]
                                   + [LedgerEvent(to_, asset, TransferIn, amount, Some(from), None)])
  {}

  /** A reservation moves units from the balance to its row. */
  lemma MarkConserves(t: Tables, row: InFlightRow, a: string, u: string)
    requires t.nextId !in t.inFlight && DebitAndMark(t, row).Ok?
    ensures var (after, id) := DebitAndMark(t, row).value;
            && id == t.nextId
            && Unexplained(after, a, u) == Unexplained(t, a, u)
            && Liability(after, a) == Liability(t, a) - (if a == row.asset then row.amount else 0)
            && after == t.(balances := after.balances, inFlight := t.inFlight[id := row], nextId := id + 1)
  {
    DebitMoves(t, row.asset, row.pubkey, row.amount, a, u);
    ReservedInsert(t.inFlight, t.nextId, row, a, u);
  }

  /** Settling turns a reservation into a history entry. */
  lemma SettleConserves(t: Tables, id: nat, reference: Option<string>, a: string, u: string)
    requires id in t.inFlight && Outgoing(t.inFlight[id].kind)
    ensures var after := Settle(t, id, reference).0;
            && Unexplained(after, a, u) == Unexplained(t, a, u)
            && Liability(after, a) == Liability(t, a)
            && after == t.(inFlight := t.inFlight - {id}, events := after.events)
  {
    ReservedRemove(t.inFlight, id, a, u);
    HistoryAppend(t.events, SettleEvent(t.inFlight[id], reference), a, u);
  }

  /** Refunding puts a reservation back into its balance. */
  lemma RefundConserves(t: Tables, id: nat, a: string, u: string)
    requires id in t.inFlight
    ensures var row, after := t.inFlight[id], Refund(t, id).0;
            && Unexplained(after, a, u) == Unexplained(t, a, u)
            && Liability(after, a) == Liability(t, a) + (if a == row.asset then row.amount else 0)
            && after == t.(balances := after.balances, inFlight := t.inFlight - {id})
  {
    var row := t.inFlight[id];
    CreditMoves(t, row.asset, row.pubkey, row.amount, a, u);
    ReservedRemove(t.inFlight, id, a, u);
  }

  /** The credit inside a resolve, before it is recorded. */
  lemma ResolveMoves(t: Tables, key: Key, asset: string, row: PendingRow, a: string, u: string)
    ensures var amount := Credited(row.amount);
            var after := if key.SatsHash? then CreditSats(t, row.pubkey, amount) else Credit(t, asset, row.pubkey, amount);
            && Bal(after, a, u) == Bal(t, a, u) +
               (if !key.SatsHash? && a == asset && u == row.pubkey then amount else 0)
            && Liability(after, a) == Liability(t, a) + (if !key.SatsHash? && a == asset then amount else 0)
            && TotalSats(after) == TotalSats(t) + (if key.SatsHash? then amount else 0)
            && SatsOf(after, u) == SatsOf(t, u) + (if key.SatsHash? && u == row.pubkey then amount else 0)
            && after == t.(balances := after.balances, sats := after.sats)
  {
    CreditMoves(t, asset, row.pubkey, Credited(row.amount), a, u);
    CreditSatsMoves(t, row.pubkey, Credited(row.amount), u);
  }

  function ResolvedAsset(t: Tables, key: Key, minted: string): string
    requires key in t.pending
  {
    if key.BatchKey? then minted else t.pending[key].asset
  }

  lemma CreditEventEffect(key: Key, asset: string, row: PendingRow, a: string, u: string)
    ensures EventEffect(CreditEvent(key, asset, row.pubkey, Credited(row.amount)), a, u) ==
            if !key.SatsHash? && a == asset && u == row.pubkey then Credited(row.amount) else 0
  {}

  /** A resolved credit is explained by its own event. */
  lemma ResolveConserves(t: Tables, key: Key, minted: string, a: string, u: string)
    requires key in t.pending
    ensures var after := Resolve(t, key, minted).0;
            var row, asset := t.pending[key], ResolvedAsset(t, key, minted);
            && Unexplained(after, a, u) == Unexplained(t, a, u)
            && Liability(after, a) == Liability(t, a) +
               (if !key.SatsHash? && a == asset then Credited(row.amount) else 0)
            && TotalSats(after) == TotalSats(t) + (if key.SatsHash? then Credited(row.amount) else 0)
            && SatsOf(after, u) == SatsOf(t, u) +
               (if key.SatsHash? && u == row.pubkey then Credited(row.amount) else 0)
  {
    var row, asset := t.pending[key], ResolvedAsset(t, key, minted);
    ResolveShape(t, key, minted);
    ResolveMoves(t, key, asset, row, a, u);
    HistoryAppend(t.events, CreditEvent(key, asset, row.pubkey, Credited(row.amount)), a, u);
    CreditEventEffect(key, asset, row, a, u);
    hide Resolve, Credit, CreditSats, HistorySum, Reserved, EventEffect, CreditEvent, Credited;
  }

  lemma ResolveShape(t: Tables, key: Key, minted: string)
    requires key in t.pending
    ensures var row, asset, amount := t.pending[key], ResolvedAsset(t, key, minted), Credited(t.pending[key].amount);
            var moved := if key.SatsHash? then CreditSats(t, row.pubkey, amount) else Credit(t, asset, row.pubkey, amount);
            var after := Resolve(t, key, minted).0;
            && Resolve(t, key, minted).1
            && after.balances == moved.balances && after.sats == moved.sats
            && after.inFlight == t.inFlight && after.nextId == t.nextId
            && after.pending == t.pending - {key}
            && after.events == t.events + [CreditEvent(key, asset, row.pubkey, amount)]
            && after.mints == (if key.BatchKey? && key.batch !in t.mints then t.mints[key.batch := (asset, row.pubkey)] else t.mints)
  {}

  /** A fee moves sats from payer to operator and touches no asset. */
  lemma ChargeConserves(t: Tables, payer: string, operator: string, amount: nat, a: string, u: string)
    requires payer != operator && ChargeFee(t, payer, operator, amount).Ok?
    ensures var after := ChargeFee(t, payer, operator, amount).value;
            && TotalSats(after) == TotalSats(t)
            && SatsOf(after, u) == SatsOf(t, u) + (if u == operator then amount else 0)
               - (if u == payer then amount else 0)
            && Unexplained(after, a, u) == Unexplained(t, a, u)
            && after == t.(sats := after.sats, events := after.events)
  {
    DebitSatsMoves(t, payer, amount, u);
    DebitSatsMoves(t, payer, amount, operator);
    CreditSatsMoves(DebitSats(t, payer, amount).value, operator, amount, u);
    var fee := LedgerEvent(payer, SATS, Fee, amount, Some(operator), None);
    HistoryAppend(t.events, fee, a, u);
    HistoryAppend(t.events + [fee], LedgerEvent(operator, SATS, FeeEarned, amount, Some(payer), None), a, u);
  }

  /** A fee refund is exact exactly when the operator still has the fee; otherwise the
      difference is created out of nothing. */
  lemma RefundFeeMoves(t: Tables, payer: string, operator: string, amount: nat, a: string, u: string)
    requires payer != operator
    ensures var after := RefundFee(t, payer, operator, amount);
            var short := if SatsOf(t, operator) >= amount then 0 else amount - SatsOf(t, operator);
            && TotalSats(after) == TotalSats(t) + short
            && SatsOf(after, u) == SatsOf(t, u) +
               (if u == payer then amount else if u == operator then short - amount else 0)
            && Unexplained(after, a, u) == Unexplained(t, a, u)
            && after == t.(sats := after.sats)
  {
    CreditSatsMoves(t, payer, amount, u);
    CreditSatsMoves(t, payer, amount, operator);
    var credited := CreditSats(t, payer, amount);
    SumUpdate(credited.sats, operator, SatsOf(credited, operator) - Min(amount, SatsOf(credited, operator)));
  }
}
