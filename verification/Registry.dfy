/** The registry as the program runs it: tables updated in place, one method call at a
    time behind the connection mutex. Each method is one step of `Ledger`. */
module Registry {
  import opened Numbers
  import opened MapSum
  import opened Ledger
  import opened LedgerLaws

  class Registry {
    var balances: map<Holder, nat>
    var pending: map<Key, PendingRow>
    var mints: map<string, (string, string)>
    var inFlight: map<nat, InFlightRow>
    var nextId: nat
    var sats: map<string, nat>
    var events: seq<LedgerEvent>

    function View(): Tables
      reads this
    {
      Tables(balances, pending, mints, inFlight, nextId, sats, events)
    }

    constructor ()
      ensures View() == EMPTY_TABLES
    {
      balances, pending, mints, inFlight := map[], map[], map[], map[];
      nextId, sats, events := 1, map[], [];
    }

    // ---- Balances ---------------------------------------------------------------

    function BalanceOf(asset: string, pubkey: string): nat
      reads this
    {
      if (asset, pubkey) in balances then balances[(asset, pubkey)] else 0
    }

    method CreditBalance(asset: string, pubkey: string, amount: nat)
      modifies this`balances
      ensures View() == Credit(old(View()), asset, pubkey, amount)
    {
      var held := BalanceOf(asset, pubkey);
      balances := balances[(asset, pubkey) := held + amount];
    }

    method DebitBalance(asset: string, pubkey: string, amount: nat) returns (ok: bool)
      modifies this`balances
      ensures match Debit(old(View()), asset, pubkey, amount)
              case Ok(after) => ok && View() == after
              case Err(_) => !ok && View() == old(View())
    {
      var held := BalanceOf(asset, pubkey);
      if held < amount {
        return false;
      }
      if (asset, pubkey) in balances {
        balances := balances[(asset, pubkey) := held - amount];
      }
      ok := true;
    }

    method RecordEvent(e: LedgerEvent)
      modifies this`events
      ensures View() == Record(old(View()), e)
    {
      events := events + [e];
    }

    method TransferBetween(asset: string, from: string, to_: string, amount: nat) returns (ok: bool)
      modifies this
      ensures match Transfer(old(View()), asset, from, to_, amount)
              case Ok(after) => ok && View() == after
              case Err(_) => !ok && View() == old(View())
    {
      ok := DebitBalance(asset, from, amount);
      if !ok {
        return;
      }
      CreditBalance(asset, to_, amount);
      RecordEvent(LedgerEvent(from, asset, TransferOut, amount, Some(to_), None));
      RecordEvent(LedgerEvent(to_, asset, TransferIn, amount, Some(from), None));
    }

    // ---- Pending rows -----------------------------------------------------------

    method AddMintClaim(batch: string, owner: string, amount: int, createdAt: int) returns (ok: bool)
      modifies this`pending
      ensures match AddPendingMint(old(View()), batch, owner, amount, createdAt)
              case Ok(after) => ok && View() == after
              case Err(_) => !ok && View() == old(View())
    {
      var key := BatchKey(batch);
      if key in pending {
        return pending[key].pubkey == owner;
      }
      pending := pending[key := PendingRow("", owner, amount, createdAt)];
      ok := true;
    }

    /** `INSERT OR REPLACE` for a receive address, `INSERT OR IGNORE` for an invoice. */
    method AddPendingRow(key: Key, row: PendingRow)
      requires !key.BatchKey?
      modifies this`pending
      ensures View() == AddPending(old(View()), key, row)
    {
      if key !in pending || key.AddrKey? {
        pending := pending[key := row];
      }
    }

    method ResolveRow(key: Key, minted: string) returns (resolved: bool)
      modifies this
      ensures (View(), resolved) == Resolve(old(View()), key, minted)
    {
      if key !in pending {
        return false;
      }
      var row := pending[key];
      var amount := Credited(row.amount);
      var asset := if key.BatchKey? then minted else row.asset;
      if key.SatsHash? {
        CreditSatsBalance(row.pubkey, amount);
      } else {
        CreditBalance(asset, row.pubkey, amount);
      }
      RecordEvent(CreditEvent(key, asset, row.pubkey, amount));
      if key.BatchKey? && key.batch !in mints {
        mints := mints[key.batch := (asset, row.pubkey)];
      }
      pending := pending - {key};
      resolved := true;
    }

    method DeletePendingRow(key: Key) returns (removed: bool)
      modifies this`pending
      ensures (View(), removed) == DropPending(old(View()), key)
    {
      removed := key in pending;
      pending := pending - {key};
    }

    method PurgeStaleLnReceives(cutoff: int) returns (purged: nat)
      modifies this`pending
      ensures View() == PurgeStaleLn(old(View()), cutoff)
      ensures purged == |StaleLn(old(View()), cutoff)|
    {
      var stale := StaleLn(View(), cutoff);
      purged := |stale|;
      pending := pending - stale;
    }

    // ---- In-flight payments --------------------------------------------------------

    method DebitAndMarkInFlight(row: InFlightRow) returns (id: Option<nat>)
      modifies this
      ensures match DebitAndMark(old(View()), row)
              case Ok(marked) => id == Some(marked.1) && View() == marked.0
              case Err(_) => id == None && View() == old(View())
    {
      var ok := DebitBalance(row.asset, row.pubkey, row.amount);
      if !ok {
        return None;
      }
      inFlight := inFlight[nextId := row];
      id := Some(nextId);
      nextId := nextId + 1;
    }

    method SettleInFlight(id: nat, reference: Option<string>) returns (resolved: bool)
      modifies this
      ensures (View(), resolved) == Settle(old(View()), id, reference)
    {
      if id !in inFlight {
        return false;
      }
      RecordEvent(SettleEvent(inFlight[id], reference));
      inFlight := inFlight - {id};
      resolved := true;
    }

    method RefundInFlight(id: nat) returns (resolved: bool)
      modifies this
      ensures (View(), resolved) == Refund(old(View()), id)
    {
      if id !in inFlight {
        return false;
      }
      var row := inFlight[id];
      CreditBalance(row.asset, row.pubkey, row.amount);
      inFlight := inFlight - {id};
      resolved := true;
    }

    // ---- Sats and fees ---------------------------------------------------------------

    function SatsBalanceOf(pubkey: string): nat
      reads this
    {
      if pubkey in sats then sats[pubkey] else 0
    }

    method CreditSatsBalance(pubkey: string, amount: nat)
      modifies this`sats
      ensures View() == CreditSats(old(View()), pubkey, amount)
    {
      var held := SatsBalanceOf(pubkey);
      sats := sats[pubkey := held + amount];
    }

    method DebitSatsBalance(pubkey: string, amount: nat) returns (ok: bool)
      modifies this`sats
      ensures match DebitSats(old(View()), pubkey, amount)
              case Ok(after) => ok && View() == after
              case Err(_) => !ok && View() == old(View())
    {
      var held := SatsBalanceOf(pubkey);
      if held < amount {
        return false;
      }
      if pubkey in sats {
        sats := sats[pubkey := held - amount];
      }
      ok := true;
    }

    method ChargeOperatorFee(payer: string, operator: string, amount: nat) returns (ok: bool)
      modifies this
      ensures match ChargeFee(old(View()), payer, operator, amount)
              case Ok(after) => ok && View() == after
              case Err(_) => !ok && View() == old(View())
    {
      ok := DebitSatsBalance(payer, amount);
      if !ok {
        return;
      }
      CreditSatsBalance(operator, amount);
      RecordEvent(LedgerEvent(payer, SATS, Fee, amount, Some(operator), None));
      RecordEvent(LedgerEvent(operator, SATS, FeeEarned, amount, Some(payer), None));
    }

    method RefundOperatorFee(payer: string, operator: string, amount: nat)
      modifies this
      ensures View() == RefundFee(old(View()), payer, operator, amount)
    {
      CreditSatsBalance(payer, amount);
      var held := SatsBalanceOf(operator);
      var take := Min(amount, held);
      if take > 0 {
        sats := sats[operator := held - take];
      }
    }
  }
}
