/** What the registry's steps leave in each table, row by row. */
module LedgerMeaning {
  import opened Numbers
  import opened Ledger

  // ---- Pending rows -------------------------------------------------------------------

  /** Rows added one after another. */
  function AddAll(t: Tables, adds: seq<(Key, PendingRow)>): Tables
    decreases |adds|
  {
    if adds == [] then t
    else
      var n := |adds| - 1;
      AddPending(AddAll(t, adds[..n]), adds[n].0, adds[n].1)
  }

  /** The row `after` is the one of position `i`, which is the first or the last of its key. */
  predicate RowOf(adds: seq<(Key, PendingRow)>, key: Key, i: nat, row: PendingRow) {
    && i < |adds| && adds[i] == (key, row)
    && if key.AddrKey? then forall j :: i < j < |adds| ==> adds[j].0 != key
       else forall j :: 0 <= j < i ==> adds[j].0 != key
  }

  /** However requests repeat: a receive address keeps the row of the last request for it, and an
      invoice the row it already had or else that of the first one; keys nobody asked for, and
      every other table, stay as they were. */
  lemma {:induction false} AddsMeaning(t: Tables, adds: seq<(Key, PendingRow)>, key: Key)
    ensures var after := AddAll(t, adds);
            && after == t.(pending := after.pending)
            && (if forall i :: 0 <= i < |adds| ==> adds[i].0 != key
                then key in after.pending <==> key in t.pending
                else key in after.pending)
            && (key in after.pending ==>
                  if key in t.pending && (!key.AddrKey? || forall i :: 0 <= i < |adds| ==> adds[i].0 != key)
                  then after.pending[key] == t.pending[key]
                  else exists i: nat :: RowOf(adds, key, i, after.pending[key]))
    decreases |adds|
  {
    if adds != [] {
      var n := |adds| - 1;
      var before, after := adds[..n], AddAll(t, adds);
      AddsMeaning(t, before, key);
      assert forall i :: 0 <= i < n ==> before[i] == adds[i];
      if adds[n].0 == key && (key.AddrKey? || key !in AddAll(t, before).pending) {
        assert RowOf(adds, key, n, after.pending[key]);
      } else if key in after.pending && exists i: nat :: RowOf(before, key, i, after.pending[key]) {
        var i: nat :| RowOf(before, key, i, after.pending[key]);
        assert RowOf(adds, key, i, after.pending[key]);
      }
    }
  }

  /** Resolving a row credits its amount, or nothing when that is negative, to its own user: units
      of the minted or of its own asset, or sats for a deposit. It notes the one event of its
      kind under its key, notes a batch that is not noted yet, and drops the row. */
  lemma ResolveMeaning(t: Tables, key: Key, minted: string)
    requires key in t.pending
    ensures Resolve(t, key, minted).1
    ensures var after, row := Resolve(t, key, minted).0, t.pending[key];
            var user, amount: nat := row.pubkey, if row.amount >= 0 then row.amount else 0;
            && after.pending == t.pending - {key} && after.inFlight == t.inFlight && after.nextId == t.nextId
            && match key
               case BatchKey(batch) =>
                 && after.balances == t.balances[(minted, user) := Bal(t, minted, user) + amount] && after.sats == t.sats
                 && after.events == t.events + [LedgerEvent(user, minted, Mint, amount, None, Some(batch))]
                 && after.mints == if batch in t.mints then t.mints else t.mints[batch := (minted, user)]
               case AddrKey(addr) =>
                 && after.balances == t.balances[(row.asset, user) := Bal(t, row.asset, user) + amount] && after.sats == t.sats
                 && after.events == t.events + [LedgerEvent(user, row.asset, Receive, amount, Some(addr), Some(addr))]
                 && after.mints == t.mints
               case LnHash(hash) =>
                 && after.balances == t.balances[(row.asset, user) := Bal(t, row.asset, user) + amount] && after.sats == t.sats
                 && after.events == t.events + [LedgerEvent(user, row.asset, LnReceive, amount, None, Some(hash))]
                 && after.mints == t.mints
               case SatsHash(hash) =>
                 && after.sats == t.sats[user := SatsOf(t, user) + amount] && after.balances == t.balances
                 && after.events == t.events + [LedgerEvent(user, "sats", Deposit, amount, None, Some(hash))]
                 && after.mints == t.mints
  {}

  // ---- Rows in flight and fees ----------------------------------------------------------

  /** A settled row becomes the one event of its kind, amount and counterparty, under the reference
      given now or else the row's own; a settled or refunded row is gone, so that only the first
      of the two ever takes effect. */
  lemma ClosingMeaning(t: Tables, id: nat, reference: Option<string>)
    ensures id !in t.inFlight ==> Settle(t, id, reference) == (t, false) && Refund(t, id) == (t, false)
    ensures id in t.inFlight ==>
            var row, settled, refunded := t.inFlight[id], Settle(t, id, reference), Refund(t, id);
            && settled.1 && refunded.1 && id !in settled.0.inFlight && id !in refunded.0.inFlight
            && settled.0 == t.(inFlight := t.inFlight - {id},
                               events := t.events + [LedgerEvent(row.pubkey, row.asset, row.kind, row.amount, row.counterparty,
                                                                 if reference.Some? then reference else row.reference)])
            && refunded.0 == t.(inFlight := t.inFlight - {id},
                                balances := t.balances[(row.asset, row.pubkey) := Bal(t, row.asset, row.pubkey) + row.amount])
  {}

  /** A fee is charged exactly when the payer has it, and is written into both histories. */
  lemma FeeMeaning(t: Tables, payer: string, operator: string, amount: nat)
    requires payer != operator
    ensures var r := ChargeFee(t, payer, operator, amount);
            if SatsOf(t, payer) < amount then r == Err(InsufficientSats)
            else
              && r.Ok? && SatsOf(r.value, payer) == SatsOf(t, payer) - amount
              && SatsOf(r.value, operator) == SatsOf(t, operator) + amount
              && (forall u :: u != payer && u != operator ==> SatsOf(r.value, u) == SatsOf(t, u))
              && r.value.events == t.events + [LedgerEvent(payer, "sats", Fee, amount, Some(operator), None),
                                               LedgerEvent(operator, "sats", FeeEarned, amount, Some(payer), None)]
              && r.value == t.(sats := r.value.sats, events := r.value.events)
  {
  }
}
