/** One pass of the recovery loop, of the invoice reconcilers and of the solvency audit,
    run over the registry without interruption. */
module Reconcile {
  import opened Numbers
  import opened MapSum
  import opened Ledger
  import opened LedgerLaws
  import opened Registry

  datatype PaymentStatus = Succeeded | Failed | Pending

  datatype Decision = Settles | GivesBack | Stays

  /** Only a Lightning payment with a known hash is ever decided by recovery; an on-chain
      send may have been broadcast and is left for review. */
  function Decide(row: InFlightRow, track: map<string, PaymentStatus>): Decision {
    if row.kind != LnSend || row.reference.None? || row.reference.value !in track then Stays
    else match track[row.reference.value]
      case Succeeded => Settles
      case Failed => GivesBack
      case Pending => Stays
  }

  function RecoverOne(t: Tables, id: nat, track: map<string, PaymentStatus>): Tables {
    if id !in t.inFlight then t
    else match Decide(t.inFlight[id], track)
      case Settles => Settle(t, id, None).0
      case GivesBack => Refund(t, id).0
      case Stays => t
  }

  /** The rows with ids below `n`, recovered in order. */
  function Recovered(t: Tables, n: nat, track: map<string, PaymentStatus>): Tables {
    if n == 0 then t else RecoverOne(Recovered(t, n - 1, track), n - 1, track)
  }

  // ---- What a recovery pass means ------------------------------------------------------

  /** The node says this of the Lightning payment the row stands for. */
  predicate TrackedAs(row: InFlightRow, track: map<string, PaymentStatus>, status: PaymentStatus) {
    row.kind == LnSend && row.reference.Some? && row.reference.value in track && track[row.reference.value] == status
  }

  /** The rows a pass over the ids below `n` leaves: all but those whose payment is known to
      have succeeded or to have failed. */
  function Undecided(rows: map<nat, InFlightRow>, n: nat, track: map<string, PaymentStatus>): map<nat, InFlightRow> {
    map id | id in rows && (id >= n || !(TrackedAs(rows[id], track, Succeeded) || TrackedAs(rows[id], track, Failed)))
      :: rows[id]
  }

  function GivenBack(row: InFlightRow, id: nat, n: nat, track: map<string, PaymentStatus>, asset: string, pubkey: string): int {
    if id < n && TrackedAs(row, track, Failed) then RowAmount(row, asset, pubkey) else 0
  }

  /** The history a pass writes: one event for each payment that succeeded, oldest row first. */
  function SettledEvents(rows: map<nat, InFlightRow>, n: nat, track: map<string, PaymentStatus>): seq<LedgerEvent> {
    if n == 0 then []
    else SettledEvents(rows, n - 1, track) + EventOf(rows, n - 1, track)
  }

  function EventOf(rows: map<nat, InFlightRow>, id: nat, track: map<string, PaymentStatus>): seq<LedgerEvent> {
    if id in rows && TrackedAs(rows[id], track, Succeeded) then
      var row := rows[id];
      [LedgerEvent(row.pubkey, row.asset, LnSend, row.amount, row.counterparty, row.reference)]
    else []
  }

  function GivenBacks(rows: map<nat, InFlightRow>, n: nat, track: map<string, PaymentStatus>, asset: string, pubkey: string)
    : map<nat, int>
  {
    map id | id in rows :: GivenBack(rows[id], id, n, track, asset, pubkey)
  }

  /** What the pass puts back into one balance: every refunded row once. */
  ghost function PutBack(rows: map<nat, InFlightRow>, n: nat, track: map<string, PaymentStatus>, asset: string, pubkey: string): int {
    Sum(GivenBacks(rows, n, track, asset, pubkey))
  }

  lemma PutBackStep(rows: map<nat, InFlightRow>, n: nat, track: map<string, PaymentStatus>, asset: string, pubkey: string)
    ensures PutBack(rows, n + 1, track, asset, pubkey) ==
            PutBack(rows, n, track, asset, pubkey) +
            (if n in rows then GivenBack(rows[n], n, n + 1, track, asset, pubkey) else 0)
  {
    var before := GivenBacks(rows, n, track, asset, pubkey);
    var after := GivenBacks(rows, n + 1, track, asset, pubkey);
    if n in rows {
      assert after == before[n := GivenBack(rows[n], n, n + 1, track, asset, pubkey)];
      SumUpdate(before, n, GivenBack(rows[n], n, n + 1, track, asset, pubkey));
    } else {
      assert after == before;
    }
  }

  /** A pass removes exactly the rows whose payment succeeded or failed. Each failed one gives
      its amount back to its own user, each that succeeded moves no balance; no
      pending row and no sats are touched, and history explains it all. */
  lemma {:induction false} RecoveryMeaning(t: Tables, n: nat, track: map<string, PaymentStatus>, a: string, u: string)
    ensures var after := Recovered(t, n, track);
            && after.inFlight == Undecided(t.inFlight, n, track)
            && Bal(after, a, u) == Bal(t, a, u) + PutBack(t.inFlight, n, track, a, u)
            && Unexplained(after, a, u) == Unexplained(t, a, u)
            && after == t.(balances := after.balances, inFlight := after.inFlight, events := after.events)
    decreases n
  {
    if n == 0 {
      assert Undecided(t.inFlight, 0, track) == t.inFlight;
      SumZero(GivenBacks(t.inFlight, 0, track, a, u));
    } else {
      hide RecoverOne, Undecided, PutBack, Unexplained, Bal, TrackedAs, GivenBack;
      var i := n - 1;
      var before := Recovered(t, i, track);
      RecoveryMeaning(t, i, track, a, u);
      PutBackStep(t.inFlight, i, track, a, u);
      RecoverOneMeaning(before, i, track, a, u);
      UndecidedStep(t.inFlight, i, track);
      assert Recovered(t, n, track) == RecoverOne(before, i, track);
      hide Recovered;
    }
  }

  lemma UndecidedStep(rows: map<nat, InFlightRow>, i: nat, track: map<string, PaymentStatus>)
    ensures Undecided(rows, i + 1, track) ==
            if i in rows && (TrackedAs(rows[i], track, Succeeded) || TrackedAs(rows[i], track, Failed))
            then Undecided(rows, i, track) - {i} else Undecided(rows, i, track)
    ensures i in Undecided(rows, i, track) <==> i in rows
    ensures i in rows ==> Undecided(rows, i, track)[i] == rows[i]
  {}

  lemma RecoverOneMeaning(t: Tables, id: nat, track: map<string, PaymentStatus>, a: string, u: string)
    ensures var after := RecoverOne(t, id, track);
            && after.inFlight ==
               (if id in t.inFlight && (TrackedAs(t.inFlight[id], track, Succeeded) || TrackedAs(t.inFlight[id], track, Failed))
                then t.inFlight - {id} else t.inFlight)
            && Bal(after, a, u) == Bal(t, a, u) +
               (if id in t.inFlight then GivenBack(t.inFlight[id], id, id + 1, track, a, u) else 0)
            && Unexplained(after, a, u) == Unexplained(t, a, u)
            && after == t.(balances := after.balances, inFlight := after.inFlight, events := after.events)
  {
    if id in t.inFlight {
      if Decide(t.inFlight[id], track) == Settles {
        SettleConserves(t, id, None, a, u);
      } else {
        RefundConserves(t, id, a, u);
        CreditMoves(t, t.inFlight[id].asset, t.inFlight[id].pubkey, t.inFlight[id].amount, a, u);
      }
    }
    hide Unexplained, Liability;
  }

  lemma RecoverOneEvents(t: Tables, id: nat, track: map<string, PaymentStatus>)
    ensures RecoverOne(t, id, track).events == t.events + EventOf(t.inFlight, id, track)
  {}

  /** It writes one event for each payment that succeeded, and nothing for the others. */
  lemma {:induction false} RecoveryEvents(t: Tables, n: nat, track: map<string, PaymentStatus>)
    ensures Recovered(t, n, track).events == t.events + SettledEvents(t.inFlight, n, track)
    decreases n
  {
    if n > 0 {
      var i := n - 1;
      var before := Recovered(t, i, track);
      RecoveryEvents(t, i, track);
      RecoveredRows(t, i, track);
      UndecidedStep(t.inFlight, i, track);
      RecoverOneEvents(before, i, track);
      hide Undecided, TrackedAs, RecoverOne;
      assert EventOf(before.inFlight, i, track) == EventOf(t.inFlight, i, track);
    }
  }

  /** What a pass does about one row of the table: a Lightning payment that succeeded leaves
      the table and enters history, one that failed leaves the table, and everything else
      stays, whatever the other rows are. */
  lemma RecoveryOfRow(t: Tables, n: nat, track: map<string, PaymentStatus>, id: nat)
    requires id in t.inFlight && id < n
    ensures var row, after := t.inFlight[id], Recovered(t, n, track);
            var known := row.kind == LnSend && row.reference.Some? && row.reference.value in track;
            && (id in after.inFlight <==> !known || track[row.reference.value] == Pending)
            && (id in after.inFlight ==> after.inFlight[id] == row)
            && (known && track[row.reference.value] == Succeeded ==>
                  LedgerEvent(row.pubkey, row.asset, LnSend, row.amount, row.counterparty, row.reference) in after.events)
  {
    hide Recovered, Unexplained, Bal, PutBack, SettledEvents;
    RecoveredRows(t, n, track);
    RecoveryEvents(t, n, track);
    SettledRowIsRecorded(t, n, track, id);
  }

  lemma SettledRowIsRecorded(t: Tables, n: nat, track: map<string, PaymentStatus>, id: nat)
    requires id in t.inFlight && id < n
    ensures var row := t.inFlight[id];
            TrackedAs(row, track, Succeeded) ==>
              LedgerEvent(row.pubkey, row.asset, LnSend, row.amount, row.counterparty, row.reference)
              in SettledEvents(t.inFlight, n, track)
  {
    if TrackedAs(t.inFlight[id], track, Succeeded) {
      SettledIsRecorded(t.inFlight, n, track, id);
    }
  }

  lemma {:induction false} SettledIsRecorded(rows: map<nat, InFlightRow>, n: nat, track: map<string, PaymentStatus>, id: nat)
    requires id in rows && id < n && TrackedAs(rows[id], track, Succeeded)
    ensures var row := rows[id];
            LedgerEvent(row.pubkey, row.asset, LnSend, row.amount, row.counterparty, row.reference)
            in SettledEvents(rows, n, track)
    decreases n
  {
    if id < n - 1 {
      SettledIsRecorded(rows, n - 1, track, id);
    }
  }

  /** With one row in the table, the whole effect of a pass. */
  lemma RecoveryOfOneRow(t: Tables, track: map<string, PaymentStatus>, id: nat, row: InFlightRow, a: string, u: string)
    requires t.inFlight == map[id := row] && id < t.nextId && row.kind == LnSend && row.reference.Some?
    requires row.reference.value in track
    ensures var after, status := Recovered(t, t.nextId, track), track[row.reference.value];
            && (status == Succeeded ==>
                  && after.inFlight == map[] && Bal(after, a, u) == Bal(t, a, u)
                  && after.events == t.events +
                     [LedgerEvent(row.pubkey, row.asset, LnSend, row.amount, row.counterparty, row.reference)])
            && (status == Failed ==>
                  && after.inFlight == map[] && after.events == t.events
                  && Bal(after, a, u) == Bal(t, a, u) + (if a == row.asset && u == row.pubkey then row.amount else 0))
            && (status == Pending ==> after == t)
  {
    hide Recovered, Unexplained, Bal, SettledEvents, PutBack;
    RecoveryMeaning(t, t.nextId, track, a, u);
    RecoveryEvents(t, t.nextId, track);
    OnePutBack(t.inFlight, t.nextId, track, id, a, u);
    OneSettledRow(t.inFlight, t.nextId, track, id);
    if track[row.reference.value] == Pending {
      RecoverNothing(t, t.nextId, track);
    }
  }

  lemma OnePutBack(rows: map<nat, InFlightRow>, n: nat, track: map<string, PaymentStatus>, id: nat, a: string, u: string)
    requires rows.Keys == {id} && id in rows
    ensures PutBack(rows, n, track, a, u) == GivenBack(rows[id], id, n, track, a, u)
  {
    var backs := GivenBacks(rows, n, track, a, u);
    SumRemove(backs, id);
    assert backs - {id} == map[];
  }

  lemma {:induction false} OneSettledRow(rows: map<nat, InFlightRow>, n: nat, track: map<string, PaymentStatus>, id: nat)
    requires rows.Keys == {id}
    ensures SettledEvents(rows, n, track) == if id < n then EventOf(rows, id, track) else []
    decreases n
  {
    if n > 0 {
      OneSettledRow(rows, n - 1, track, id);
    }
  }

  lemma {:induction false} RecoverNothing(t: Tables, n: nat, track: map<string, PaymentStatus>)
    requires forall id :: id in t.inFlight ==>
               !TrackedAs(t.inFlight[id], track, Succeeded) && !TrackedAs(t.inFlight[id], track, Failed)
    ensures Recovered(t, n, track) == t
    decreases n
  {
    if n > 0 {
      RecoverNothing(t, n - 1, track);
    }
  }

  lemma NoneRecovered(t: Tables, track: map<string, PaymentStatus>)
    ensures Recovered(t, 0, track) == t && Undecided(t.inFlight, 0, track) == t.inFlight
  {}

  lemma RecoveredStep(t: Tables, n: nat, track: map<string, PaymentStatus>)
    ensures Recovered(t, n + 1, track) == RecoverOne(Recovered(t, n, track), n, track)
  {}

  lemma RemovesOne(t: Tables, id: nat)
    ensures id in t.inFlight <==> Settle(t, id, None).1
    ensures id in t.inFlight <==> Refund(t, id).1
    ensures id in t.inFlight ==> |t.inFlight - {id}| == |t.inFlight| - 1
    ensures id in t.inFlight ==> Settle(t, id, None).0.inFlight == t.inFlight - {id} == Refund(t, id).0.inFlight
  {
    if id in t.inFlight {
      assert t.inFlight.Keys == (t.inFlight - {id}).Keys + {id};
    }
  }

  lemma RecoveredRows(t: Tables, n: nat, track: map<string, PaymentStatus>)
    ensures Recovered(t, n, track).inFlight == Undecided(t.inFlight, n, track)
  {
    RecoveryMeaning(t, n, track, "", "");
    hide Recovered, Undecided, Unexplained, Bal, PutBack;
  }

  /** The recovery loop over all rows, oldest first. */
  method RecoverInFlight(registry: Registry, track: map<string, PaymentStatus>) returns (resolved: nat)
    requires forall id :: id in registry.inFlight ==> id < registry.nextId
    modifies registry
    ensures registry.View() == Recovered(old(registry.View()), old(registry.nextId), track)
    ensures registry.inFlight == Undecided(old(registry.inFlight), old(registry.nextId), track)
    ensures resolved + |registry.inFlight| == |old(registry.inFlight)|
  {
    ghost var t := registry.View();
    var entries := registry.inFlight;
    var last := registry.nextId;
    resolved := 0;
    hide Recovered, Undecided, Settle, Refund;
    NoneRecovered(t, track);
    for id := 0 to last
      invariant registry.View() == Recovered(t, id, track)
      invariant resolved + |registry.inFlight| == |entries|
    {
      RecoveredRows(t, id, track);
      RecoveredStep(t, id, track);
      UndecidedStep(entries, id, track);
      RemovesOne(registry.View(), id);
      if id in entries {
        var row := entries[id];
        if row.kind == LnSend && row.reference.Some? && row.reference.value in track {
          var status := track[row.reference.value];
          if status == Succeeded {
            var done := registry.SettleInFlight(id, None);
            if done {
              resolved := resolved + 1;
            }
          } else if status == Failed {
            var done := registry.RefundInFlight(id);
            if done {
              resolved := resolved + 1;
            }
          }
        }
      }
    }
    RecoveredRows(t, last, track);
  }

  // ---- Invoices -----------------------------------------------------------------------

  datatype InvoiceState = InvoiceSettled | InvoiceCanceled | InvoiceOpen

  /** A failed lookup leaves the invoice for the next pass, like an open one. */
  function StateOf(k: Key, lookup: map<Key, InvoiceState>): InvoiceState {
    if k in lookup then lookup[k] else InvoiceOpen
  }

  function ReconcileOne(t: Tables, k: Key, lookup: map<Key, InvoiceState>): Tables {
    match StateOf(k, lookup)
    case InvoiceSettled => Resolve(t, k, "").0
    case InvoiceCanceled => DropPending(t, k).0
    case InvoiceOpen => t
  }

  function Reconciled(t: Tables, keys: seq<Key>, lookup: map<Key, InvoiceState>): Tables {
    if keys == [] then t
    else ReconcileOne(Reconciled(t, keys[..|keys| - 1], lookup), keys[|keys| - 1], lookup)
  }

  predicate Invoices(t: Tables, keys: seq<Key>) {
    && (forall i :: 0 <= i < |keys| ==> (keys[i].LnHash? || keys[i].SatsHash?) && keys[i] in t.pending)
    && (forall i, j :: 0 <= i < j < |keys| ==> keys[i] != keys[j])
  }

  /** The node's lookup says this of the invoice. */
  predicate Says(k: Key, lookup: map<Key, InvoiceState>, state: InvoiceState) {
    k in lookup && lookup[k] == state
  }

  /** The event a settled invoice leaves: its own user, asset and amount under its own hash,
      or the user's sats; a row that holds a negative number credits nothing. */
  function RowCredit(t: Tables, k: Key): LedgerEvent
    requires k in t.pending && (k.LnHash? || k.SatsHash?)
  {
    var row := t.pending[k];
    var amount := if row.amount >= 0 then row.amount else 0;
    if k.SatsHash? then LedgerEvent(row.pubkey, SATS, Deposit, amount, None, Some(k.hash))
    else LedgerEvent(row.pubkey, row.asset, LnReceive, amount, None, Some(k.hash))
  }

  /** The credits a pass makes: one event for each settled invoice, in list order. */
  function PassCredits(t: Tables, keys: seq<Key>, lookup: map<Key, InvoiceState>): seq<LedgerEvent>
    requires Invoices(t, keys)
  {
    if keys == [] then []
    else
      var n := |keys| - 1;
      PassCredits(t, keys[..n], lookup) + (if Says(keys[n], lookup, InvoiceSettled) then [RowCredit(t, keys[n])] else [])
  }

  function StillPending(t: Tables, keys: seq<Key>, lookup: map<Key, InvoiceState>): map<Key, PendingRow> {
    map k | k in t.pending && !(k in keys && (Says(k, lookup, InvoiceSettled) || Says(k, lookup, InvoiceCanceled)))
      :: t.pending[k]
  }

  lemma ReconcileOneMeaning(t: Tables, k: Key, lookup: map<Key, InvoiceState>, a: string, u: string)
    requires k in t.pending && (k.LnHash? || k.SatsHash?)
    ensures var after := ReconcileOne(t, k, lookup);
            && after.pending ==
               (if Says(k, lookup, InvoiceSettled) || Says(k, lookup, InvoiceCanceled) then t.pending - {k} else t.pending)
            && after.events == t.events + (if Says(k, lookup, InvoiceSettled) then [RowCredit(t, k)] else [])
            && Unexplained(after, a, u) == Unexplained(t, a, u)
            && after.inFlight == t.inFlight && after.nextId == t.nextId
  {
    if StateOf(k, lookup) == InvoiceSettled {
      ResolveConserves(t, k, "", a, u);
      ResolveShape(t, k, "");
      hide Resolve, Unexplained, Credit, CreditSats;
    }
  }

  /** A pass drops exactly the settled and cancelled invoices, credits every settled one
      once with the amount of its own row, and stays explained by history. */
  lemma {:induction false} ReconcileMeaning(t: Tables, keys: seq<Key>, lookup: map<Key, InvoiceState>, a: string, u: string)
    requires Invoices(t, keys)
    ensures var after := Reconciled(t, keys, lookup);
            && after.pending == StillPending(t, keys, lookup)
            && after.events == t.events + PassCredits(t, keys, lookup)
            && Unexplained(after, a, u) == Unexplained(t, a, u)
            && after.inFlight == t.inFlight && after.nextId == t.nextId
  {
    if keys == [] {
      assert StillPending(t, keys, lookup) == t.pending;
    } else {
      var n := |keys| - 1;
      var before := Reconciled(t, keys[..n], lookup);
      ReconcileMeaning(t, keys[..n], lookup, a, u);
      StillPendingStep(t, keys, lookup);
      ReconcileOneMeaning(before, keys[n], lookup, a, u);
      hide ReconcileOne, StillPending, Unexplained, Says, RowCredit;
    }
  }

  lemma StillPendingStep(t: Tables, keys: seq<Key>, lookup: map<Key, InvoiceState>)
    requires Invoices(t, keys) && keys != []
    ensures var n := |keys| - 1;
            var before := StillPending(t, keys[..n], lookup);
            && keys[n] in before && before[keys[n]] == t.pending[keys[n]]
            && StillPending(t, keys, lookup)
               == if Says(keys[n], lookup, InvoiceSettled) || Says(keys[n], lookup, InvoiceCanceled) then before - {keys[n]}
                  else before
  {
    var n := |keys| - 1;
    assert keys == keys[..n] + [keys[n]];
    assert keys[n] !in keys[..n];
  }

  lemma NoInvoices(t: Tables, keys: seq<Key>, lookup: map<Key, InvoiceState>)
    ensures Invoices(t, keys[..0]) && Reconciled(t, keys[..0], lookup) == t && PassCredits(t, keys[..0], lookup) == []
  {}

  lemma InvoicesBefore(t: Tables, keys: seq<Key>, i: nat)
    requires Invoices(t, keys) && i <= |keys|
    ensures Invoices(t, keys[..i])
  {}

  lemma OneMoreInvoice(t: Tables, keys: seq<Key>, i: nat, lookup: map<Key, InvoiceState>)
    requires Invoices(t, keys) && i < |keys|
    ensures Invoices(t, keys[..i]) && Invoices(t, keys[..i + 1])
    ensures var before := Reconciled(t, keys[..i], lookup);
            keys[i] in before.pending && Reconciled(t, keys[..i + 1], lookup) == ReconcileOne(before, keys[i], lookup)
    ensures |PassCredits(t, keys[..i + 1], lookup)|
         == |PassCredits(t, keys[..i], lookup)| + if Says(keys[i], lookup, InvoiceSettled) then 1 else 0
  {
    InvoicesBefore(t, keys, i);
    InvoicesBefore(t, keys, i + 1);
    assert keys[..i + 1][..i] == keys[..i] && keys[..i + 1][i] == keys[i];
    StillPendingStep(t, keys[..i + 1], lookup);
    ReconcileMeaning(t, keys[..i], lookup, "", "");
    hide Invoices, ReconcileOne, StillPending, Unexplained, Says, RowCredit;
  }

  lemma ReconcilesOne(t: Tables, k: Key, lookup: map<Key, InvoiceState>)
    requires k in t.pending
    ensures Resolve(t, k, "").1
    ensures ReconcileOne(t, k, lookup) ==
            if Says(k, lookup, InvoiceSettled) then Resolve(t, k, "").0
            else if Says(k, lookup, InvoiceCanceled) then DropPending(t, k).0 else t
  {
    hide Credit, CreditSats, CreditEvent, Record;
  }

  /** One pass over the listed invoices of a table. */
  method ReconcileInvoices(registry: Registry, keys: seq<Key>, lookup: map<Key, InvoiceState>) returns (resolved: nat)
    requires Invoices(registry.View(), keys)
    modifies registry
    ensures registry.View() == Reconciled(old(registry.View()), keys, lookup)
    ensures resolved == |PassCredits(old(registry.View()), keys, lookup)|
  {
    ghost var t := registry.View();
    resolved := 0;
    hide Invoices, Reconciled, PassCredits, ReconcileOne, Resolve, DropPending;
    NoInvoices(t, keys, lookup);
    for i := 0 to |keys|
      invariant Invoices(t, keys[..i])
      invariant registry.View() == Reconciled(t, keys[..i], lookup)
      invariant resolved == |PassCredits(t, keys[..i], lookup)|
    {
      var k := keys[i];
      OneMoreInvoice(t, keys, i, lookup);
      ReconcilesOne(registry.View(), k, lookup);
      if k in lookup {
        if lookup[k] == InvoiceSettled {
          var done := registry.ResolveRow(k, "");
          if done {
            resolved := resolved + 1;
          }
        } else if lookup[k] == InvoiceCanceled {
          var removed := registry.DeletePendingRow(k);
        }
      }
    }
    assert keys[..|keys|] == keys;
  }

  // ---- Audit ----------------------------------------------------------------------------

  function Amount(m: map<string, nat>, asset: string): nat {
    if asset in m then m[asset] else 0
  }

  /** The node may report several anchors for one asset. */
  function HeldSum(anchors: seq<(string, nat)>, asset: string): nat {
    if anchors == [] then 0
    else
      var n := |anchors| - 1;
      HeldSum(anchors[..n], asset) + (if anchors[n].0 == asset then anchors[n].1 else 0)
  }

  function AnchorAmounts(anchors: seq<(string, nat)>, asset: string): map<nat, int> {
    map i: nat | i < |anchors| :: if anchors[i].0 == asset then anchors[i].1 else 0
  }

  /** The node's holding of an asset is the sum over all its anchors, wherever they stand. */
  lemma {:induction false} HeldIsTheWholeSum(anchors: seq<(string, nat)>, asset: string)
    ensures HeldSum(anchors, asset) == Sum(AnchorAmounts(anchors, asset))
    decreases |anchors|
  {
    var amounts := AnchorAmounts(anchors, asset);
    if anchors == [] {
      assert amounts == map[];
    } else {
      var n: nat := |anchors| - 1;
      HeldIsTheWholeSum(anchors[..n], asset);
      SumRemove(amounts, n);
      assert amounts - {n} == AnchorAmounts(anchors[..n], asset);
    }
  }

  method SumAnchors(anchors: seq<(string, nat)>) returns (held: map<string, nat>)
    ensures forall a :: Amount(held, a) == HeldSum(anchors, a)
  {
    held := map[];
    for i := 0 to |anchors|
      invariant forall a :: Amount(held, a) == HeldSum(anchors[..i], a)
    {
      assert anchors[..i + 1][..i] == anchors[..i];
      held := held[anchors[i].0 := Amount(held, anchors[i].0) + anchors[i].1];
    }
    assert anchors[..|anchors|] == anchors;
  }

  lemma HoldingsWithout(balances: map<Holder, nat>, h: Holder, a: string)
    requires h in balances
    ensures Sum(HoldingsOf(balances, a)) == Sum(HoldingsOf(balances - {h}, a)) + (if h.0 == a then balances[h] else 0)
  {
    assert HoldingsOf(balances - {h}, a) == HoldingsOf(balances, a) - {h};
    SumRemove(HoldingsOf(balances, a), h);
  }

  /** Sum of the positive balances of each asset. */
  method TotalLiabilitiesByAsset(balances: map<Holder, nat>) returns (liabilities: map<string, nat>)
    ensures forall a :: Amount(liabilities, a) == Sum(HoldingsOf(balances, a))
    ensures forall a :: a in liabilities ==> liabilities[a] > 0
  {
    liabilities := map[];
    var remaining := balances;
    while remaining != map[]
      invariant remaining.Keys <= balances.Keys && forall h :: h in remaining ==> remaining[h] == balances[h]
      invariant forall a :: Amount(liabilities, a) + Sum(HoldingsOf(remaining, a)) == Sum(HoldingsOf(balances, a))
      invariant forall a :: a in liabilities ==> liabilities[a] > 0
      decreases |remaining|
    {
      var h: Holder :| h in remaining;
      forall a
        ensures Sum(HoldingsOf(remaining, a)) == Sum(HoldingsOf(remaining - {h}, a)) + (if h.0 == a then remaining[h] else 0)
      {
        HoldingsWithout(remaining, h, a);
      }
      if remaining[h] > 0 {
        liabilities := liabilities[h.0 := Amount(liabilities, h.0) + remaining[h]];
      }
      remaining := remaining - {h};
    }
    forall a
      ensures Sum(HoldingsOf(remaining, a)) == 0
    {
      assert HoldingsOf(remaining, a) == map[];
    }
  }

  /** Users are owed more of the asset than the node reports. */
  ghost predicate Drifts(t: Tables, anchors: seq<(string, nat)>, asset: string) {
    Liability(t, asset) > HeldSum(anchors, asset)
  }

  /** The audit names exactly the assets whose user balances exceed what the node reports. */
  method AuditSolvency(registry: Registry, anchors: seq<(string, nat)>) returns (drift: set<string>)
    ensures forall a :: a in drift <==> Drifts(registry.View(), anchors, a)
  {
    drift := {};
    var liabilities := TotalLiabilitiesByAsset(registry.balances);
    if liabilities != map[] {
      var held := SumAnchors(anchors);
      var remaining := liabilities.Keys;
      while remaining != {}
        invariant remaining <= liabilities.Keys
        invariant forall a :: a in drift <==> a in liabilities && a !in remaining && liabilities[a] > Amount(held, a)
        decreases |remaining|
      {
        var a :| a in remaining;
        if liabilities[a] > Amount(held, a) {
          drift := drift + {a};
        }
        remaining := remaining - {a};
      }
    }
    forall a
      ensures a in drift <==> Drifts(registry.View(), anchors, a)
    {
      assert Amount(liabilities, a) == Liability(registry.View(), a);
    }
  }
}
