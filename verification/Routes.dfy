/** The handlers as the program writes them: ordered calls on the registry around one call
    to the node, here with nothing interleaved. The node's answer is a parameter. */
module Routes {
  import opened Numbers
  import opened Ledger
  import opened LedgerLaws
  import opened Registry
  import opened Gateway

  /** No balance, no sats and no open row differ. */
  ghost predicate Unmoved(before: Tables, after: Tables) {
    && (forall a, u :: Bal(after, a, u) == Bal(before, a, u))
    && (forall u :: SatsOf(after, u) == SatsOf(before, u))
    && after.inFlight == before.inFlight && after.pending == before.pending
  }

  /** One user's balance of one asset is lower by `amount`, every other is as before. */
  ghost predicate Paid(before: Tables, after: Tables, asset: string, user: string, amount: nat) {
    && (forall a, u :: Bal(after, a, u) == Bal(before, a, u) - (if a == asset && u == user then amount else 0))
    && after.inFlight == before.inFlight && after.pending == before.pending
  }

  /** Fees are switched on, there is an operator to take them, and the payer is someone else. */
  predicate OwesFee(policy: Policy, payer: string) {
    policy.charging && policy.operator.Some? && policy.operator.value != payer
  }

  /** The fee went from payer to operator if one is owed, and no other sats moved. */
  ghost predicate FeePaid(before: Tables, after: Tables, policy: Policy, payer: string, fee: nat) {
    forall u :: SatsOf(after, u) == SatsOf(before, u)
                  + (if OwesFee(policy, payer) && u == policy.operator.value then fee else 0)
                  - (if OwesFee(policy, payer) && u == payer then fee else 0)
  }

  method MaybeChargeFee(registry: Registry, policy: Policy, payer: string, fee: nat) returns (ok: bool, charge: Option<nat>)
    modifies registry
    ensures var (charged, due) := TryCharge(old(registry.View()), policy, payer, fee);
            && charge == due && ok == charged.Ok?
            && registry.View() == if charged.Ok? then charged.value else old(registry.View())
    ensures charge == if OwesFee(policy, payer) then Some(fee) else None
    ensures ok <==> !OwesFee(policy, payer) || fee <= SatsOf(old(registry.View()), payer)
    ensures ok ==> FeePaid(old(registry.View()), registry.View(), policy, payer, fee)
    ensures !ok || !OwesFee(policy, payer) ==> registry.View() == old(registry.View())
  {
    ghost var before := registry.View();
    ok, charge := true, None;
    if policy.charging {
      var operator := policy.operator;
      if operator.Some? {
        if operator.value != payer {
          charge := Some(fee);
          ok := registry.ChargeOperatorFee(payer, operator.value, fee);
        }
      }
    }
    ChargeIsDue(before, policy, payer, fee);
    ChargeNeedsSats(before, policy, payer, fee);
    if ok {
      ChargeMoves(before, policy, payer, fee);
    }
    hide FeePaid, ChargeFee;
  }

  lemma ChargeNeedsSats(t: Tables, policy: Policy, payer: string, fee: nat)
    ensures TryCharge(t, policy, payer, fee).0.Ok? <==> (OwesFee(policy, payer) ==> fee <= SatsOf(t, payer))
  {
    DebitSatsMoves(t, payer, fee, "");
  }

  lemma ChargeMoves(t: Tables, policy: Policy, payer: string, fee: nat)
    requires TryCharge(t, policy, payer, fee).0.Ok?
    ensures var after := TryCharge(t, policy, payer, fee).0.value;
            && FeePaid(t, after, policy, payer, fee)
            && after == t.(sats := after.sats, events := after.events)
  {
    var op := Collector(policy, payer);
    if op.Some? {
      var after := ChargeFee(t, payer, op.value, fee).value;
      forall u
        ensures SatsOf(after, u) == SatsOf(t, u) + (if u == op.value then fee else 0) - (if u == payer then fee else 0)
      {
        ChargeConserves(t, payer, op.value, fee, "", u);
      }
      ChargeConserves(t, payer, op.value, fee, "", "");
      hide ChargeFee, Unexplained, TotalSats, SatsOf;
    }
  }

  /** Charging and then refunding leaves every sats balance as it was. */
  lemma ChargeThenRefund(t: Tables, mid: Tables, policy: Policy, payer: string, fee: nat)
    requires OwesFee(policy, payer) && FeePaid(t, mid, policy, payer, fee)
    ensures var after := RefundFee(mid, payer, policy.operator.value, fee);
            && (forall u :: SatsOf(after, u) == SatsOf(t, u))
            && after == mid.(sats := after.sats)
  {
    var op := policy.operator.value;
    assert SatsOf(mid, op) >= fee;
    var after := RefundFee(mid, payer, op, fee);
    forall u
      ensures SatsOf(after, u) == SatsOf(t, u)
    {
      RefundFeeMoves(mid, payer, op, fee, "", u);
    }
    RefundFeeMoves(mid, payer, op, fee, "", "");
    hide RefundFee, Unexplained, TotalSats, SatsOf;
  }

  /** Whatever happened to sats and history meanwhile, refunding a row restores every balance
      and settling it leaves its own user's lower. */
  lemma ReserveThenClose(t: Tables, row: InFlightRow, mid: Tables, reference: Option<string>)
    requires t.nextId !in t.inFlight && DebitAndMark(t, row).Ok?
    requires mid == DebitAndMark(t, row).value.0.(sats := mid.sats, events := mid.events)
    ensures var refunded, settled := Refund(mid, t.nextId).0, Settle(mid, t.nextId, reference).0;
            && (forall a, u :: Bal(refunded, a, u) == Bal(t, a, u))
            && refunded.inFlight == t.inFlight && refunded.pending == t.pending
            && refunded.sats == mid.sats && refunded.events == mid.events
            && Paid(t, settled, row.asset, row.pubkey, row.amount)
            && settled.sats == mid.sats
            && settled.events == mid.events +
               [LedgerEvent(row.pubkey, row.asset, row.kind, row.amount, row.counterparty,
                            if reference.Some? then reference else row.reference)]
  {
    ReserveThenRefund(t, row, mid);
    ReserveThenSettle(t, row, mid, reference);
    hide Bal, Debit, DebitAndMark, Refund, Settle, Paid;
  }

  lemma ReserveThenRefund(t: Tables, row: InFlightRow, mid: Tables)
    requires t.nextId !in t.inFlight && DebitAndMark(t, row).Ok?
    requires mid == DebitAndMark(t, row).value.0.(sats := mid.sats, events := mid.events)
    ensures var refunded := Refund(mid, t.nextId).0;
            && (forall a, u :: Bal(refunded, a, u) == Bal(t, a, u))
            && refunded.inFlight == t.inFlight && refunded.pending == t.pending
            && refunded.sats == mid.sats && refunded.events == mid.events
  {
    assert t.inFlight[t.nextId := row] - {t.nextId} == t.inFlight;
  }

  lemma ReserveThenSettle(t: Tables, row: InFlightRow, mid: Tables, reference: Option<string>)
    requires t.nextId !in t.inFlight && DebitAndMark(t, row).Ok?
    requires mid == DebitAndMark(t, row).value.0.(sats := mid.sats, events := mid.events)
    ensures var settled := Settle(mid, t.nextId, reference).0;
            && Paid(t, settled, row.asset, row.pubkey, row.amount)
            && settled.sats == mid.sats
            && settled.events == mid.events +
               [LedgerEvent(row.pubkey, row.asset, row.kind, row.amount, row.counterparty,
                            if reference.Some? then reference else row.reference)]
  {
    assert t.inFlight[t.nextId := row] - {t.nextId} == t.inFlight;
  }

  lemma SameFee(before: Tables, after: Tables, mid: Tables, last: Tables, policy: Policy, payer: string, fee: nat)
    requires FeePaid(before, after, policy, payer, fee) && mid.sats == before.sats && last.sats == after.sats
    ensures FeePaid(mid, last, policy, payer, fee)
  {
    SameSatsFor(before, mid);
    SameSatsFor(after, last);
    hide SatsOf;
  }

  lemma SameSatsFor(t: Tables, after: Tables)
    ensures after.sats == t.sats ==> forall u :: SatsOf(after, u) == SatsOf(t, u)
  {}

  /** A whole send: reserve, charge, call the node, then settle, or refund reservation and
      fee. The node's answer is a transaction id, or nothing. */
  function SendResult(t: Tables, policy: Policy, row: InFlightRow, fee: nat, node: Option<string>): (Tables, Reply) {
    match DebitAndMark(t, row)
    case Err(_) => (t, Failure)
    case Ok((marked, id)) =>
      var (charged, charge) := TryCharge(marked, policy, row.pubkey, fee);
      if charged.Err? then (Refund(marked, id).0, Failure)
      else if node.Some? then (Settle(charged.value, id, node).0, Success)
      else
        var refunded := Refund(charged.value, id).0;
        (if charge.Some? then RefundFee(refunded, row.pubkey, policy.operator.value, charge.value) else refunded, Failure)
  }

  /** A send that fails moves nothing; one that succeeds lowers its own user's balance by the
      amount, takes the fee and leaves its event; and it succeeds exactly when the units,
      the fee and the node's consent are all there. */
  lemma SendMeaning(t: Tables, policy: Policy, row: InFlightRow, fee: nat, node: Option<string>)
    requires t.nextId !in t.inFlight
    ensures var (after, reply) := SendResult(t, policy, row, fee, node);
            && (reply == Failure ==> Unmoved(t, after))
            && (reply == Success ==>
                  && Paid(t, after, row.asset, row.pubkey, row.amount) && FeePaid(t, after, policy, row.pubkey, fee)
                  && |after.events| > 0
                  && after.events[|after.events| - 1]
                     == LedgerEvent(row.pubkey, row.asset, row.kind, row.amount, row.counterparty, node))
            && (reply == Success <==>
                  && row.amount <= Bal(t, row.asset, row.pubkey) && node.Some?
                  && (OwesFee(policy, row.pubkey) ==> fee <= SatsOf(t, row.pubkey)))
  {
    hide Bal, SatsOf, Debit, ChargeFee, RefundFee, FeePaid, Paid, DebitAndMark;
    ReserveNeedsUnits(t, row);
    if DebitAndMark(t, row).Ok? {
      MarkConserves(t, row, "", "");
      var marked := DebitAndMark(t, row).value.0;
      var (charged, charge) := TryCharge(marked, policy, row.pubkey, fee);
      ReserveThenClose(t, row, marked, node);
      SameSatsFor(t, marked);
      SameSatsFor(t, Refund(marked, t.nextId).0);
      ChargeNeedsSats(marked, policy, row.pubkey, fee);
      ChargeIsDue(marked, policy, row.pubkey, fee);
      hide Settle, Refund, OwesFee;
      if charged.Ok? {
        ChargeMoves(marked, policy, row.pubkey, fee);
        ReserveThenClose(t, row, charged.value, node);
        var refunded := Refund(charged.value, t.nextId).0;
        SameFee(marked, charged.value, t, Settle(charged.value, t.nextId, node).0, policy, row.pubkey, fee);
        SameFee(marked, charged.value, t, refunded, policy, row.pubkey, fee);
        if charge.Some? {
          ChargeThenRefund(t, refunded, policy, row.pubkey, fee);
          SameBalFor(refunded, RefundFee(refunded, row.pubkey, policy.operator.value, fee));
        } else {
          SameSatsFor(t, refunded);
        }
      }
    }
  }

  lemma SameBalFor(t: Tables, after: Tables)
    ensures after.balances == t.balances ==> forall a, u :: Bal(after, a, u) == Bal(t, a, u)
  {}

  method SendUnits(registry: Registry, policy: Policy, row: InFlightRow, fee: nat, node: Option<string>) returns (reply: Reply)
    requires row.kind == Send
    modifies registry
    ensures (registry.View(), reply) == SendResult(old(registry.View()), policy, row, fee, node)
  {
    hide DebitAndMark, ChargeFee, RefundFee, Settle, Refund;
    var id := registry.DebitAndMarkInFlight(row);
    if id.None? {
      return Failure;
    }
    var ok, charge := MaybeChargeFee(registry, policy, row.pubkey, fee);
    if !ok {
      var refunded := registry.RefundInFlight(id.value);
      return Failure;
    }
    if node.Some? {
      var settled := registry.SettleInFlight(id.value, node);
      return Success;
    }
    var refunded := registry.RefundInFlight(id.value);
    if charge.Some? {
      registry.RefundOperatorFee(row.pubkey, policy.operator.value, charge.value);
    }
    return Failure;
  }

  lemma ReserveNeedsUnits(t: Tables, row: InFlightRow)
    ensures DebitAndMark(t, row).Ok? <==> row.amount <= Bal(t, row.asset, row.pubkey)
    ensures DebitAndMark(t, row).Ok? ==> DebitAndMark(t, row).value.1 == t.nextId
  {}

  /** Reserve, pay, then settle on success and refund otherwise. */
  function PayResult(t: Tables, row: InFlightRow, succeeded: bool): (Tables, Reply) {
    if row.amount == 0 then (t, Failure)
    else
      match DebitAndMark(t, row)
      case Err(_) => (t, Failure)
      case Ok((marked, id)) =>
        if succeeded then (Settle(marked, id, None).0, Success) else (Refund(marked, id).0, Failure)
  }

  /** A payment that fails moves nothing and leaves no event; one that succeeds lowers its own
      user's balance by the amount; and it succeeds exactly when units and node agree. */
  lemma PayMeaning(t: Tables, row: InFlightRow, succeeded: bool)
    requires t.nextId !in t.inFlight
    ensures var (after, reply) := PayResult(t, row, succeeded);
            && (reply == Failure ==> Unmoved(t, after) && after.events == t.events)
            && (reply == Success ==>
                  && Paid(t, after, row.asset, row.pubkey, row.amount) && after.sats == t.sats
                  && after.events
                     == t.events + [LedgerEvent(row.pubkey, row.asset, row.kind, row.amount, row.counterparty, row.reference)])
            && (reply == Success <==> row.amount > 0 && row.amount <= Bal(t, row.asset, row.pubkey) && succeeded)
  {
    hide Bal, Debit, Paid, DebitAndMark, Settle, Refund;
    ReserveNeedsUnits(t, row);
    if DebitAndMark(t, row).Ok? {
      MarkConserves(t, row, "", "");
      var marked := DebitAndMark(t, row).value.0;
      ReserveThenClose(t, row, marked, None);
      SameSatsFor(t, Refund(marked, t.nextId).0);
    }
  }

  method PayInvoice(registry: Registry, row: InFlightRow, succeeded: bool) returns (reply: Reply)
    requires row.kind == LnSend
    modifies registry
    ensures (registry.View(), reply) == PayResult(old(registry.View()), row, succeeded)
  {
    hide DebitAndMark, Settle, Refund;
    if row.amount == 0 {
      return Failure;
    }
    var id := registry.DebitAndMarkInFlight(row);
    if id.None? {
      return Failure;
    }
    if succeeded {
      var settled := registry.SettleInFlight(id.value, None);
      return Success;
    }
    var refunded := registry.RefundInFlight(id.value);
    return Failure;
  }

  /** Debit, burn at the node, then record, or credit back; no row is kept meanwhile. */
  function BurnResult(t: Tables, row: InFlightRow, node: Option<string>): (Tables, Reply) {
    if row.amount == 0 then (t, Failure)
    else
      match Debit(t, row.asset, row.pubkey, row.amount)
      case Err(_) => (t, Failure)
      case Ok(debited) =>
        if node.Some? then (Record(debited, LedgerEvent(row.pubkey, row.asset, Burn, row.amount, None, node)), Success)
        else (Credit(debited, row.asset, row.pubkey, row.amount), Failure)
  }

  lemma BurnMeaning(t: Tables, row: InFlightRow, node: Option<string>)
    ensures var (after, reply) := BurnResult(t, row, node);
            && (reply == Failure ==> Unmoved(t, after) && after.events == t.events)
            && (reply == Success ==>
                  && Paid(t, after, row.asset, row.pubkey, row.amount) && after.sats == t.sats
                  && after.events == t.events + [LedgerEvent(row.pubkey, row.asset, Burn, row.amount, None, node)])
            && (reply == Success <==> row.amount > 0 && row.amount <= Bal(t, row.asset, row.pubkey) && node.Some?)
  {
    DebitMoves(t, row.asset, row.pubkey, row.amount, row.asset, row.pubkey);
  }

  method BurnUnits(registry: Registry, row: InFlightRow, node: Option<string>) returns (reply: Reply)
    requires row.kind == Burn
    modifies registry
    ensures (registry.View(), reply) == BurnResult(old(registry.View()), row, node)
  {
    hide Debit, Credit;
    if row.amount == 0 {
      return Failure;
    }
    var ok := registry.DebitBalance(row.asset, row.pubkey, row.amount);
    if !ok {
      return Failure;
    }
    if node.Some? {
      registry.RecordEvent(LedgerEvent(row.pubkey, row.asset, Burn, row.amount, None, node));
      return Success;
    }
    registry.CreditBalance(row.asset, row.pubkey, row.amount);
    return Failure;
  }

  /** Charge, mint at the node, then claim the batch, or give the fee back. */
  function MintResult(t: Tables, policy: Policy, user: string, units: U64, fee: nat, node: Option<string>, now: int): (Tables, Reply) {
    if units == 0 then (t, Failure)
    else
      var (charged, charge) := TryCharge(t, policy, user, fee);
      if charged.Err? then (t, Failure)
      else if node.None? then
        (if charge.Some? then RefundFee(charged.value, user, policy.operator.value, charge.value) else charged.value, Failure)
      else
        match AddPendingMint(charged.value, node.value, user, AsI64(units), now)
        case Ok(claimed) => (claimed, Success)
        case Err(_) => (charged.value, Failure)
  }

  /** Another owner already claims the batch. */
  predicate ClaimedByAnother(t: Tables, node: Option<string>, user: string) {
    node.Some? && BatchKey(node.value) in t.pending && t.pending[BatchKey(node.value)].pubkey != user
  }

  /** A mint succeeds exactly when there is something to mint, the fee is there, and the node
      made a batch nobody else claims; then it takes the fee and stores the claim. It fails
      without a trace, except that on a batch another owner claims it keeps the fee. */
  lemma MintMeaning(t: Tables, policy: Policy, user: string, units: U64, fee: nat, node: Option<string>, now: int)
    ensures var (after, reply) := MintResult(t, policy, user, units, fee, node, now);
            var due := units > 0 && (OwesFee(policy, user) ==> fee <= SatsOf(t, user)) && node.Some?;
            && (reply == Success <==> due && !ClaimedByAnother(t, node, user))
            && (!due ==> Unmoved(t, after))
            && (due ==>
                  && FeePaid(t, after, policy, user, fee) && after.balances == t.balances && after.inFlight == t.inFlight
                  && after.pending ==
                     if ClaimedByAnother(t, node, user) || BatchKey(node.value) in t.pending then t.pending
                     else t.pending[BatchKey(node.value) := PendingRow("", user, AsI64(units), now)])
  {
    var (charged, charge) := TryCharge(t, policy, user, fee);
    ChargeNeedsSats(t, policy, user, fee);
    if units > 0 && charged.Ok? {
      ChargeMoves(t, policy, user, fee);
      hide TryCharge, ChargeFee, RefundFee, FeePaid, SatsOf, Bal;
      SameBalFor(t, charged.value);
      if node.None? {
        ChargeIsDue(t, policy, user, fee);
        if charge.Some? {
          ChargeThenRefund(t, charged.value, policy, user, charge.value);
          SameBalFor(t, RefundFee(charged.value, user, policy.operator.value, charge.value));
        }
      } else {
        ClaimShape(charged.value, node.value, user, AsI64(units), now);
        SameFee(t, charged.value, t, MintResult(t, policy, user, units, fee, node, now).0, policy, user, fee);
      }
    }
  }

  lemma ChargeIsDue(t: Tables, policy: Policy, payer: string, fee: nat)
    ensures var (charged, charge) := TryCharge(t, policy, payer, fee);
            && charge == (if OwesFee(policy, payer) then Some(fee) else None)
            && (charge.None? ==> charged == Ok(t))
  {}

  lemma ClaimShape(t: Tables, batch: string, user: string, amount: int, now: int)
    ensures var r, k := AddPendingMint(t, batch, user, amount, now), BatchKey(batch);
            && (r.Err? <==> k in t.pending && t.pending[k].pubkey != user)
            && (r.Ok? ==> r.value == t.(pending := if k in t.pending then t.pending
                                                   else t.pending[k := PendingRow("", user, amount, now)]))
  {}

  method MintAsset(registry: Registry, policy: Policy, user: string, requested: U64, collectible: bool, fee: nat,
                   node: Option<string>, now: int)
    returns (reply: Reply)
    modifies registry
    ensures (registry.View(), reply) ==
            MintResult(old(registry.View()), policy, user, if collectible then 1 else requested, fee, node, now)
  {
    hide ChargeFee, RefundFee, AddPendingMint;
    if !collectible && requested == 0 {
      return Failure;
    }
    var amount: U64 := if collectible then 1 else requested;
    var ok, charge := MaybeChargeFee(registry, policy, user, fee);
    if !ok {
      return Failure;
    }
    if node.None? {
      if charge.Some? {
        registry.RefundOperatorFee(user, policy.operator.value, charge.value);
      }
      return Failure;
    }
    var claimed := registry.AddMintClaim(node.value, user, AsI64(amount), now);
    return if claimed then Success else Failure;
  }

  /** A ledger move between two users, refused to oneself and for nothing. */
  method TransferUnits(registry: Registry, asset: string, from: string, to_: string, amount: nat) returns (reply: Reply)
    modifies registry
    ensures reply == Success <==> amount > 0 && to_ != from && amount <= Bal(old(registry.View()), asset, from)
    ensures reply == Failure ==> registry.View() == old(registry.View())
    ensures reply == Success ==>
              && (forall a, u :: Bal(registry.View(), a, u) == Bal(old(registry.View()), a, u)
                    - (if a == asset && u == from then amount else 0) + (if a == asset && u == to_ then amount else 0))
              && registry.sats == old(registry.sats) && registry.inFlight == old(registry.inFlight)
              && registry.events == old(registry.events) + [LedgerEvent(from, asset, TransferOut, amount, Some(to_), None)]
                                                         + [LedgerEvent(to_, asset, TransferIn, amount, Some(from), None)]
  {
    if amount == 0 || to_ == from {
      return Failure;
    }
    ghost var before := registry.View();
    var ok := registry.TransferBetween(asset, from, to_, amount);
    TransferShape(before, asset, from, to_, amount);
    DebitMoves(before, asset, from, amount, asset, from);
    if ok {
      forall a, u
        ensures Bal(registry.View(), a, u) == Bal(before, a, u)
          - (if a == asset && u == from then amount else 0) + (if a == asset && u == to_ then amount else 0)
      {
        TransferMoves(before, asset, from, to_, amount, a, u);
      }
    }
    reply := if ok then Success else Failure;
  }
}
