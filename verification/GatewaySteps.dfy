/** Each action of the gateway, one by one: it keeps the account, goes only forward,
    leaves its program where it should be and keeps refundable fees covered. */
module GatewaySteps {
  import opened Numbers
  import opened MapSum
  import opened Ledger
  import opened LedgerLaws
  import opened GatewayCore
  import opened GatewayCoreLaws
  import opened Gateway
  import opened GatewayLaws

  ghost predicate GoodStep(s: State, a: Action)
    requires Enabled(s, a)
  {
    Good(s, CoreAfter(s, a), MoveAfter(s, a))
  }

  // ---- What a program's counter tells --------------------------------------------------

  lemma Known(s: State, pid: nat)
    requires GatewayInv(s) && pid in s.procs
    ensures pid < s.nextPid && pid in s.jobs
    ensures ProcOk(s.core.payments, s.core.claims, s.policy, s.jobs[pid], pid, s.procs[pid])
    ensures 0 <= ChargeOf(s.procs, pid) <= Refundable(s.procs)
  {
    RefundableBounds(s.procs, pid);
  }

  function PendingCharge(p: Proc): Option<nat> {
    match p
    case CallDue(_, charge) => charge
    case Calling(_, charge) => charge
    case Refused(_, charge) => charge
    case Accepted(_, charge) => charge
    case _ => None
  }

  predicate Reserves(p: Proc) {
    p.FeeDue? || p.FeeRefused? || p.CallDue? || p.Calling? || p.Refused?
  }

  lemma KnownReserving(s: State, pid: nat)
    requires GatewayInv(s) && pid in s.procs && Reserves(s.procs[pid])
    ensures pid < s.nextPid && pid in s.jobs
    ensures var p := s.procs[pid];
            && Reserving(s.core.payments, s.policy, s.jobs[pid], pid, p.d, PendingCharge(p))
            && (p.Calling? || p.Refused? <==> s.core.payments[p.d].fate != Unsent)
            && (p.FeeDue? || p.FeeRefused? ==> s.jobs[pid].request == SendRequest)
            && ChargeOf(s.procs, pid) == Charged(PendingCharge(p))
  {
    hide OwnersOk, RepliesOk, Covered, CoreInv, ProcsOk;
    Known(s, pid);
    hide GatewayInv;
  }

  lemma KnownAccepted(s: State, pid: nat)
    requires GatewayInv(s) && pid in s.procs && s.procs[pid].Accepted?
    ensures pid < s.nextPid && pid in s.jobs && ChargeOf(s.procs, pid) == 0
    ensures Reserving(s.core.payments, s.policy, s.jobs[pid], pid, s.procs[pid].d, s.procs[pid].charge)
  {
    hide OwnersOk, RepliesOk, Covered, CoreInv, ProcsOk;
    Known(s, pid);
    hide GatewayInv;
  }

  lemma FeeBackOk(ps: map<DebitId, Payment>, cs: map<Key, Claim>, policy: Policy, job: Job, pid: nat, f: nat)
    requires MayCharge(policy, job, Some(f)) && var n: int := f; NetIs(job, 0, -n)
    ensures ProcOk(ps, cs, policy, job, pid, FeeBack(f))
  {}

  // ---- Starting a request -----------------------------------------------------------

  lemma MarkedClient(t: Tables, row: InFlightRow)
    requires DebitAndMark(t, row).Ok?
    ensures var after := DebitAndMark(t, row).value.0;
            Bal(after, row.asset, row.pubkey) == Bal(t, row.asset, row.pubkey) - row.amount && after.sats == t.sats
  {}

  lemma StartSendGood(s: State, row: InFlightRow, fee: nat)
    requires GatewayInv(s) && Enabled(s, StartSend(row, fee))
    ensures GoodStep(s, StartSend(row, fee))
  {
    hide CoreInv, ProcsOk, RepliesOk, Covered, PaymentsEvolve, ClaimsEvolve;
    MarkRowKeeps(s.core, row, s.nextPid, Some(s.nextPid));
    MarkedClient(s.core.t, row);
  }

  lemma StartPayGood(s: State, row: InFlightRow)
    requires GatewayInv(s) && Enabled(s, StartPay(row))
    ensures GoodStep(s, StartPay(row))
  {
    hide CoreInv, ProcsOk, RepliesOk, Covered, PaymentsEvolve, ClaimsEvolve;
    MarkRowKeeps(s.core, row, s.nextPid, Some(s.nextPid));
    MarkedClient(s.core.t, row);
  }

  lemma StartBurnGood(s: State, row: InFlightRow)
    requires GatewayInv(s) && Enabled(s, StartBurn(row))
    ensures GoodStep(s, StartBurn(row))
  {
    hide CoreInv, ProcsOk, RepliesOk, Covered, PaymentsEvolve, ClaimsEvolve;
    OpenBurnKeeps(s.core, s.nextPid, row, Some(s.nextPid));
  }

  lemma StartMintGood(s: State, user: string, units: U64, fee: nat)
    requires GatewayInv(s) && Enabled(s, StartMint(user, units, fee))
    ensures GoodStep(s, StartMint(user, units, fee))
  {
    NoneEvolve(s.core, Some(s.nextPid));
    hide CoreInv, ProcsOk, RepliesOk, Covered, PaymentsEvolve, ClaimsEvolve;
  }

  lemma MoveUnitsGood(s: State, asset: string, from: string, to_: string, amount: nat)
    requires GatewayInv(s) && Enabled(s, MoveUnits(asset, from, to_, amount))
    ensures GoodStep(s, MoveUnits(asset, from, to_, amount))
  {
    hide CoreInv, ProcsOk, RepliesOk, Covered, PaymentsEvolve, ClaimsEvolve, Transfer;
    TransferKeeps(s.core, asset, from, to_, amount, None);
  }

  // ---- Fees ---------------------------------------------------------------------------

  /** A charge that is taken moves the fee from client to operator; one that is not leaves
      the tables alone. */
  lemma ChargeClient(s: State, payer: string, fee: nat, asset: string)
    ensures var (charged, charge) := TryCharge(s.core.t, s.policy, payer, fee);
            && (charge.Some? <==> s.policy.charging && s.policy.operator.Some? && payer != s.policy.operator.value)
            && (charge.Some? ==> charge.value == fee)
            && (charged.Err? ==> charge.Some?)
            && (charged.Ok? ==> Bal(charged.value, asset, payer) == Bal(s.core.t, asset, payer)
                                && SatsOf(charged.value, payer) == SatsOf(s.core.t, payer) - Charged(charge)
                                && OperatorSats(s, charged.value) == OperatorSats(s, s.core.t) + Charged(charge))
  {
    var (charged, charge) := TryCharge(s.core.t, s.policy, payer, fee);
    if charge.Some? && charged.Ok? {
      ChargeConserves(s.core.t, payer, s.policy.operator.value, fee, asset, payer);
      ChargeConserves(s.core.t, payer, s.policy.operator.value, fee, asset, s.policy.operator.value);
      hide ChargeFee, Unexplained, TotalSats;
    }
  }

  lemma ChargeForward(s: State, payer: string, fee: nat, actor: Option<nat>)
    requires CoreInv(s.core)
    ensures var charged := TryCharge(s.core.t, s.policy, payer, fee).0;
            charged.Ok? ==> Forward(s.core, WithTables(s.core, charged.value), actor)
    ensures Forward(s.core, s.core, actor)
  {
    NoneEvolve(s.core, actor);
    var (charged, charge) := TryCharge(s.core.t, s.policy, payer, fee);
    if charge.Some? && charged.Ok? {
      ChargeKeeps(s.core, payer, s.policy.operator.value, fee, actor);
    }
    assert WithTables(s.core, s.core.t) == s.core;
    hide CoreInv, ChargeFee, PaymentsEvolve, ClaimsEvolve;
  }

  /** A send that was charged goes on to call the node; one that was not gives up. */
  lemma ChargeSendGood(s: State, pid: nat)
    requires GatewayInv(s) && Enabled(s, ChargeStep(pid)) && s.procs[pid].FeeDue?
    ensures GoodStep(s, ChargeStep(pid))
  {
    hide CoreInv, ProcsOk, RepliesOk, Covered, PaymentsEvolve, ClaimsEvolve, TryCharge, Bal, SatsOf, ProcOk, MadeDebit;
    KnownReserving(s, pid);
    var d, fee, job := s.procs[pid].d, s.procs[pid].fee, s.jobs[pid];
    ChargeClient(s, job.user, fee, job.asset);
    ChargeForward(s, job.user, fee, Some(pid));
    var (charged, charge) := TryCharge(s.core.t, s.policy, job.user, fee);
    var c := if charged.Ok? then WithTables(s.core, charged.value) else s.core;
    hide Enabled;
    ReservedOk(c.payments, c.claims, s.policy, job, Tally(s.core.t, c.t, job), pid, d, if charged.Ok? then charge else None);
  }

  /** An unsent reservation, charged or not, is where a call or a refusal starts. */
  lemma ReservedOk(ps: map<DebitId, Payment>, cs: map<Key, Claim>, policy: Policy, job: Job, after: Job, pid: nat,
                   d: DebitId, charge: Option<nat>)
    requires Reserving(ps, policy, job, pid, d, None) && ps[d].fate == Unsent && job.request == SendRequest
    requires after == job.(sats := job.sats - Charged(charge))
    requires charge.Some? ==> policy.charging && policy.operator.Some? && policy.operator.value != job.user
    ensures ProcOk(ps, cs, policy, after, pid, CallDue(d, charge))
    ensures charge.None? ==> ProcOk(ps, cs, policy, after, pid, FeeRefused(d))
  {}

  lemma KnownMintFee(s: State, pid: nat)
    requires GatewayInv(s) && pid in s.procs && s.procs[pid].MintFeeDue?
    ensures pid < s.nextPid && pid in s.jobs && s.jobs[pid].request == MintRequest && NetIs(s.jobs[pid], 0, 0)
    ensures ChargeOf(s.procs, pid) == 0
  {
    hide OwnersOk, RepliesOk, Covered, CoreInv, ProcsOk;
    Known(s, pid);
    hide GatewayInv;
  }

  lemma ChargeMintGood(s: State, pid: nat)
    requires GatewayInv(s) && Enabled(s, ChargeStep(pid)) && s.procs[pid].MintFeeDue?
    ensures GoodStep(s, ChargeStep(pid))
  {
    hide CoreInv, ProcsOk, RepliesOk, Covered, PaymentsEvolve, ClaimsEvolve, TryCharge, Bal, SatsOf, ProcOk, MadeDebit;
    KnownMintFee(s, pid);
    var fee, job := s.procs[pid].fee, s.jobs[pid];
    ChargeClient(s, job.user, fee, job.asset);
    ChargeForward(s, job.user, fee, Some(pid));
    var (charged, charge) := TryCharge(s.core.t, s.policy, job.user, fee);
    var c := if charged.Ok? then WithTables(s.core, charged.value) else s.core;
    hide Enabled;
    if charged.Ok? {
      MintChargedOk(c.payments, c.claims, s.policy, job, Tally(s.core.t, c.t, job), pid, s.procs[pid].units, charge);
    }
  }

  lemma MintChargedOk(ps: map<DebitId, Payment>, cs: map<Key, Claim>, policy: Policy, job: Job, after: Job, pid: nat,
                      units: U64, charge: Option<nat>)
    requires job.request == MintRequest && NetIs(job, 0, 0)
    requires after == job.(sats := job.sats - Charged(charge))
    requires charge.Some? ==> policy.charging && policy.operator.Some? && policy.operator.value != job.user
    ensures ProcOk(ps, cs, policy, after, pid, MintDue(units, charge))
  {}

  /** The refund is exact: the operator still has what it must give back. */
  lemma FeeIsThere(s: State, pid: nat)
    requires GatewayInv(s) && Enabled(s, ReturnCharge(pid))
    ensures s.procs[pid].amount <= SatsOf(s.core.t, s.policy.operator.value)
    ensures s.jobs[pid].user != s.policy.operator.value
    ensures var f: int := s.procs[pid].amount; NetIs(s.jobs[pid], 0, -f)
  {
    hide OwnersOk, RepliesOk, CoreInv, ProcsOk, SatsOf;
    Known(s, pid);
  }

  lemma ReturnChargeGood(s: State, pid: nat)
    requires GatewayInv(s) && Enabled(s, ReturnCharge(pid))
    ensures GoodStep(s, ReturnCharge(pid))
  {
    hide CoreInv, ProcsOk, RepliesOk, Covered, PaymentsEvolve, ClaimsEvolve, RefundFee, Unexplained, Bal, SatsOf, ProcOk, Liability;
    FeeIsThere(s, pid);
    var f, job, op := s.procs[pid].amount, s.jobs[pid], s.policy.operator.value;
    ReturnFeeKeeps(s.core, job.user, op, f, Some(pid));
    RefundFeeMoves(s.core.t, job.user, op, f, job.asset, job.user);
    RefundFeeMoves(s.core.t, job.user, op, f, job.asset, op);
    SameBalances(s.core.t, RefundFee(s.core.t, job.user, op, f), job.asset, job.user);
    hide Enabled;
  }

  lemma SameBalances(t: Tables, after: Tables, a: string, u: string)
    requires after.balances == t.balances
    ensures Bal(after, a, u) == Bal(t, a, u)
  {}

  // ---- Calling the node ------------------------------------------------------------------

  /** The node's memory of a hash is no part of the account. */
  lemma HashesKeep(c: Core, d: Core, hashes: map<string, HashStatus>, actor: Option<nat>)
    requires Forward(c, d, actor)
    ensures Forward(c, d.(hashes := hashes), actor)
  {
    var e := d.(hashes := hashes);
    hide RowsOk, ClaimsOk, CreditsOk, PaymentsEvolve, ClaimsEvolve, Balanced, SameGaps;
    forall a: string, u: string
      ensures SameGaps(d, e, a, u)
    {
      HashesGaps(d, hashes, a, u);
    }
    StayBalanced(d, e);
  }

  lemma HashesGaps(c: Core, hashes: map<string, HashStatus>, a: string, u: string)
    ensures SameGaps(c, c.(hashes := hashes), a, u)
  {
    hide Sum, HoldingsOf, Weights, BurnsOpen, ClaimWeights, DepositsOf, RowAmounts, HistorySum;
  }

  lemma CallNodeGood(s: State, pid: nat)
    requires GatewayInv(s) && Enabled(s, CallNode(pid))
    ensures GoodStep(s, CallNode(pid))
  {
    hide CoreInv, ProcsOk, RepliesOk, Covered, PaymentsEvolve, ClaimsEvolve, Bal, SatsOf, ProcOk;
    KnownReserving(s, pid);
    var d, charge, job := s.procs[pid].d, s.procs[pid].charge, s.jobs[pid];
    var c := CoreAfter(s, CallNode(pid));
    var busy := BusyHash(s.core, s.core.payments[d].row);
    if busy {
      SetFateKeeps(s.core, d, Dropped, Some(pid));
    } else {
      SetFateKeeps(s.core, d, Sent, Some(pid));
      HashesKeep(s.core, SetFate(s.core, d, Sent), c.hashes, Some(pid));
    }
    hide BusyHash, Enabled, CoreInv;
    CalledOk(s.core.payments, c.claims, s.policy, job, pid, d, charge, if busy then Dropped else Sent);
  }

  lemma CalledOk(ps: map<DebitId, Payment>, cs: map<Key, Claim>, policy: Policy, job: Job, pid: nat, d: DebitId,
                 charge: Option<nat>, fate: Fate)
    requires Reserving(ps, policy, job, pid, d, charge) && fate != Unsent
    ensures ProcOk(ps[d := ps[d].(fate := fate)], cs, policy, job, pid, Calling(d, charge))
  {}

  lemma NodePaysGood(s: State, d: DebitId)
    requires GatewayInv(s) && Enabled(s, NodePays(d))
    ensures GoodStep(s, NodePays(d))
  {
    hide CoreInv, ProcsOk, RepliesOk, Covered, PaymentsEvolve, ClaimsEvolve;
    PayOutKeeps(s.core, d, None);
    HashesKeep(s.core, PayOut(s.core, d), CoreAfter(s, NodePays(d)).hashes, None);
  }

  lemma NodeDropsGood(s: State, d: DebitId)
    requires GatewayInv(s) && Enabled(s, NodeDrops(d))
    ensures GoodStep(s, NodeDrops(d))
  {
    hide CoreInv, ProcsOk, RepliesOk, Covered, PaymentsEvolve, ClaimsEvolve;
    var c := MarkHash(SetFate(s.core, d, Dropped), s.core.payments[d].row, Failed);
    assert CoreAfter(s, NodeDrops(d)) == c;
    SetFateKeeps(s.core, d, Dropped, None);
    HashesKeep(s.core, SetFate(s.core, d, Dropped), c.hashes, None);
    hide Enabled, CoreAfter, Bal, SatsOf, CoreInv;
  }

  lemma NodeAnswersGood(s: State, pid: nat, ok: bool)
    requires GatewayInv(s) && Enabled(s, NodeAnswers(pid, ok))
    ensures GoodStep(s, NodeAnswers(pid, ok))
  {
    NoneEvolve(s.core, Some(pid));
    hide CoreInv, ProcsOk, RepliesOk, Covered, PaymentsEvolve, ClaimsEvolve, Bal, SatsOf;
    KnownReserving(s, pid);
    hide MadeDebit;
  }

  // ---- Closing a debit -----------------------------------------------------------------------

  /** Refunding the client's own open reservation gives exactly the amount back. */
  lemma RefundedClient(c: Core, id: nat)
    requires RowsOk(c.payments, c.t.inFlight, c.t.nextId) && Row(id) in c.payments
    ensures var row, after := c.payments[Row(id)].row, RefundRow(c, id).t;
            && Bal(after, row.asset, row.pubkey) == Bal(c.t, row.asset, row.pubkey) +
               (if c.payments[Row(id)].closing == Open then row.amount else 0)
            && after.sats == c.t.sats
    ensures c.payments[Row(id)].closing != Open ==> RefundRow(c, id) == c
  {}

  lemma UnreserveGood(s: State, pid: nat)
    requires GatewayInv(s) && Enabled(s, Unreserve(pid))
    ensures GoodStep(s, Unreserve(pid))
  {
    hide ProcsOk, RepliesOk, Covered, PaymentsEvolve, ClaimsEvolve, ProcOk, RowsOk, ClaimsOk, CreditsOk, Balanced;
    hide Bal, SatsOf, Tally, RefundRow;
    KnownReserving(s, pid);
    var id, job := s.procs[pid].d.id, s.jobs[pid];
    var c := RefundRow(s.core, id);
    RefundTally(s.core, s.policy, job, pid, id, None);
    RefundRowKeeps(s.core, id, Some(pid));
    RefundOwners(s.core, id, s.nextPid);
    SameSats(s.core.t, c.t);
    assert CoreAfter(s, Unreserve(pid)) == c;
    hide Enabled, OwnersOk, CoreAfter, CoreInv, MadeDebit;
  }

  lemma RefundOwners(c: Core, id: nat, n: nat)
    requires OwnersOk(c, n)
    ensures OwnersOk(RefundRow(c, id), n)
  {
    hide Refund;
  }

  lemma SettleOwners(c: Core, id: nat, reference: Option<string>, n: nat)
    requires OwnersOk(c, n)
    ensures OwnersOk(SettleRow(c, id, reference), n)
  {
    hide Settle;
  }

  /** After the refund the client is short of nothing but the charge. */
  lemma RefundTally(c: Core, policy: Policy, job: Job, pid: nat, id: nat, charge: Option<nat>)
    requires RowsOk(c.payments, c.t.inFlight, c.t.nextId) && Reserving(c.payments, policy, job, pid, Row(id), charge)
    ensures var after, f: int := Tally(c.t, RefundRow(c, id).t, job), Charged(charge);
            && after.sats == -f && (job.request != PayRequest ==> after.units == 0)
            && after.user == job.user && after.request == job.request
    ensures RefundRow(c, id).t.sats == c.t.sats
  {
    RefundedClient(c, id);
    SameSats(c.t, RefundRow(c, id).t);
    hide RowsOk, RefundRow, Bal, SatsOf;
  }

  lemma RefusedRowGood(s: State, pid: nat, txid: string)
    requires GatewayInv(s) && Enabled(s, CloseDebit(pid, txid)) && s.procs[pid].Refused? && s.procs[pid].d.Row?
    ensures GoodStep(s, CloseDebit(pid, txid))
  {
    hide ProcsOk, RepliesOk, Covered, PaymentsEvolve, ClaimsEvolve, ProcOk, RowsOk, ClaimsOk, CreditsOk, Balanced;
    hide Bal, SatsOf, Tally, RefundRow, SettleRow, RefundBurn, RecordBurn;
    KnownReserving(s, pid);
    var id, charge, job := s.procs[pid].d.id, s.procs[pid].charge, s.jobs[pid];
    var c := RefundRow(s.core, id);
    RefundTally(s.core, s.policy, job, pid, id, charge);
    RefundRowKeeps(s.core, id, Some(pid));
    RefundOwners(s.core, id, s.nextPid);
    SameSats(s.core.t, c.t);
    assert CoreAfter(s, CloseDebit(pid, txid)) == c;
    hide Enabled, OwnersOk, CoreAfter, CoreInv, MadeDebit;
    if charge.Some? {
      FeeBackOk(c.payments, c.claims, s.policy, Tally(s.core.t, c.t, job), pid, charge.value);
    }
  }

  lemma RefundedBurn(c: Core, d: DebitId)
    requires d in c.payments
    ensures var row, after := c.payments[d].row, RefundBurn(c, d).t;
            Bal(after, row.asset, row.pubkey) == Bal(c.t, row.asset, row.pubkey) + row.amount && after.sats == c.t.sats
  {}

  lemma RefusedBurnGood(s: State, pid: nat, txid: string)
    requires GatewayInv(s) && Enabled(s, CloseDebit(pid, txid)) && s.procs[pid].Refused? && s.procs[pid].d.BurnOf?
    ensures GoodStep(s, CloseDebit(pid, txid))
  {
    hide CoreInv, ProcsOk, RepliesOk, Covered, PaymentsEvolve, ClaimsEvolve, Bal, SatsOf, ProcOk;
    KnownReserving(s, pid);
    var d, charge, job := s.procs[pid].d, s.procs[pid].charge, s.jobs[pid];
    var c := RefundBurn(s.core, d);
    RefundBurnKeeps(s.core, d, Some(pid));
    RefundedBurn(s.core, d);
    SameSats(s.core.t, c.t);
    hide Enabled;
    if charge.Some? {
      FeeBackOk(c.payments, c.claims, s.policy, Tally(s.core.t, c.t, job), pid, charge.value);
    }
  }

  lemma CloseAcceptedGood(s: State, pid: nat, txid: string)
    requires GatewayInv(s) && Enabled(s, CloseDebit(pid, txid)) && s.procs[pid].Accepted?
    ensures GoodStep(s, CloseDebit(pid, txid))
  {
    hide CoreInv, ProcsOk, RepliesOk, Covered, PaymentsEvolve, ClaimsEvolve, Bal, SatsOf, ProcOk;
    KnownAccepted(s, pid);
    var d := s.procs[pid].d;
    if d.Row? {
      var reference := if s.core.payments[d].row.kind == Send then Some(txid) else None;
      SettleRowKeeps(s.core, d.id, reference, Some(pid));
      SettleOwners(s.core, d.id, reference, s.nextPid);
      SameSats(s.core.t, SettleRow(s.core, d.id, reference).t);
      hide SettleRow, RefundRow, OwnersOk;
    } else {
      RecordBurnKeeps(s.core, d, txid, Some(pid));
      SameSats(s.core.t, RecordBurn(s.core, d, txid).t);
    }
    hide Enabled;
  }

  // ---- Keys issued by the node -------------------------------------------------------------

  lemma KnownMint(s: State, pid: nat)
    requires GatewayInv(s) && pid in s.procs && s.procs[pid].MintDue?
    ensures pid < s.nextPid && pid in s.jobs && s.jobs[pid].request == MintRequest
    ensures var charge := s.procs[pid].charge;
            && MayCharge(s.policy, s.jobs[pid], charge)
            && (var f: int := Charged(charge); NetIs(s.jobs[pid], 0, -f))
            && ChargeOf(s.procs, pid) == Charged(charge)
  {
    hide OwnersOk, RepliesOk, Covered, CoreInv, ProcsOk;
    Known(s, pid);
    hide GatewayInv;
  }

  lemma NodeMintsGood(s: State, pid: nat, key: Key, asset: string)
    requires GatewayInv(s) && Enabled(s, NodeMints(pid, key, asset))
    ensures GoodStep(s, NodeMints(pid, key, asset))
  {
    hide CoreInv, ProcsOk, RepliesOk, Covered, PaymentsEvolve, ClaimsEvolve, Bal, SatsOf, ProcOk, MayCharge;
    KnownMint(s, pid);
    var cl := Claim(s.jobs[pid].user, asset, s.procs[pid].units, pid, false, false, Issued);
    IssueKeeps(s.core, key, cl, Some(pid));
    var c := PutClaim(s.core, key, cl);
    hide Enabled;
    KeyIssuedOk(c.payments, c.claims, s.policy, Tally(s.core.t, c.t, s.jobs[pid]), pid, key, s.procs[pid].charge);
  }

  lemma KeyIssuedOk(ps: map<DebitId, Payment>, cs: map<Key, Claim>, policy: Policy, job: Job, pid: nat, k: Key, charge: Option<nat>)
    requires k in cs && cs[k].owner == pid && cs[k].stage == Issued
    requires job.request == MintRequest && var f: int := Charged(charge); NetIs(job, 0, -f)
    ensures ProcOk(ps, cs, policy, job, pid, KeyIssued(k, charge))
  {}

  lemma MintFailsGood(s: State, pid: nat)
    requires GatewayInv(s) && Enabled(s, MintFails(pid))
    ensures GoodStep(s, MintFails(pid))
  {
    NoneEvolve(s.core, Some(pid));
    hide CoreInv, ProcsOk, RepliesOk, Covered, PaymentsEvolve, ClaimsEvolve, Bal, SatsOf, ProcOk;
    KnownMint(s, pid);
    hide Enabled;
    if s.procs[pid].charge.Some? {
      FeeBackOk(s.core.payments, s.core.claims, s.policy, s.jobs[pid], pid, s.procs[pid].charge.value);
    }
  }

  lemma IssueKeyGood(s: State, key: Key, asset: string, user: string, units: U64)
    requires GatewayInv(s) && Enabled(s, IssueKey(key, asset, user, units))
    ensures GoodStep(s, IssueKey(key, asset, user, units))
  {
    hide CoreInv, ProcsOk, RepliesOk, Covered, PaymentsEvolve, ClaimsEvolve;
    IssueKeeps(s.core, key, Claim(user, asset, units, s.nextPid, false, false, Issued), Some(s.nextPid));
  }

  lemma KnownKey(s: State, pid: nat)
    requires GatewayInv(s) && pid in s.procs && s.procs[pid].KeyIssued?
    ensures pid < s.nextPid && pid in s.jobs && ChargeOf(s.procs, pid) == 0
    ensures var k := s.procs[pid].key;
            k in s.core.claims && s.core.claims[k].owner == pid && s.core.claims[k].stage == Issued
  {
    hide OwnersOk, RepliesOk, Covered, CoreInv, ProcsOk;
    Known(s, pid);
    hide GatewayInv;
  }

  lemma StoreKeyGood(s: State, pid: nat, now: int)
    requires GatewayInv(s) && Enabled(s, StoreKey(pid, now))
    ensures GoodStep(s, StoreKey(pid, now))
  {
    hide CoreInv, ProcsOk, RepliesOk, Covered, PaymentsEvolve, ClaimsEvolve, Bal, SatsOf, ProcOk, StoreRow;
    KnownKey(s, pid);
    var k := s.procs[pid].key;
    AwaitKeeps(s.core, k, now, Some(pid));
    SameSats(s.core.t, Await(s.core, k, now).t);
    hide Enabled, WaitingRow;
  }

  lemma NodeConfirmsGood(s: State, key: Key)
    requires GatewayInv(s) && Enabled(s, NodeConfirms(key))
    ensures GoodStep(s, NodeConfirms(key))
  {
    hide CoreInv, ProcsOk, RepliesOk, Covered, PaymentsEvolve, ClaimsEvolve;
    ArriveKeeps(s.core, key, None);
  }

  lemma NodeCancelsGood(s: State, key: Key)
    requires GatewayInv(s) && Enabled(s, NodeCancels(key))
    ensures GoodStep(s, NodeCancels(key))
  {
    hide CoreInv, ProcsOk, RepliesOk, Covered, PaymentsEvolve, ClaimsEvolve;
    CancelKeeps(s.core, key, None);
  }

  // ---- Reconciliation and recovery ------------------------------------------------------------

  lemma StartReconcileGood(s: State, keys: seq<Key>)
    requires GatewayInv(s) && Enabled(s, StartReconcile(keys))
    ensures GoodStep(s, StartReconcile(keys))
  {
    hide CoreInv, ProcsOk, RepliesOk, Covered, PaymentsEvolve, ClaimsEvolve, Bal, SatsOf;
    NoneEvolve(s.core, Some(s.nextPid));
    PendingIsClaimed(s, keys);
  }

  lemma PendingIsClaimed(s: State, keys: seq<Key>)
    requires GatewayInv(s) && Enabled(s, StartReconcile(keys))
    ensures forall i :: 0 <= i < |keys| ==> keys[i] in s.core.claims
  {
    assert forall k :: k in s.core.t.pending ==> k in s.core.claims;
    hide CoreInv, ProcsOk, RepliesOk, Covered;
  }

  lemma KnownLoop(s: State, pid: nat)
    requires GatewayInv(s) && pid in s.procs
    requires s.procs[pid].Reconciling? || s.procs[pid].Answered? || s.procs[pid].Recovering? || s.procs[pid].Tracked?
    ensures pid < s.nextPid && pid in s.jobs && ChargeOf(s.procs, pid) == 0
    ensures s.procs[pid].Reconciling? || s.procs[pid].Answered? ==>
              forall i :: 0 <= i < |s.procs[pid].keys| ==> s.procs[pid].keys[i] in s.core.claims
    ensures s.procs[pid].Answered? ==>
              var k := s.procs[pid].key;
              k in s.core.claims && (s.procs[pid].verdict.IsSettled? ==> s.core.claims[k].arrived)
    ensures s.procs[pid].Recovering? || s.procs[pid].Tracked? ==>
              forall i :: 0 <= i < |s.procs[pid].rows| ==> KnownRow(s.core.payments, s.procs[pid].rows[i])
    ensures s.procs[pid].Tracked? ==>
              var id := s.procs[pid].id;
              Row(id) in s.core.payments && (s.procs[pid].outcome.Some? ==> s.core.payments[Row(id)].row.kind == LnSend)
  {
    hide OwnersOk, RepliesOk, Covered, CoreInv, ProcsOk;
    Known(s, pid);
    hide GatewayInv, KnownRow;
  }

  lemma AskNodeGood(s: State, pid: nat, verdict: Verdict)
    requires GatewayInv(s) && Enabled(s, AskNode(pid, verdict))
    ensures GoodStep(s, AskNode(pid, verdict))
  {
    NoneEvolve(s.core, Some(pid));
    hide CoreInv, ProcsOk, RepliesOk, Covered, PaymentsEvolve, ClaimsEvolve, Bal, SatsOf, ProcOk;
    KnownLoop(s, pid);
    var keys, job := s.procs[pid].keys, s.jobs[pid];
    AnsweredOk(s.core.payments, s.core.claims, s.policy, Tally(s.core.t, s.core.t, job), pid, keys, verdict);
    hide Enabled;
  }

  lemma AnsweredOk(ps: map<DebitId, Payment>, cs: map<Key, Claim>, policy: Policy, job: Job, pid: nat, keys: seq<Key>,
                   verdict: Verdict)
    requires keys != [] && forall i :: 0 <= i < |keys| ==> keys[i] in cs
    requires verdict.IsSettled? ==> cs[keys[0]].arrived
    ensures ProcOk(ps, cs, policy, job, pid, Answered(keys[0], verdict, keys[1..]))
  {}

  /** Paying a key takes sats from nobody. */
  lemma PayClaimSats(c: Core, k: Key, u: string)
    ensures SatsOf(PayClaim(c, k).t, u) >= SatsOf(c.t, u)
  {
    if k in c.t.pending && k in c.claims {
      ResolveConserves(c.t, k, c.claims[k].asset, "", u);
      hide Resolve, SatsOf, Unexplained, Liability, TotalSats;
    }
  }

  /** The answer of the node, applied to whatever the tables have become meanwhile. */
  function Answer(c: Core, k: Key, verdict: Verdict): Core {
    match verdict
    case IsSettled => PayClaim(c, k)
    case IsCanceled => DropClaim(c, k)
    case Undecided => c
  }

  lemma AnswerKeeps(c: Core, k: Key, verdict: Verdict, n: nat, actor: Option<nat>)
    requires CoreInv(c) && OwnersOk(c, n) && k in c.claims && (verdict.IsSettled? ==> c.claims[k].arrived)
    ensures Forward(c, Answer(c, k, verdict), actor)
    ensures OwnersOk(Answer(c, k, verdict), n)
    ensures forall j :: j in c.claims ==> j in Answer(c, k, verdict).claims
    ensures forall u :: SatsOf(Answer(c, k, verdict).t, u) >= SatsOf(c.t, u)
  {
    NoneEvolve(c, actor);
    hide CoreInv, PaymentsEvolve, ClaimsEvolve, Resolve, SatsOf;
    match verdict
    case IsSettled =>
      PayClaimKeeps(c, k, actor);
      forall u ensures SatsOf(PayClaim(c, k).t, u) >= SatsOf(c.t, u) { PayClaimSats(c, k, u); }
    case IsCanceled =>
      DropClaimKeeps(c, k, actor);
      SameSats(c.t, DropClaim(c, k).t);
    case Undecided =>
  }

  lemma ApplyAnswerGood(s: State, pid: nat)
    requires GatewayInv(s) && Enabled(s, ApplyAnswer(pid))
    ensures GoodStep(s, ApplyAnswer(pid))
  {
    hide CoreInv, ProcsOk, RepliesOk, Covered, PaymentsEvolve, ClaimsEvolve, Bal, SatsOf, ProcOk, PayClaim, DropClaim;
    KnownLoop(s, pid);
    var p, job := s.procs[pid], s.jobs[pid];
    AnswerKeeps(s.core, p.key, p.verdict, s.nextPid, Some(pid));
    var c := Answer(s.core, p.key, p.verdict);
    assert CoreAfter(s, ApplyAnswer(pid)) == c;
    hide Enabled, OwnersOk, CoreAfter, Answer;
    ReconcilingOk(c.payments, c.claims, s.policy, Tally(s.core.t, c.t, job), pid, p.keys);
  }

  lemma ReconcilingOk(ps: map<DebitId, Payment>, cs: map<Key, Claim>, policy: Policy, job: Job, pid: nat, keys: seq<Key>)
    requires forall i :: 0 <= i < |keys| ==> keys[i] in cs
    ensures ProcOk(ps, cs, policy, job, pid, Reconciling(keys))
  {}

  lemma SameSats(t: Tables, after: Tables)
    requires after.sats == t.sats
    ensures forall u :: SatsOf(after, u) == SatsOf(t, u)
  {}

  lemma PurgeInvoicesGood(s: State, cutoff: int)
    requires GatewayInv(s) && Enabled(s, PurgeInvoices(cutoff))
    ensures GoodStep(s, PurgeInvoices(cutoff))
  {
    hide CoreInv, ProcsOk, RepliesOk, Covered, PaymentsEvolve, ClaimsEvolve;
    PurgeClaimsKeeps(s.core, cutoff, None);
  }

  lemma StartRecoveryGood(s: State, rows: seq<TrackedRow>)
    requires GatewayInv(s) && Enabled(s, StartRecovery(rows))
    ensures GoodStep(s, StartRecovery(rows))
  {
    hide CoreInv, ProcsOk, RepliesOk, Covered, PaymentsEvolve, ClaimsEvolve, Bal, SatsOf, KnownRow;
    NoneEvolve(s.core, Some(s.nextPid));
    ListedIsKnown(s, rows);
  }

  lemma ListedIsKnown(s: State, rows: seq<TrackedRow>)
    requires GatewayInv(s) && Enabled(s, StartRecovery(rows))
    ensures forall i :: 0 <= i < |rows| ==> KnownRow(s.core.payments, rows[i])
  {
    assert forall id :: id in s.core.t.inFlight ==>
      Row(id) in s.core.payments && s.core.payments[Row(id)].row == s.core.t.inFlight[id];
    hide CoreInv, ProcsOk, RepliesOk, Covered;
  }

  lemma TrackPaymentGood(s: State, pid: nat, answer: Option<HashStatus>)
    requires GatewayInv(s) && Enabled(s, TrackPayment(pid, answer))
    ensures GoodStep(s, TrackPayment(pid, answer))
  {
    NoneEvolve(s.core, Some(pid));
    hide CoreInv, ProcsOk, RepliesOk, Covered, PaymentsEvolve, ClaimsEvolve, Bal, SatsOf, ProcOk, KnownRow;
    KnownLoop(s, pid);
    var rows, job := s.procs[pid].rows, s.jobs[pid];
    TrackedOk(s.core.payments, s.core.claims, s.policy, Tally(s.core.t, s.core.t, job), pid, rows, answer);
    hide Enabled;
  }

  lemma TrackedOk(ps: map<DebitId, Payment>, cs: map<Key, Claim>, policy: Policy, job: Job, pid: nat,
                  rows: seq<TrackedRow>, answer: Option<HashStatus>)
    requires rows != [] && forall i :: 0 <= i < |rows| ==> KnownRow(ps, rows[i])
    requires answer.Some? ==> rows[0].1.kind == LnSend
    ensures ProcOk(ps, cs, policy, job, pid, Tracked(rows[0].0, answer, rows[1..]))
  {
    assert KnownRow(ps, rows[0]);
  }

  /** What tracking told, applied to whatever the row has become meanwhile. */
  function Outcome(c: Core, id: nat, outcome: Option<HashStatus>): Core {
    if outcome == Some(Succeeded) then SettleRow(c, id, None)
    else if outcome == Some(Failed) then RefundRow(c, id)
    else c
  }

  lemma OutcomeKeeps(c: Core, id: nat, outcome: Option<HashStatus>, n: nat, actor: Option<nat>)
    requires CoreInv(c) && OwnersOk(c, n)
    requires Row(id) in c.payments && (outcome.Some? ==> c.payments[Row(id)].row.kind == LnSend)
    ensures var d := Outcome(c, id, outcome);
            Forward(c, d, actor) && OwnersOk(d, n) && d.t.sats == c.t.sats
    ensures forall row :: KnownRow(c.payments, row) ==> KnownRow(Outcome(c, id, outcome).payments, row)
  {
    NoneEvolve(c, actor);
    hide CoreInv, PaymentsEvolve, ClaimsEvolve;
    RefundOwners(c, id, n);
    if outcome == Some(Succeeded) {
      SettleRowKeeps(c, id, None, actor);
    } else if outcome == Some(Failed) {
      RefundRowKeeps(c, id, actor);
    }
    hide OwnersOk;
  }

  lemma ApplyTrackGood(s: State, pid: nat)
    requires GatewayInv(s) && Enabled(s, ApplyTrack(pid))
    ensures GoodStep(s, ApplyTrack(pid))
  {
    hide CoreInv, ProcsOk, RepliesOk, Covered, PaymentsEvolve, ClaimsEvolve, Bal, SatsOf, ProcOk, SettleRow, RefundRow, KnownRow;
    KnownLoop(s, pid);
    var p, job := s.procs[pid], s.jobs[pid];
    OutcomeKeeps(s.core, p.id, p.outcome, s.nextPid, Some(pid));
    var c := Outcome(s.core, p.id, p.outcome);
    assert CoreAfter(s, ApplyTrack(pid)) == c;
    SameSats(s.core.t, c.t);
    hide Enabled, OwnersOk, CoreAfter, Outcome;
    RecoveringOk(c.payments, c.claims, s.policy, Tally(s.core.t, c.t, job), pid, p.rows);
  }

  lemma RecoveringOk(ps: map<DebitId, Payment>, cs: map<Key, Claim>, policy: Policy, job: Job, pid: nat,
                     rows: seq<TrackedRow>)
    requires forall i :: 0 <= i < |rows| ==> KnownRow(ps, rows[i])
    ensures ProcOk(ps, cs, policy, job, pid, Recovering(rows))
  {}

  lemma EndLoopGood(s: State, pid: nat)
    requires GatewayInv(s) && Enabled(s, EndLoop(pid))
    ensures GoodStep(s, EndLoop(pid))
  {
    NoneEvolve(s.core, Some(pid));
    hide CoreInv, ProcsOk, RepliesOk, Covered, PaymentsEvolve, ClaimsEvolve;
  }

  // ---- The operator's own units; loss of programs ----------------------------------------------

  lemma OwnUnitsGood(s: State, a: Action)
    requires GatewayInv(s) && Enabled(s, a) && (a.FundNode? || a.SpendSurplus?)
    ensures GoodStep(s, a)
  {
    hide CoreInv, ProcsOk, RepliesOk, Covered, PaymentsEvolve, ClaimsEvolve;
    if a.FundNode? {
      OwnUnitsKeep(s.core, a.asset, Held(s.core, a.asset) + a.amount, Spare(s.core, a.asset) + a.amount, None);
    } else {
      OwnUnitsKeep(s.core, a.asset, Held(s.core, a.asset) - a.amount, Spare(s.core, a.asset) - a.amount, None);
    }
  }

  lemma LossGood(s: State, a: Action)
    requires GatewayInv(s) && Enabled(s, a) && (a.Vanish? || a.Crash?)
    ensures GoodStep(s, a)
  {
    NoneEvolve(s.core, None);
    hide CoreInv, ProcsOk, RepliesOk, Covered, PaymentsEvolve, ClaimsEvolve;
  }

  // ---- Every step --------------------------------------------------------------------------------

  lemma EveryStepIsGood(s: State, a: Action)
    requires GatewayInv(s) && Enabled(s, a)
    ensures GoodStep(s, a)
  {
    hide GatewayInv, GoodStep, Enabled;
    match a
    case MoveUnits(asset, from, to_, amount) => MoveUnitsGood(s, asset, from, to_, amount);
    case StartSend(row, fee) => StartSendGood(s, row, fee);
    case StartPay(row) => StartPayGood(s, row);
    case StartBurn(row) => StartBurnGood(s, row);
    case StartMint(user, units, fee) => StartMintGood(s, user, units, fee);
    case ChargeStep(pid) => ChargeGood(s, pid);
    case Unreserve(pid) => UnreserveGood(s, pid);
    case CallNode(pid) => CallNodeGood(s, pid);
    case NodePays(d) => NodePaysGood(s, d);
    case NodeDrops(d) => NodeDropsGood(s, d);
    case NodeAnswers(pid, ok) => NodeAnswersGood(s, pid, ok);
    case CloseDebit(pid, txid) => CloseGood(s, pid, txid);
    case ReturnCharge(pid) => ReturnChargeGood(s, pid);
    case NodeMints(pid, key, asset) => NodeMintsGood(s, pid, key, asset);
    case MintFails(pid) => MintFailsGood(s, pid);
    case IssueKey(key, asset, user, units) => IssueKeyGood(s, key, asset, user, units);
    case StoreKey(pid, now) => StoreKeyGood(s, pid, now);
    case NodeConfirms(key) => NodeConfirmsGood(s, key);
    case NodeCancels(key) => NodeCancelsGood(s, key);
    case StartReconcile(keys) => StartReconcileGood(s, keys);
    case AskNode(pid, verdict) => AskNodeGood(s, pid, verdict);
    case ApplyAnswer(pid) => ApplyAnswerGood(s, pid);
    case PurgeInvoices(cutoff) => PurgeInvoicesGood(s, cutoff);
    case StartRecovery(rows) => StartRecoveryGood(s, rows);
    case TrackPayment(pid, answer) => TrackPaymentGood(s, pid, answer);
    case ApplyTrack(pid) => ApplyTrackGood(s, pid);
    case EndLoop(pid) => EndLoopGood(s, pid);
    case FundNode(_, _) => OwnUnitsGood(s, a);
    case SpendSurplus(_, _) => OwnUnitsGood(s, a);
    case Vanish(_) => LossGood(s, a);
    case Crash => LossGood(s, a);
  }

  lemma CloseGood(s: State, pid: nat, txid: string)
    requires GatewayInv(s) && Enabled(s, CloseDebit(pid, txid))
    ensures GoodStep(s, CloseDebit(pid, txid))
  {
    if s.procs[pid].Accepted? {
      CloseAcceptedGood(s, pid, txid);
    } else if s.procs[pid].d.Row? {
      RefusedRowGood(s, pid, txid);
    } else {
      RefusedBurnGood(s, pid, txid);
    }
    hide GatewayInv, GoodStep;
  }

  lemma ChargeGood(s: State, pid: nat)
    requires GatewayInv(s) && Enabled(s, ChargeStep(pid))
    ensures GoodStep(s, ChargeStep(pid))
  {
    if s.procs[pid].FeeDue? {
      ChargeSendGood(s, pid);
    } else {
      ChargeMintGood(s, pid);
    }
    hide GatewayInv, GoodStep;
  }

  /** What recovery did for a client is no part of what a program knows. */
  lemma RestoreKeeps(s: State, debtor: Option<nat>, before: Tables)
    requires GatewayInv(s)
    ensures GatewayInv(s.(jobs := Restore(s.jobs, debtor, before, s.core.t)))
  {
    hide CoreInv, OwnersOk, Bal;
    var after := s.(jobs := Restore(s.jobs, debtor, before, s.core.t));
    forall pid | pid in s.procs
      ensures pid in after.jobs && ProcOk(s.core.payments, s.core.claims, s.policy, after.jobs[pid], pid, s.procs[pid])
    {
      SameButRestored(s.core.payments, s.core.claims, s.policy, s.jobs[pid], after.jobs[pid], pid, s.procs[pid]);
      hide ProcOk;
    }
    hide ProcOk;
  }

  lemma SameButRestored(ps: map<DebitId, Payment>, cs: map<Key, Claim>, policy: Policy, job: Job, after: Job, pid: nat, p: Proc)
    requires ProcOk(ps, cs, policy, job, pid, p) && after == job.(restored := after.restored)
    ensures ProcOk(ps, cs, policy, after, pid, p)
  {}

  /** One step of anything keeps the invariant. */
  lemma StepKeeps(s: State, a: Action)
    requires GatewayInv(s) && Enabled(s, a)
    ensures GatewayInv(Step(s, a))
  {
    EveryStepIsGood(s, a);
    hide GatewayInv, Good, Enabled, CoreAfter, MoveAfter, Apply, Restore, Debtor;
    GoodKeeps(s, CoreAfter(s, a), MoveAfter(s, a));
    var after := Apply(s, CoreAfter(s, a), MoveAfter(s, a));
    ApplyCore(s, CoreAfter(s, a), MoveAfter(s, a));
    RestoreKeeps(after, Debtor(s, a), s.core.t);
  }

  lemma {:induction false} RunKeeps(s: State, run: seq<Action>)
    requires GatewayInv(s) && CanRun(s, run)
    ensures GatewayInv(Run(s, run))
    decreases |run|
  {
    hide GatewayInv, Enabled, Step;
    if run != [] {
      StepKeeps(s, run[0]);
      RunKeeps(Step(s, run[0]), run[1..]);
    }
  }
}
