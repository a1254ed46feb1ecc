/** What each action does to payments, balances, programs and clients, stated once. */
module GatewayShapes {
  import opened Numbers
  import opened Ledger
  import opened LedgerLaws
  import opened GatewayCore
  import opened GatewayCoreLaws
  import opened Gateway
  import opened GatewayLaws
  import opened GatewaySteps

  // ---- The account ------------------------------------------------------------------

  lemma StepCore(s: State, a: Action)
    requires Enabled(s, a)
    ensures Step(s, a).core == CoreAfter(s, a)
  {
    hide Enabled, CoreAfter, MoveAfter, Tally;
  }

  lemma StepEvolves(s: State, a: Action)
    requires GatewayInv(s) && Enabled(s, a)
    ensures PaymentsEvolve(s.core.payments, Step(s, a).core.payments, Actor(s, MoveAfter(s, a)))
    ensures ClaimsEvolve(s.core.claims, Step(s, a).core.claims, Actor(s, MoveAfter(s, a)))
  {
    StepCore(s, a);
    EveryStepIsGood(s, a);
    hide CoreInv, ProcsOk, RepliesOk, Covered, OwnersOk, ActorOk, ChargeDelta, Step, PaymentsEvolve, ClaimsEvolve;
    hide Enabled, CoreAfter, MoveAfter, Actor;
  }

  // ---- Payments -----------------------------------------------------------------------

  predicate TouchesPayments(a: Action) {
    a.StartSend? || a.StartPay? || a.StartBurn? || a.Unreserve? || a.CallNode? || a.NodePays? || a.NodeDrops? ||
    a.CloseDebit? || a.ApplyTrack?
  }

  predicate OnKeys(a: Action) {
    a.NodeMints? || a.IssueKey? || a.StoreKey? || a.NodeConfirms? || a.NodeCancels? || a.ApplyAnswer? || a.PurgeInvoices?
  }

  predicate SamePayments(c: Core, d: Core) {
    d.payments == c.payments && d.hashes == c.hashes
  }

  predicate SameBalanceTable(c: Core, d: Core) {
    d.t.balances == c.t.balances
  }

  lemma WaitingKeeps(c: Core, k: Key, createdAt: int)
    requires k in c.claims
    ensures SamePayments(c, Await(c, k, createdAt)) && SameBalanceTable(c, Await(c, k, createdAt))
  {
    hide WaitingRow;
  }

  lemma ArrivalKeeps(c: Core, k: Key)
    requires k in c.claims
    ensures SamePayments(c, Arrive(c, k)) && SameBalanceTable(c, Arrive(c, k))
  {}

  lemma CreditingKeeps(c: Core, k: Key)
    ensures SamePayments(c, PayClaim(c, k)) && SamePayments(c, DropClaim(c, k))
  {
    hide Resolve, DropPending;
  }

  lemma PurgingKeeps(c: Core, cutoff: int)
    ensures SamePayments(c, PurgeClaims(c, cutoff)) && SameBalanceTable(c, PurgeClaims(c, cutoff))
  {
    hide Purged;
  }

  lemma KeysKeepTables(s: State, a: Action)
    requires Enabled(s, a) && OnKeys(a)
    ensures SamePayments(s.core, CoreAfter(s, a)) && (!a.ApplyAnswer? ==> SameBalanceTable(s.core, CoreAfter(s, a)))
  {
    if a.StoreKey? {
      WaitingKeeps(s.core, s.procs[a.pid].key, a.now);
      hide Await, SamePayments, SameBalanceTable;
    } else if a.NodeConfirms? {
      ArrivalKeeps(s.core, a.key);
      hide Arrive, SamePayments, SameBalanceTable;
    } else if a.ApplyAnswer? {
      CreditingKeeps(s.core, s.procs[a.pid].key);
      hide PayClaim, DropClaim;
    } else if a.PurgeInvoices? {
      PurgingKeeps(s.core, a.cutoff);
      hide PurgeClaims, SamePayments, SameBalanceTable;
    }
  }

  lemma OthersKeepPayments(s: State, a: Action)
    requires Enabled(s, a) && !TouchesPayments(a)
    ensures CoreAfter(s, a).payments == s.core.payments && CoreAfter(s, a).hashes == s.core.hashes
  {
    if OnKeys(a) {
      KeysKeepTables(s, a);
      hide CoreAfter, Enabled;
    } else {
      hide Transfer, ChargeFee, RefundFee, TryCharge, Held, Spare;
    }
  }

  lemma MarkedId(t: Tables, row: InFlightRow)
    ensures DebitAndMark(t, row).Ok? ==> DebitAndMark(t, row).value.1 == t.nextId
  {}

  lemma StartedPayment(s: State, a: Action)
    requires GatewayInv(s) && Enabled(s, a) && (a.StartSend? || a.StartPay? || a.StartBurn?)
    ensures var d := if a.StartBurn? then BurnOf(s.nextPid) else Row(s.core.t.nextId);
            d !in s.core.payments && CoreAfter(s, a).payments == s.core.payments[d := Payment(a.row, s.nextPid, Open, Unsent)]
  {
    if !a.StartBurn? {
      MarkedId(s.core.t, a.row);
    }
    hide Debit, DebitAndMark, ProcsOk, RepliesOk, Covered;
  }

  /** What closing steps do to the payments: close one, or nothing. */
  lemma ClosingShape(s: State, a: Action)
    requires GatewayInv(s) && Enabled(s, a) && (a.Unreserve? || a.CloseDebit? || a.ApplyTrack?)
    ensures var qs := CoreAfter(s, a).payments;
            CoreAfter(s, a).hashes == s.core.hashes &&
            (qs == s.core.payments ||
             exists d, closing :: d in s.core.payments && closing != Open &&
               qs == s.core.payments[d := s.core.payments[d].(closing := closing)])
  {
    hide GatewayInv, Settle, Refund;
    var c := s.core;
    if a.ApplyTrack? {
      RowClosing(c, s.procs[a.pid].id, None);
      hide SettleRow, RefundRow;
    } else {
      var d := s.procs[a.pid].d;
      if d.Row? {
        RowClosing(c, d.id, if a.CloseDebit? && c.payments[d].row.kind == Send then Some(a.txid) else None);
        hide SettleRow, RefundRow;
      } else {
        assert CoreAfter(s, a).payments ==
          c.payments[d := c.payments[d].(closing := if s.procs[a.pid].Refused? then Refunded else Settled)];
      }
    }
  }

  lemma RowClosing(c: Core, id: nat, reference: Option<string>)
    ensures SettleRow(c, id, reference).hashes == c.hashes && RefundRow(c, id).hashes == c.hashes
    ensures SettleRow(c, id, reference).payments == c.payments ||
            (Row(id) in c.payments &&
             SettleRow(c, id, reference).payments == c.payments[Row(id) := c.payments[Row(id)].(closing := Settled)])
    ensures RefundRow(c, id).payments == c.payments ||
            (Row(id) in c.payments &&
             RefundRow(c, id).payments == c.payments[Row(id) := c.payments[Row(id)].(closing := Refunded)])
  {}

  // ---- Programs -----------------------------------------------------------------------

  /** Programs that have ended never run again. */
  lemma EndedStaysEnded(s: State, a: Action, pid: nat)
    requires Enabled(s, a) && pid < s.nextPid && pid !in s.procs
    ensures pid < Step(s, a).nextPid && pid !in Step(s, a).procs
    ensures Actor(s, MoveAfter(s, a)) != Some(pid)
  {
    hide Enabled, CoreAfter, Tally, MoveAfter;
  }

  /** Only a node's failure and a tracked payment lead to positions that rest on
      what the node said. */
  lemma RestsOnNothing(s: State, a: Action)
    requires Enabled(s, a) && !a.NodeAnswers? && !a.TrackPayment?
    ensures var m := MoveAfter(s, a);
            m.Begin? || m.Go? ==> !m.proc.Refused? && !m.proc.Tracked?
  {
    hide Enabled, TryCharge;
  }

  /** Recovery asks about its next row, and the node's record of that row's hash says so. */
  predicate Asks(s: State, pid: nat, status: HashStatus) {
    && pid in s.procs && s.procs[pid].Recovering? && s.procs[pid].rows != []
    && var h := HashOf(s.procs[pid].rows[0].1);
       h.Some? && h.value in s.core.hashes && s.core.hashes[h.value] == status
  }

  function Asked(s: State, pid: nat): DebitId
    requires pid in s.procs && s.procs[pid].Recovering? && s.procs[pid].rows != []
  {
    Row(s.procs[pid].rows[0].0)
  }

  lemma TrackingAsks(s: State, pid: nat, answer: Option<HashStatus>)
    requires Enabled(s, TrackPayment(pid, answer)) && answer.Some?
    ensures Asks(s, pid, answer.value)
  {}

  // ---- Clients --------------------------------------------------------------------------

  /** What has been done to a client's balance for one job, by whomever. */
  function Total(j: Job): int {
    j.units + j.restored
  }

  predicate SameClient(j: Job, k: Job) {
    k == j.(units := k.units, restored := k.restored, sats := k.sats)
  }

  function BalanceMove(before: Tables, after: Tables, j: Job): int {
    Bal(after, j.asset, j.user) - Bal(before, j.asset, j.user)
  }

  lemma ActingMoves(s: State, c: Core, m: Move, pid: nat)
    requires (m.Go? || m.Finish? ==> Running(s, m.pid)) && pid in s.jobs && pid < s.nextPid
    ensures var after, j := Apply(s, c, m), s.jobs[pid];
            && pid in after.jobs && SameClient(j, after.jobs[pid])
            && Total(after.jobs[pid]) == Total(j) + (if Actor(s, m) == Some(pid) then BalanceMove(s.core.t, c.t, j) else 0)
  {
    hide Bal, SatsOf;
  }

  lemma RestoringMoves(jobs: map<nat, Job>, debtor: Option<nat>, before: Tables, after: Tables, pid: nat)
    requires pid in jobs
    ensures var restored, j := Restore(jobs, debtor, before, after), jobs[pid];
            && pid in restored && SameClient(j, restored[pid])
            && Total(restored[pid]) == Total(j) + (if debtor == Some(pid) then BalanceMove(before, after, j) else 0)
  {
    hide Bal;
  }

  /** A job's account moves by its client's balance when its own program acts or recovery
      acts on its debit, and stays put otherwise. */
  lemma JobMoves(s: State, a: Action, pid: nat)
    requires Enabled(s, a) && pid in s.jobs && pid < s.nextPid
    ensures var after, j := Step(s, a), s.jobs[pid];
            && pid in after.jobs && SameClient(j, after.jobs[pid])
            && Total(after.jobs[pid]) == Total(j)
               + (if Actor(s, MoveAfter(s, a)) == Some(pid) then BalanceMove(s.core.t, CoreAfter(s, a).t, j) else 0)
               + (if Debtor(s, a) == Some(pid) then BalanceMove(s.core.t, CoreAfter(s, a).t, j) else 0)
  {
    hide Enabled, CoreAfter, MoveAfter, Debtor, Bal, SatsOf, Apply, Restore, Actor;
    var m := MoveAfter(s, a);
    ActingMoves(s, CoreAfter(s, a), m, pid);
    var acted := Apply(s, CoreAfter(s, a), m);
    ApplyCore(s, CoreAfter(s, a), m);
    RestoringMoves(acted.jobs, Debtor(s, a), s.core.t, acted.core.t, pid);
  }

  lemma NewJob(s: State, a: Action)
    requires Enabled(s, a) && MoveAfter(s, a).Begin? && Debtor(s, a).None?
    ensures var after, j := Step(s, a), MoveAfter(s, a).job;
            && s.nextPid in after.jobs && SameClient(j, after.jobs[s.nextPid]) && after.nextPid == s.nextPid + 1
            && Total(after.jobs[s.nextPid]) == Total(j) + BalanceMove(s.core.t, CoreAfter(s, a).t, j)
  {
    StepCore(s, a);
    hide Enabled, CoreAfter, MoveAfter, Debtor, Bal, SatsOf;
  }

  lemma JobsShape(s: State, a: Action)
    requires Enabled(s, a)
    ensures forall pid :: pid in Step(s, a).jobs ==> pid in s.jobs || (MoveAfter(s, a).Begin? && pid == s.nextPid)
    ensures Step(s, a).nextPid == if MoveAfter(s, a).Begin? then s.nextPid + 1 else s.nextPid
  {
    hide Enabled, CoreAfter, MoveAfter, Debtor, Bal, SatsOf;
  }

  /** Where a program that runs after a step came from. */
  lemma ProcShape(s: State, a: Action, pid: nat)
    requires Enabled(s, a) && pid in Step(s, a).procs
    ensures var m := MoveAfter(s, a);
            if m.Begin? && pid == s.nextPid then Step(s, a).procs[pid] == m.proc
            else if m.Go? && pid == m.pid then pid in s.procs && Step(s, a).procs[pid] == m.proc
            else pid in s.procs && Step(s, a).procs[pid] == s.procs[pid]
  {
    hide Enabled, CoreAfter, MoveAfter, Debtor, Tally, Restore;
  }

  lemma ReplyShape(s: State, a: Action, pid: nat)
    requires Enabled(s, a) && pid in Step(s, a).replies
    ensures var m := MoveAfter(s, a);
            if m.Finish? && pid == m.pid then pid in s.procs && Step(s, a).replies[pid] == m.reply
            else pid in s.replies && Step(s, a).replies[pid] == s.replies[pid]
  {
    hide Enabled, CoreAfter, MoveAfter, Debtor, Tally, Restore;
  }

  /** Balances move in transfers, credits, reservations and closings only. */
  lemma OthersKeepBalances(s: State, a: Action)
    requires Enabled(s, a) && !a.MoveUnits? && !a.ApplyAnswer?
    requires !TouchesPayments(a) || a.CallNode? || a.NodePays? || a.NodeDrops?
    ensures CoreAfter(s, a).t.balances == s.core.t.balances
  {
    if a.ChargeStep? {
      ChargeBalances(s.core.t, s.policy, s.jobs[a.pid].user, s.procs[a.pid].fee);
      hide TryCharge;
    } else if OnKeys(a) {
      KeysKeepTables(s, a);
      hide CoreAfter, Enabled;
    } else {
      hide TryCharge, Transfer, ChargeFee, Held, Spare, BusyHash, SatsOf;
    }
  }

  lemma ChargeBalances(t: Tables, policy: Policy, payer: string, fee: nat)
    ensures var charged := TryCharge(t, policy, payer, fee).0;
            charged.Ok? ==> charged.value.balances == t.balances && charged.value.inFlight == t.inFlight
  {
    if Collector(policy, payer).Some? && ChargeFee(t, payer, Collector(policy, payer).value, fee).Ok? {
      ChargeShape(t, payer, Collector(policy, payer).value, fee);
    }
    hide ChargeFee;
  }
}
