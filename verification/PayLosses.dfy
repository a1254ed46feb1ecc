/** Exactly when a Lightning payment answered with a failure is sure to have cost nothing. */
module PayLosses {
  import opened Numbers
  import opened Ledger
  import opened LedgerLaws
  import opened GatewayCore
  import opened GatewayCoreLaws
  import opened Gateway
  import opened GatewayLaws
  import opened GatewaySteps
  import opened GatewayShapes
  import opened GatewayTheorems
  import opened GatewayHashes
  import opened GatewayTally
  import opened PayCosts
  import opened Races

  /** The payment waits before its call, and another under its hash is at the node. */
  ghost predicate Rivalled(s: State, row: InFlightRow, pid: nat, id: nat, e: DebitId) {
    && Stalled(s, row, pid, id) && s.core.payments[Row(id)].owner == pid && s.nextPid != pid
    && e in s.core.payments && e != Row(id) && SameHash(s.core.payments[Row(id)], s.core.payments[e])
    && s.core.payments[e].fate == Sent
  }

  lemma FundsRival(s: State, row: InFlightRow, pid: nat, id: nat, e: DebitId)
    requires Rivalled(s, row, pid, id, e)
    ensures var rival := s.core.payments[e].row;
            var a := FundNode(rival.asset, rival.amount);
            && Enabled(s, a) && SoloStep(s, a, Row(id), row)
            && Rivalled(Step(s, a), row, pid, id, e) && Step(s, a).core.payments[e] == s.core.payments[e]
            && rival.amount <= Held(Step(s, a).core, rival.asset) && Step(s, a).nextPid == s.nextPid
  {
    hide HashOf;
  }

  lemma PaysRival(s: State, row: InFlightRow, pid: nat, id: nat, e: DebitId)
    requires Rivalled(s, row, pid, id, e) && s.core.payments[e].row.amount <= Held(s.core, s.core.payments[e].row.asset)
    ensures Enabled(s, NodePays(e)) && SoloStep(s, NodePays(e), Row(id), row)
    ensures var after := Step(s, NodePays(e));
            && Stalled(after, row, pid, id) && after.core.payments[Row(id)].owner == pid && after.nextPid == s.nextPid
            && HashPaid(after.core, row)
  {
    hide Held;
  }

  /** The rival under way can be paid first. */
  lemma RivalPaidFirst(s: State, row: InFlightRow, pid: nat, id: nat, e: DebitId)
    requires Rivalled(s, row, pid, id, e)
    ensures var rival := s.core.payments[e].row;
            var tail := [FundNode(rival.asset, rival.amount)] + ([NodePays(e)] + UnpaidTail(s.nextPid, pid, row, id));
            EndsUnpaid(s, tail, pid, Row(id), row)
  {
    var rival, d := s.core.payments[e].row, Row(id);
    var a := FundNode(rival.asset, rival.amount);
    var differs := s.nextPid != pid;
    hide Enabled, Step, EndsUnpaid, SoloStep, Rivalled, Stalled, HashPaid, Held, UnpaidTail;
    FundsRival(s, row, pid, id, e);
    var s1 := Step(s, a);
    PaysRival(s1, row, pid, id, e);
    var s2 := Step(s1, NodePays(e));
    SettledByAnother(s2, row, pid, id);
    var tail := UnpaidTail(s.nextPid, pid, row, id);
    EndsSooner(s1, NodePays(e), tail, pid, d, row);
    EndsSooner(s, a, [NodePays(e)] + tail, pid, d, row);
  }

  /** Another handler about to call for the same hash, which the node does not know yet. */
  ghost predicate Contended(s: State, row: InFlightRow, pid: nat, id: nat, other: nat) {
    && Stalled(s, row, pid, id) && s.core.payments[Row(id)].owner == pid && s.nextPid != pid
    && other != pid && other in s.procs && other in s.jobs && s.procs[other].CallDue?
    && s.procs[other].d in s.core.payments && s.procs[other].d != Row(id)
    && SameHash(s.core.payments[Row(id)], s.core.payments[s.procs[other].d])
    && !BusyHash(s.core, row)
  }

  lemma RivalCalls(s: State, row: InFlightRow, pid: nat, id: nat, other: nat)
    requires Contended(s, row, pid, id, other)
    ensures Enabled(s, CallNode(other)) && SoloStep(s, CallNode(other), Row(id), row)
    ensures Rivalled(Step(s, CallNode(other)), row, pid, id, s.procs[other].d)
    ensures Step(s, CallNode(other)).core.payments[s.procs[other].d].row == s.core.payments[s.procs[other].d].row
    ensures Step(s, CallNode(other)).nextPid == s.nextPid
  {
    hide Bal, SatsOf;
  }

  lemma RivalCallsFirst(s: State, row: InFlightRow, pid: nat, id: nat, other: nat)
    requires Contended(s, row, pid, id, other)
    ensures exists tail :: EndsUnpaid(s, tail, pid, Row(id), row)
  {
    var e := s.procs[other].d;
    hide Enabled, Step, EndsUnpaid, SoloStep, Rivalled, Contended, Stalled, UnpaidTail;
    RivalCalls(s, row, pid, id, other);
    var s1 := Step(s, CallNode(other));
    RivalPaidFirst(s1, row, pid, id, e);
    var tail :| EndsUnpaid(s1, tail, pid, Row(id), row);
    EndsSooner(s, CallNode(other), tail, pid, Row(id), row);
  }

  lemma CanReserveIf(s: State, row: InFlightRow)
    requires Enabled(s, StartPay(row))
    ensures CanReserve(s, row)
  {}

  /** The other payment of a busy hash is paid, or can be. */
  lemma BusyEndsUnpaid(s: State, row: InFlightRow, pid: nat, id: nat)
    requires HashesTell(s.core.payments, s.core.hashes)
    requires Stalled(s, row, pid, id) && s.core.payments[Row(id)].owner == pid && s.nextPid != pid && BusyHash(s.core, row)
    ensures exists tail :: EndsUnpaid(s, tail, pid, Row(id), row)
  {
    hide EndsUnpaid, UnpaidTail;
    if HashPaid(s.core, row) {
      SettledByAnother(s, row, pid, id);
    } else {
      var h := HashOf(row).value;
      var e :| TakenUnder(s.core.payments, e, h);
      assert Tells(s.core.payments[e], s.core.hashes);
      hide HashesTell;
      RivalPaidFirst(s, row, pid, id, e);
    }
  }

  /** A payment started on a hash that is not free can end unpaid. */
  lemma UnfreeEndsUnpaid(s: State, row: InFlightRow)
    requires GatewayInv(s) && HashesTell(s.core.payments, s.core.hashes)
    requires Enabled(s, StartPay(row)) && !FreeToPay(s, row)
    ensures exists tail :: EndsUnpaid(Step(s, StartPay(row)), tail, s.nextPid, Row(s.core.t.nextId), row)
  {
    var pid, id, s1 := s.nextPid, s.core.t.nextId, Step(s, StartPay(row));
    hide GatewayInv, HashesTell, Enabled, Step, EndsUnpaid, Stalled;
    CanReserveIf(s, row);
    StartsPaying(s, row);
    StartedOwner(s, row);
    SameBusy(s.core, s1.core, row);
    if BusyHash(s.core, row) {
      StepTells(s, StartPay(row));
      BusyEndsUnpaid(s1, row, pid, id);
    } else {
      var other :| other in s.procs && CallsFor(s, row, s.procs[other]);
      StartsContended(s, row, other);
      RivalCallsFirst(s1, row, pid, id, other);
    }
  }

  lemma StartsContended(s: State, row: InFlightRow, other: nat)
    requires GatewayInv(s) && Enabled(s, StartPay(row)) && !BusyHash(s.core, row)
    requires HashOf(row).Some? && other in s.procs && CallsFor(s, row, s.procs[other])
    ensures Contended(Step(s, StartPay(row)), row, s.nextPid, s.core.t.nextId, other)
  {
    var s1 := Step(s, StartPay(row));
    OldRival(s, row, other);
    hide GatewayInv, Enabled, Step, Stalled;
    CanReserveIf(s, row);
    StartsPaying(s, row);
    StartedOwner(s, row);
    SameBusy(s.core, s1.core, row);
  }

  lemma OldRival(s: State, row: InFlightRow, other: nat)
    requires GatewayInv(s) && Enabled(s, StartPay(row)) && other in s.procs && CallsFor(s, row, s.procs[other])
    ensures var s1, e := Step(s, StartPay(row)), s.procs[other].d;
            && other != s.nextPid && other in s.jobs && other in s1.jobs && e != Row(s.core.t.nextId)
            && e in s1.core.payments && s1.core.payments[e] == s.core.payments[e]
  {
    KnownReserving(s, other);
    StartedPayment(s, StartPay(row));
    StepCore(s, StartPay(row));
    JobMoves(s, StartPay(row), other);
    hide GatewayInv, Enabled, Step, CoreAfter;
  }

  // ---- The condition --------------------------------------------------------------------

  /** The payment was started, and with nobody else starting one under its hash and only
      final failures reported for it, it was answered with a failure. */
  predicate FailsAlone(s: State, row: InFlightRow, run: seq<Action>)
    requires Enabled(s, StartPay(row))
  {
    var s1 := Step(s, StartPay(row));
    && CanRun(s1, run) && SoloRun(s1, run, Row(s.core.t.nextId), row)
    && s.nextPid in Run(s1, run).replies && Run(s1, run).replies[s.nextPid] == Failure
  }

  /** It has left its client's balance as it was. */
  predicate CostNothing(s: State, row: InFlightRow, run: seq<Action>)
    requires Enabled(s, StartPay(row))
  {
    var s1 := Step(s, StartPay(row));
    CanRun(s1, run) && var after := Run(s1, run); s.nextPid in after.jobs && Total(after.jobs[s.nextPid]) == 0
  }

  /** The documented promise that an unsuccessful Lightning payment is refunded holds of
      every run of a payment exactly when, as it starts, the node is not paying and has not
      paid its hash and no other handler is about to have it do so. */
  lemma FailedPaymentIsFreeExactlyWhen(s: State, row: InFlightRow)
    requires Reachable(s) && Enabled(s, StartPay(row))
    ensures FreeToPay(s, row) <==> forall run :: FailsAlone(s, row, run) ==> CostNothing(s, row, run)
  {
    hide GatewayInv, HashesTell, Enabled, Step, Reachable, EndsUnpaid, FailsAlone, CostNothing, FreeToPay, TallyInv, CanRun, Run, SoloRun;
    ReachableTells(s);
    ReachableIsTallied(s);
    if FreeToPay(s, row) {
      forall run | FailsAlone(s, row, run)
        ensures CostNothing(s, row, run)
      {
        AloneCostsNothing(s, row, run);
      }
    } else {
      UnfreeEndsUnpaid(s, row);
      var tail :| EndsUnpaid(Step(s, StartPay(row)), tail, s.nextPid, Row(s.core.t.nextId), row);
      UnpaidIsAFailure(s, row, tail);
    }
  }

  lemma AloneCostsNothing(s: State, row: InFlightRow, run: seq<Action>)
    requires Reachable(s) && Enabled(s, StartPay(row)) && FreeToPay(s, row) && FailsAlone(s, row, run)
    ensures CostNothing(s, row, run)
  {
    hide Reachable, Enabled, Step, FreeToPay, Run, SoloRun;
    FreeHashFailureCostsNothing(s, row, run);
  }

  lemma UnpaidIsAFailure(s: State, row: InFlightRow, tail: seq<Action>)
    requires GatewayInv(s) && TallyInv(s) && Enabled(s, StartPay(row))
    requires EndsUnpaid(Step(s, StartPay(row)), tail, s.nextPid, Row(s.core.t.nextId), row)
    ensures FailsAlone(s, row, tail) && !CostNothing(s, row, tail)
  {
    StartedKind(s, row);
    hide GatewayInv, TallyInv, Enabled, Step, CanRun, Run, SoloRun;
    UnpaidCosts(s, row, tail);
  }

  // ---- A rival that starts later ----------------------------------------------------------

  /** Another payment started under the hash while the first waits before its call. */
  lemma RivalStartsLater(s: State, row: InFlightRow, pid: nat, id: nat, rival: InFlightRow)
    requires GatewayInv(s) && Stalled(s, row, pid, id) && s.core.payments[Row(id)].owner == pid && !BusyHash(s.core, row)
    requires Enabled(s, StartPay(rival)) && HashOf(rival) == HashOf(row) && HashOf(row).Some?
    ensures Contended(Step(s, StartPay(rival)), row, pid, id, s.nextPid)
  {
    hide GatewayInv, Enabled, Step, Stalled;
    CanReserveIf(s, rival);
    StartsPaying(s, rival);
    StartedOwner(s, rival);
    StaysStalled(s, row, pid, id, rival);
    SameBusy(s.core, Step(s, StartPay(rival)).core, row);
    RivalIsOther(s, row, pid, id, rival);
  }

  lemma StaysStalled(s: State, row: InFlightRow, pid: nat, id: nat, rival: InFlightRow)
    requires GatewayInv(s) && Stalled(s, row, pid, id) && Enabled(s, StartPay(rival))
    ensures var after := Step(s, StartPay(rival));
            && Stalled(after, row, pid, id) && after.core.payments[Row(id)] == s.core.payments[Row(id)]
            && s.core.payments[Row(id)].row == row && pid < s.nextPid
  {
    hide GatewayInv, Enabled, Step, CoreAfter, Shortfall;
    CanReserveIf(s, rival);
    StartsPaying(s, rival);
    StartedPayment(s, StartPay(rival));
    MarkedRow(s, rival);
    StepCore(s, StartPay(rival));
    JobMoves(s, StartPay(rival), pid);
    hide SameClient, Total, BalanceMove;
  }

  lemma MarkedRow(s: State, row: InFlightRow)
    requires GatewayInv(s) && Enabled(s, StartPay(row))
    ensures s.core.t.nextId !in s.core.t.inFlight
    ensures CoreAfter(s, StartPay(row)).t.inFlight == s.core.t.inFlight[s.core.t.nextId := row]
  {
    hide ClaimsOk, CreditsOk, MintsOk, Balanced, ProcsOk, RepliesOk, OwnersOk, Covered;
  }

  lemma RivalIsOther(s: State, row: InFlightRow, pid: nat, id: nat, rival: InFlightRow)
    requires GatewayInv(s) && Stalled(s, row, pid, id) && Enabled(s, StartPay(rival))
    ensures pid < s.nextPid && id != s.core.t.nextId && s.nextPid in Step(s, StartPay(rival)).jobs
  {
    hide GatewayInv, Enabled, Step, CoreAfter;
    StartedPayment(s, StartPay(rival));
    CanReserveIf(s, rival);
    StartsPaying(s, rival);
  }

  /** That nobody starts another payment under the hash is needed: even a payment started on
      a free hash can end unpaid, its handler told of a failure, if another is started then. */
  lemma LateRivalEndsUnpaid(s: State, row: InFlightRow, rival: InFlightRow)
    requires GatewayInv(s) && Enabled(s, StartPay(row)) && !BusyHash(s.core, row)
    requires Enabled(Step(s, StartPay(row)), StartPay(rival)) && HashOf(rival) == HashOf(row) && HashOf(row).Some?
    ensures exists tail ::
              EndsUnpaid(Step(Step(s, StartPay(row)), StartPay(rival)), tail, s.nextPid, Row(s.core.t.nextId), row)
  {
    hide GatewayInv, Enabled, Step, Stalled, EndsUnpaid, Contended;
    var s1 := Step(s, StartPay(row));
    CanReserveIf(s, row);
    StartsPaying(s, row);
    StartedOwner(s, row);
    StepKeeps(s, StartPay(row));
    SameBusy(s.core, s1.core, row);
    RivalStartsLater(s1, row, s.nextPid, s.core.t.nextId, rival);
    RivalCallsFirst(Step(s1, StartPay(rival)), row, s.nextPid, s.core.t.nextId, s1.nextPid);
  }
}
