/** What every request has cost its client, debit by debit: in every reachable state, the
    units a program and recovery have moved for a client are exactly the debit, or nothing
    once it was refunded. */
module GatewayTally {
  import opened Numbers
  import opened Ledger
  import opened LedgerLaws
  import opened GatewayCore
  import opened GatewayCoreLaws
  import opened Gateway
  import opened GatewayLaws
  import opened GatewaySteps
  import opened GatewayShapes
  import opened GatewayTheorems

  /** What a debit has done to its client's balance so far. */
  function NetOf(p: Payment): int {
    var n: int := p.row.amount;
    if p.closing == Refunded then 0 else -n
  }

  predicate Debits(request: Request) {
    request == SendRequest || request == PayRequest || request == BurnRequest
  }

  predicate DebitFits(ps: map<DebitId, Payment>, job: Job, pid: nat, d: DebitId) {
    && d in ps && ps[d].owner == pid && job.user == ps[d].row.pubkey && job.asset == ps[d].row.asset
    && Debits(job.request) && ps[d].row.kind == KindFor(job.request)
    && Total(job) == NetOf(ps[d]) && (job.request == PayRequest ==> ps[d].row.amount > 0)
  }

  predicate JobFits(ps: map<DebitId, Payment>, job: Job, pid: nat) {
    match job.debit
    case Some(d) => DebitFits(ps, job, pid, d)
    case None => !Debits(job.request) && (job.request != Background ==> Total(job) == 0)
  }

  ghost predicate JobsFit(ps: map<DebitId, Payment>, jobs: map<nat, Job>, nextPid: nat) {
    && (forall pid :: pid in jobs ==> pid < nextPid && JobFits(ps, jobs[pid], pid))
    && (forall d :: d in ps ==> ps[d].owner in jobs && jobs[ps[d].owner].debit == Some(d))
  }

  predicate ClosedDebit(ps: map<DebitId, Payment>, job: Job) {
    job.debit.Some? ==> job.debit.value in ps && ps[job.debit.value].closing != Open
  }

  predicate RefundedDebit(ps: map<DebitId, Payment>, job: Job) {
    job.debit.Some? ==> job.debit.value in ps && ps[job.debit.value].closing == Refunded
  }

  /** An answer leaves no debit open; a failure leaves it refunded, except that recovery may
      have settled a Lightning payment. */
  predicate AnswerFits(ps: map<DebitId, Payment>, job: Job, reply: Reply) {
    ClosedDebit(ps, job) && (reply == Failure && job.request != PayRequest ==> RefundedDebit(ps, job))
  }

  predicate OnDebit(p: Proc) {
    p.FeeDue? || p.FeeRefused? || p.CallDue? || p.Calling? || p.Refused? || p.Accepted?
  }

  predicate Loops(p: Proc) {
    p.Reconciling? || p.Answered? || p.Recovering? || p.Tracked?
  }

  /** A program works on its job's own debit, and has none to work on once it closed it. */
  predicate ProcFits(ps: map<DebitId, Payment>, job: Job, p: Proc) {
    if OnDebit(p) then job.debit == Some(p.d)
    else if p.FeeBack? then RefundedDebit(ps, job) && job.request != PayRequest && job.request != Background
    else job.debit.None? && !Debits(job.request) && (job.request == Background <==> Loops(p))
  }

  ghost predicate ProgramsFit(ps: map<DebitId, Payment>, jobs: map<nat, Job>, procs: map<nat, Proc>) {
    forall pid :: pid in procs ==> pid in jobs && ProcFits(ps, jobs[pid], procs[pid])
  }

  ghost predicate AnswersFit(ps: map<DebitId, Payment>, jobs: map<nat, Job>, replies: map<nat, Reply>) {
    forall pid :: pid in replies ==> pid in jobs && AnswerFits(ps, jobs[pid], replies[pid])
  }

  ghost predicate TallyInv(s: State) {
    && JobsFit(s.core.payments, s.jobs, s.nextPid)
    && ProgramsFit(s.core.payments, s.jobs, s.procs)
    && AnswersFit(s.core.payments, s.jobs, s.replies)
  }

  // ---- What closings move ---------------------------------------------------------------

  /** A refund moves the client's balance by as much as it changes the debit's net effect. */
  lemma RefundRowMatches(c: Core, id: nat)
    requires RowsOk(c.payments, c.t.inFlight, c.t.nextId) && Row(id) in c.payments
    ensures var row, d := c.payments[Row(id)].row, RefundRow(c, id);
            && Row(id) in d.payments && d.payments[Row(id)].closing != Open
            && (c.payments[Row(id)].closing == Open ==> d.payments[Row(id)].closing == Refunded)
            && Bal(d.t, row.asset, row.pubkey) - Bal(c.t, row.asset, row.pubkey)
               == NetOf(d.payments[Row(id)]) - NetOf(c.payments[Row(id)])
            && d.payments == c.payments[Row(id) := d.payments[Row(id)]]
            && d.payments[Row(id)] == c.payments[Row(id)].(closing := d.payments[Row(id)].closing)
  {
    RefundedClient(c, id);
    RowClosing(c, id, None);
    hide Bal;
  }

  lemma SettleRowMatches(c: Core, id: nat, reference: Option<string>)
    requires RowsOk(c.payments, c.t.inFlight, c.t.nextId) && Row(id) in c.payments
    ensures var d := SettleRow(c, id, reference);
            && Row(id) in d.payments && d.payments[Row(id)].closing != Open
            && d.t.balances == c.t.balances
            && NetOf(d.payments[Row(id)]) == NetOf(c.payments[Row(id)])
            && d.payments == c.payments[Row(id) := d.payments[Row(id)]]
            && d.payments[Row(id)] == c.payments[Row(id)].(closing := d.payments[Row(id)].closing)
  {}

  lemma BurnMatches(c: Core, d: DebitId, txid: string)
    requires d in c.payments && c.payments[d].closing == Open
    ensures var row, back := c.payments[d].row, RefundBurn(c, d);
            && Bal(back.t, row.asset, row.pubkey) - Bal(c.t, row.asset, row.pubkey) == NetOf(back.payments[d]) - NetOf(c.payments[d])
            && back.payments == c.payments[d := c.payments[d].(closing := Refunded)]
    ensures var kept := RecordBurn(c, d, txid);
            && kept.t.balances == c.t.balances && NetOf(kept.payments[d]) == NetOf(c.payments[d])
            && kept.payments == c.payments[d := c.payments[d].(closing := Settled)]
  {}

  /** The debit a closing step closes, if it closes one. */
  function ClosedBy(s: State, a: Action): Option<DebitId>
    requires Enabled(s, a)
  {
    match a
    case Unreserve(pid) => Some(s.procs[pid].d)
    case CloseDebit(pid, _) => Some(s.procs[pid].d)
    case ApplyTrack(pid) => if Row(s.procs[pid].id) in s.core.payments then Some(Row(s.procs[pid].id)) else None
    case _ => None
  }

  /** A closing step touches one debit, and moves that debit's client by what it changes. */
  ghost predicate ClosesOne(s: State, c: Core, d: DebitId) {
    && d in s.core.payments && d in c.payments
    && c.payments == s.core.payments[d := c.payments[d]]
    && c.payments[d] == s.core.payments[d].(closing := c.payments[d].closing)
    && var row := s.core.payments[d].row;
       Bal(c.t, row.asset, row.pubkey) - Bal(s.core.t, row.asset, row.pubkey) == NetOf(c.payments[d]) - NetOf(s.core.payments[d])
  }

  lemma CloseMatches(s: State, pid: nat, txid: string)
    requires GatewayInv(s) && Enabled(s, CloseDebit(pid, txid))
    ensures var c, d := CoreAfter(s, CloseDebit(pid, txid)), s.procs[pid].d;
            && ClosesOne(s, c, d) && c.payments[d].closing != Open
            && (s.procs[pid].Refused? && s.core.payments[d].closing == Open ==> c.payments[d].closing == Refunded)
  {
    hide ProcsOk, RepliesOk, Covered, OwnersOk, ClaimsOk, CreditsOk, MintsOk, Balanced, Bal, NetOf;
    var d := s.procs[pid].d;
    if d.Row? {
      RefundRowMatches(s.core, d.id);
      var reference := if s.core.payments[d].row.kind == Send then Some(txid) else None;
      SettleRowMatches(s.core, d.id, reference);
      var row := s.core.payments[d].row;
      SameBalances(s.core.t, SettleRow(s.core, d.id, reference).t, row.asset, row.pubkey);
      hide SettleRow, RefundRow;
    } else {
      OpenUntilAnswered(s, pid);
      BurnMatches(s.core, d, txid);
      var row := s.core.payments[d].row;
      SameBalances(s.core.t, RecordBurn(s.core, d, txid).t, row.asset, row.pubkey);
      hide RefundBurn, RecordBurn;
    }
  }

  lemma OpenUntilAnswered(s: State, pid: nat)
    requires GatewayInv(s) && pid in s.procs && (s.procs[pid].Accepted? || s.procs[pid].Refused?) && s.procs[pid].d.BurnOf?
    ensures s.procs[pid].d in s.core.payments && s.core.payments[s.procs[pid].d].closing == Open
  {
    hide OwnersOk, RepliesOk, Covered, CoreInv, ProcsOk;
    Known(s, pid);
    hide GatewayInv;
  }

  lemma UnreserveMatches(s: State, pid: nat)
    requires GatewayInv(s) && Enabled(s, Unreserve(pid))
    ensures var c, d := CoreAfter(s, Unreserve(pid)), s.procs[pid].d;
            ClosesOne(s, c, d) && c.payments[d].closing == Refunded
  {
    hide ProcsOk, RepliesOk, Covered, OwnersOk, ClaimsOk, CreditsOk, MintsOk, Balanced, Bal, NetOf;
    KnownReserving(s, pid);
    RefundRowMatches(s.core, s.procs[pid].d.id);
    hide RefundRow, MadeDebit;
  }

  lemma OutcomeMatches(s: State, id: nat, outcome: Option<HashStatus>)
    requires RowsOk(s.core.payments, s.core.t.inFlight, s.core.t.nextId) && Row(id) in s.core.payments
    ensures ClosesOne(s, Outcome(s.core, id, outcome), Row(id))
  {
    hide RowsOk, Bal, NetOf;
    var row := s.core.payments[Row(id)].row;
    RefundRowMatches(s.core, id);
    SettleRowMatches(s.core, id, None);
    SameBalances(s.core.t, SettleRow(s.core, id, None).t, row.asset, row.pubkey);
    hide SettleRow, RefundRow;
  }

  lemma TrackCore(s: State, pid: nat)
    requires Enabled(s, ApplyTrack(pid))
    ensures CoreAfter(s, ApplyTrack(pid)) == Outcome(s.core, s.procs[pid].id, s.procs[pid].outcome)
  {}

  lemma TrackMatches(s: State, pid: nat, id: nat)
    requires GatewayInv(s) && pid in s.procs && s.procs[pid].Tracked? && s.procs[pid].id == id
    requires Row(id) in s.core.payments && Enabled(s, ApplyTrack(pid))
    ensures ClosesOne(s, CoreAfter(s, ApplyTrack(pid)), Row(id))
  {
    hide CoreAfter, Outcome, ClosesOne, ProcsOk, RepliesOk, Covered, OwnersOk, RowsOk, ClaimsOk, CreditsOk, MintsOk, Balanced;
    TrackCore(s, pid);
    OutcomeMatches(s, id, s.procs[pid].outcome);
  }

  lemma IsTracked(s: State, pid: nat)
    requires Enabled(s, ApplyTrack(pid))
    ensures pid in s.procs && s.procs[pid].Tracked?
  {}

  lemma ClosingMatches(s: State, a: Action)
    requires GatewayInv(s) && Enabled(s, a) && ClosedBy(s, a).Some?
    ensures ClosesOne(s, CoreAfter(s, a), ClosedBy(s, a).value)
  {
    if a.ApplyTrack? {
      IsTracked(s, a.pid);
    }
    hide GatewayInv, Enabled, CoreAfter, ClosesOne;
    match a
    case Unreserve(pid) => UnreserveMatches(s, pid);
    case CloseDebit(pid, txid) => CloseMatches(s, pid, txid);
    case ApplyTrack(pid) => TrackMatches(s, pid, ClosedBy(s, a).value.id);
  }

  // ---- Jobs over a step ------------------------------------------------------------------

  function Moved(s: State, a: Action, pid: nat): int
    requires Enabled(s, a) && pid in s.jobs
  {
    (if Actor(s, MoveAfter(s, a)) == Some(pid) then BalanceMove(s.core.t, CoreAfter(s, a).t, s.jobs[pid]) else 0)
    + (if Debtor(s, a) == Some(pid) then BalanceMove(s.core.t, CoreAfter(s, a).t, s.jobs[pid]) else 0)
  }

  lemma ProcKnown(s: State, pid: nat)
    requires TallyInv(s) && pid in s.procs
    ensures pid in s.jobs && ProcFits(s.core.payments, s.jobs[pid], s.procs[pid])
  {}

  lemma JobKnown(s: State, pid: nat)
    requires TallyInv(s) && pid in s.jobs
    ensures pid < s.nextPid && JobFits(s.core.payments, s.jobs[pid], pid)
  {}

  lemma DebitKnown(s: State, d: DebitId)
    requires TallyInv(s) && d in s.core.payments
    ensures var owner := s.core.payments[d].owner;
            owner in s.jobs && s.jobs[owner].debit == Some(d) && DebitFits(s.core.payments, s.jobs[owner], owner, d)
  {
    JobKnown(s, s.core.payments[d].owner);
  }

  lemma OwnCloserIsKnown(s: State, a: Action)
    requires TallyInv(s) && Enabled(s, a) && (a.Unreserve? || a.CloseDebit?) && s.procs[a.pid].d in s.core.payments
    ensures a.pid in s.jobs && s.core.payments[s.procs[a.pid].d].owner == a.pid && s.jobs[a.pid].debit == Some(s.procs[a.pid].d)
    ensures Debtor(s, a).None? && Actor(s, MoveAfter(s, a)) == Some(a.pid)
  {
    hide TallyInv, CoreAfter;
    ProcKnown(s, a.pid);
    JobKnown(s, a.pid);
  }

  lemma RecoveryIsKnown(s: State, pid: nat)
    requires TallyInv(s) && pid in s.procs && s.procs[pid].Tracked? && Row(s.procs[pid].id) in s.core.payments
    requires Enabled(s, ApplyTrack(pid))
    ensures pid in s.jobs && s.jobs[pid].debit.None? && s.jobs[pid].request == Background
    ensures var owner := s.core.payments[Row(s.procs[pid].id)].owner;
            owner in s.jobs && s.jobs[owner].debit == Some(Row(s.procs[pid].id)) && Debtor(s, ApplyTrack(pid)) == Some(owner)
    ensures Actor(s, MoveAfter(s, ApplyTrack(pid))) == Some(pid)
  {
    hide TallyInv, DebitFits, CoreAfter;
    ProcKnown(s, pid);
    DebitKnown(s, Row(s.procs[pid].id));
  }

  /** Who acts in a step that closes a debit: its own program, or a recovery pass on behalf
      of the debit's owner. */
  lemma ClosersAreKnown(s: State, a: Action)
    requires TallyInv(s) && Enabled(s, a) && ClosedBy(s, a).Some? && ClosedBy(s, a).value in s.core.payments
    ensures var d := ClosedBy(s, a).value;
            var owner := s.core.payments[d].owner;
            && owner in s.jobs && s.jobs[owner].debit == Some(d)
            && (if a.ApplyTrack? then Debtor(s, a) == Some(owner) && s.jobs[a.pid].debit.None? && s.jobs[a.pid].request == Background
                else Debtor(s, a).None? && a.pid == owner)
            && Actor(s, MoveAfter(s, a)) == Some(a.pid)
  {
    if a.ApplyTrack? {
      IsTracked(s, a.pid);
    }
    hide TallyInv, Enabled, MoveAfter, Actor, Debtor;
    if a.ApplyTrack? {
      RecoveryIsKnown(s, a.pid);
    } else {
      OwnCloserIsKnown(s, a);
    }
  }

  /** The closed debit's own job moves by exactly what the closing changes, no other moves. */
  lemma ClosingMoves(s: State, a: Action, pid: nat)
    requires GatewayInv(s) && TallyInv(s) && Enabled(s, a) && ClosedBy(s, a).Some? && pid in s.jobs
    requires ClosedBy(s, a).value in s.core.payments
    ensures s.jobs[pid].debit.Some? ==>
              var d := s.jobs[pid].debit.value;
              && d in CoreAfter(s, a).payments
              && Moved(s, a, pid) == NetOf(CoreAfter(s, a).payments[d]) - NetOf(s.core.payments[d])
    ensures s.jobs[pid].debit.None? && s.jobs[pid].request != Background ==> Moved(s, a, pid) == 0
  {
    hide GatewayInv, Enabled, CoreAfter, MoveAfter, Actor, Debtor, ClosedBy, Bal, NetOf;
    ClosingMatches(s, a);
    ClosersAreKnown(s, a);
    assert JobFits(s.core.payments, s.jobs[pid], pid);
    assert JobFits(s.core.payments, s.jobs[s.core.payments[ClosedBy(s, a).value].owner], s.core.payments[ClosedBy(s, a).value].owner);
    hide JobsFit, ProgramsFit, AnswersFit;
  }

  /** Steps that move balances without closing a debit act for no client. */
  lemma QuietActors(s: State, a: Action, pid: nat)
    requires TallyInv(s) && Enabled(s, a) && pid in s.jobs && pid < s.nextPid && ClosedBy(s, a).None?
    requires a.ApplyAnswer? || a.MoveUnits? || a.StartSend? || a.StartPay? || a.StartBurn? || a.ApplyTrack?
    requires s.jobs[pid].request != Background
    ensures Actor(s, MoveAfter(s, a)) != Some(pid) && Debtor(s, a).None?
  {
    hide TallyInv, CoreAfter;
    if a.ApplyAnswer? || a.ApplyTrack? {
      ProcKnown(s, a.pid);
    }
  }

  lemma QuietMoves(s: State, a: Action, pid: nat)
    requires TallyInv(s) && Enabled(s, a) && ClosedBy(s, a).None? && pid in s.jobs && pid < s.nextPid
    ensures s.jobs[pid].request != Background ==> Moved(s, a, pid) == 0
  {
    hide CoreAfter, TallyInv, Bal, MoveAfter, Actor, Enabled, ClosedBy, Debtor;
    if a.ApplyAnswer? || a.MoveUnits? || a.StartSend? || a.StartPay? || a.StartBurn? || a.ApplyTrack? {
      if s.jobs[pid].request != Background {
        QuietActors(s, a, pid);
      }
    } else {
      NotClosing(s, a);
      OthersKeepBalances(s, a);
      SameBalances(s.core.t, CoreAfter(s, a).t, s.jobs[pid].asset, s.jobs[pid].user);
    }
  }

  lemma NotClosing(s: State, a: Action)
    requires Enabled(s, a) && ClosedBy(s, a).None?
    ensures !a.Unreserve? && !a.CloseDebit?
  {
    hide Enabled;
  }

  /** Debits are still there, on the same terms. */
  ghost predicate SameDebits(ps: map<DebitId, Payment>, qs: map<DebitId, Payment>) {
    forall d :: d in ps ==> d in qs && qs[d].row == ps[d].row && qs[d].owner == ps[d].owner
  }

  /** What is closed stays closed the same way. */
  ghost predicate SameClosed(ps: map<DebitId, Payment>, qs: map<DebitId, Payment>) {
    forall d :: d in ps && ps[d].closing != Open ==> d in qs && qs[d].closing == ps[d].closing
  }

  ghost predicate SameClosings(ps: map<DebitId, Payment>, qs: map<DebitId, Payment>) {
    forall d :: d in ps ==> d in qs && qs[d].closing == ps[d].closing
  }

  lemma DebitsStay(s: State, a: Action)
    requires GatewayInv(s) && Enabled(s, a)
    ensures SameDebits(s.core.payments, CoreAfter(s, a).payments)
    ensures SameClosed(s.core.payments, CoreAfter(s, a).payments)
  {
    hide GatewayInv, Enabled, CoreAfter, Step, MoveAfter, Actor, ClaimsEvolve, PaymentsEvolve;
    StepCore(s, a);
    StepEvolves(s, a);
    EvolvedDebits(s.core.payments, CoreAfter(s, a).payments, Actor(s, MoveAfter(s, a)));
  }

  lemma EvolvedDebits(ps: map<DebitId, Payment>, qs: map<DebitId, Payment>, actor: Option<nat>)
    requires PaymentsEvolve(ps, qs, actor)
    ensures SameDebits(ps, qs) && SameClosed(ps, qs)
  {}

  lemma CallsKeepClosings(s: State, a: Action)
    requires Enabled(s, a) && (a.CallNode? || a.NodePays? || a.NodeDrops?)
    ensures SameClosings(s.core.payments, CoreAfter(s, a).payments)
    ensures CoreAfter(s, a).payments.Keys == s.core.payments.Keys
  {
    var d := if a.CallNode? then s.procs[a.pid].d else a.d;
    var qs := CoreAfter(s, a).payments;
    assert qs == s.core.payments[d := s.core.payments[d].(fate := qs[d].fate)];
    hide Enabled, CoreAfter;
  }

  /** Outside closings no debit changes its net effect. */
  lemma QuietPayments(s: State, a: Action)
    requires Enabled(s, a) && ClosedBy(s, a).None? && GatewayInv(s)
    ensures SameClosings(s.core.payments, CoreAfter(s, a).payments)
    ensures !(a.StartSend? || a.StartPay? || a.StartBurn?) ==> CoreAfter(s, a).payments.Keys == s.core.payments.Keys
  {
    hide GatewayInv, CoreAfter, Enabled, ClosedBy;
    NotClosing(s, a);
    if !TouchesPayments(a) {
      OthersKeepPayments(s, a);
    } else if a.ApplyTrack? {
      NothingTracked(s, a.pid);
    } else if a.CallNode? || a.NodePays? || a.NodeDrops? {
      CallsKeepClosings(s, a);
    } else {
      StartedPayment(s, a);
    }
  }

  lemma NothingTracked(s: State, pid: nat)
    requires Enabled(s, ApplyTrack(pid)) && ClosedBy(s, ApplyTrack(pid)).None?
    ensures CoreAfter(s, ApplyTrack(pid)).payments == s.core.payments
  {}

  lemma StartedMove(s: State, a: Action)
    requires Enabled(s, a) && (a.StartSend? || a.StartPay? || a.StartBurn?)
    ensures BalanceMove(s.core.t, CoreAfter(s, a).t, MoveAfter(s, a).job) == -(a.row.amount as int)
    ensures MoveAfter(s, a).job.user == a.row.pubkey && MoveAfter(s, a).job.asset == a.row.asset
  {
    var row := a.row;
    if !a.StartBurn? {
      MarkedClient(s.core.t, row);
      hide DebitAndMark;
    }
  }

  lemma JobStays(ps: map<DebitId, Payment>, qs: map<DebitId, Payment>, j: Job, k: Job, pid: nat, move: int)
    requires JobFits(ps, j, pid) && SameClient(j, k)
    requires j.request != Background ==> Total(k) == Total(j) + move
    requires j.debit.Some? ==>
               var d := j.debit.value;
               && d in ps && d in qs && qs[d].row == ps[d].row && qs[d].owner == ps[d].owner && move == NetOf(qs[d]) - NetOf(ps[d])
    requires j.debit.None? && j.request != Background ==> move == 0
    ensures JobFits(qs, k, pid)
  {}

  lemma SameNet(ps: map<DebitId, Payment>, qs: map<DebitId, Payment>, d: DebitId)
    requires SameDebits(ps, qs) && SameClosings(ps, qs) && d in ps
    ensures d in qs && NetOf(qs[d]) == NetOf(ps[d])
  {}

  lemma DebitIsThere(s: State, pid: nat)
    requires TallyInv(s) && pid in s.jobs
    ensures s.jobs[pid].debit.Some? ==> s.jobs[pid].debit.value in s.core.payments
    ensures s.jobs[pid].debit.Some? ==> s.jobs[pid].request != Background
  {
    assert JobFits(s.core.payments, s.jobs[pid], pid);
    hide TallyInv;
  }

  lemma QuietMoveFits(s: State, a: Action, pid: nat)
    requires GatewayInv(s) && TallyInv(s) && Enabled(s, a) && pid in s.jobs && pid < s.nextPid && ClosedBy(s, a).None?
    ensures match s.jobs[pid].debit
            case Some(d) =>
              && d in s.core.payments && d in CoreAfter(s, a).payments
              && Moved(s, a, pid) == NetOf(CoreAfter(s, a).payments[d]) - NetOf(s.core.payments[d])
            case None => s.jobs[pid].request != Background ==> Moved(s, a, pid) == 0
  {
    hide Enabled, CoreAfter, MoveAfter, Actor, Debtor, GatewayInv, TallyInv, ClosedBy, Moved, NetOf, SameDebits, SameClosings, SameClosed;
    DebitIsThere(s, pid);
    DebitsStay(s, a);
    QuietMoves(s, a, pid);
    QuietPayments(s, a);
    if s.jobs[pid].debit.Some? {
      SameNet(s.core.payments, CoreAfter(s, a).payments, s.jobs[pid].debit.value);
    }
  }

  /** What a step moves for a job is what it changes about the job's debit. */
  lemma MoveFits(s: State, a: Action, pid: nat)
    requires GatewayInv(s) && TallyInv(s) && Enabled(s, a) && pid in s.jobs && pid < s.nextPid
    ensures match s.jobs[pid].debit
            case Some(d) =>
              && d in s.core.payments && d in CoreAfter(s, a).payments
              && Moved(s, a, pid) == NetOf(CoreAfter(s, a).payments[d]) - NetOf(s.core.payments[d])
            case None => s.jobs[pid].request != Background ==> Moved(s, a, pid) == 0
  {
    if ClosedBy(s, a).Some? {
      assert JobFits(s.core.payments, s.jobs[pid], pid);
      hide Enabled, CoreAfter, GatewayInv, TallyInv, ClosedBy, Moved, NetOf;
      ClosedIsThere(s, a);
      ClosingMoves(s, a, pid);
    } else {
      hide Enabled, CoreAfter, GatewayInv, TallyInv, ClosedBy, Moved, NetOf;
      QuietMoveFits(s, a, pid);
    }
  }

  lemma OldJobsFit(s: State, a: Action, pid: nat)
    requires GatewayInv(s) && TallyInv(s) && Enabled(s, a) && pid in s.jobs
    ensures pid in Step(s, a).jobs && SameClient(s.jobs[pid], Step(s, a).jobs[pid])
    ensures JobFits(Step(s, a).core.payments, Step(s, a).jobs[pid], pid)
  {
    assert JobFits(s.core.payments, s.jobs[pid], pid) && pid < s.nextPid;
    hide Enabled, Step, CoreAfter, MoveAfter, Actor, Debtor, GatewayInv, BalanceMove, TallyInv, JobFits, NetOf;
    StepCore(s, a);
    JobMoves(s, a, pid);
    DebitsStay(s, a);
    MoveFits(s, a, pid);
    JobStays(s.core.payments, CoreAfter(s, a).payments, s.jobs[pid], Step(s, a).jobs[pid], pid, Moved(s, a, pid));
  }

  lemma ClosedIsThere(s: State, a: Action)
    requires GatewayInv(s) && Enabled(s, a) && ClosedBy(s, a).Some?
    ensures ClosedBy(s, a).value in s.core.payments
  {
    if a.Unreserve? {
      KnownReserving(s, a.pid);
    }
    hide GatewayInv;
  }

  // ---- The whole tally over a step -----------------------------------------------------------

  predicate Starts(a: Action) {
    a.StartSend? || a.StartPay? || a.StartBurn?
  }

  /** Every program starts with one of six actions. */
  predicate BeginsQuietly(a: Action) {
    a.StartMint? || a.IssueKey? || a.StartReconcile? || a.StartRecovery?
  }

  lemma QuietBeginning(s: State, a: Action)
    requires Enabled(s, a) && BeginsQuietly(a)
    ensures MoveAfter(s, a).Begin? && Debtor(s, a).None?
    ensures var j := MoveAfter(s, a).job;
            j.debit.None? && !Debits(j.request) && Total(j) == 0 && (j.request != Background ==> a.StartMint? || a.IssueKey?)
  {
    hide Enabled, TryCharge;
  }

  /** A program started without a debit is for no debiting request. */
  lemma QuietJob(s: State, a: Action)
    requires Enabled(s, a) && MoveAfter(s, a).Begin? && !Starts(a)
    ensures BeginsQuietly(a) && Debtor(s, a).None?
    ensures var j := MoveAfter(s, a).job;
            j.debit.None? && !Debits(j.request) && Total(j) == 0 && (j.request != Background ==> a.StartMint? || a.IssueKey?)
  {
    hide Enabled, MoveAfter, Debtor;
    if BeginsQuietly(a) {
      QuietBeginning(s, a);
    } else {
      NeverBegins(s, a);
    }
  }

  lemma NeverBegins(s: State, a: Action)
    requires Enabled(s, a) && !Starts(a) && !BeginsQuietly(a)
    ensures !MoveAfter(s, a).Begin?
  {
    hide Enabled, TryCharge;
  }

  lemma NewJobFitsWith(ps: map<DebitId, Payment>, qs: map<DebitId, Payment>, row: InFlightRow, d: DebitId, j: Job, k: Job,
                       pid: nat, move: int)
    requires qs == ps[d := Payment(row, pid, Open, Unsent)] && j.debit == Some(d)
    requires j.user == row.pubkey && j.asset == row.asset && Debits(j.request) && row.kind == KindFor(j.request)
    requires j.request == PayRequest ==> row.amount > 0
    requires Total(j) == 0 && move == -(row.amount as int) && SameClient(j, k) && Total(k) == Total(j) + move
    ensures JobFits(qs, k, pid)
  {}

  /** A new job starts with the debit it makes, or with none. */
  lemma NewJobFits(s: State, a: Action)
    requires GatewayInv(s) && Enabled(s, a) && MoveAfter(s, a).Begin?
    ensures s.nextPid in Step(s, a).jobs && Step(s, a).nextPid == s.nextPid + 1
    ensures SameClient(MoveAfter(s, a).job, Step(s, a).jobs[s.nextPid])
    ensures JobFits(Step(s, a).core.payments, Step(s, a).jobs[s.nextPid], s.nextPid)
  {
    hide GatewayInv, Enabled, CoreAfter, Step, BalanceMove, MoveAfter, JobFits;
    StepCore(s, a);
    if Starts(a) {
      NewJob(s, a);
      StartedPayment(s, a);
      StartedMove(s, a);
      StartedJob(s, a);
      var d := if a.StartBurn? then BurnOf(s.nextPid) else Row(s.core.t.nextId);
      var j := MoveAfter(s, a).job;
      NewJobFitsWith(s.core.payments, CoreAfter(s, a).payments, a.row, d, j, Step(s, a).jobs[s.nextPid], s.nextPid,
                     BalanceMove(s.core.t, CoreAfter(s, a).t, j));
    } else {
      QuietJob(s, a);
      NewJob(s, a);
      if a.StartMint? || a.IssueKey? {
        OthersKeepBalances(s, a);
        NoMove(s.core.t, CoreAfter(s, a).t, MoveAfter(s, a).job);
      }
      NoDebitFits(CoreAfter(s, a).payments, MoveAfter(s, a).job, Step(s, a).jobs[s.nextPid], s.nextPid);
    }
  }

  lemma NoDebitFits(ps: map<DebitId, Payment>, j: Job, k: Job, pid: nat)
    requires j.debit.None? && !Debits(j.request) && SameClient(j, k) && (j.request != Background ==> Total(k) == 0)
    ensures JobFits(ps, k, pid)
  {}

  lemma NoMove(t: Tables, after: Tables, j: Job)
    requires after.balances == t.balances
    ensures BalanceMove(t, after, j) == 0
  {}

  lemma StartedJob(s: State, a: Action)
    requires Enabled(s, a) && (a.StartSend? || a.StartPay? || a.StartBurn?)
    ensures var j := MoveAfter(s, a).job;
            && j.debit == Some(if a.StartBurn? then BurnOf(s.nextPid) else Row(s.core.t.nextId))
            && Debits(j.request) && a.row.kind == KindFor(j.request) && Total(j) == 0
            && (j.request == PayRequest ==> a.row.amount > 0)
  {}

  lemma NewDebitsFit(s: State, a: Action, d: DebitId)
    requires GatewayInv(s) && TallyInv(s) && Enabled(s, a) && d in CoreAfter(s, a).payments && d !in s.core.payments
    ensures MoveAfter(s, a).Begin? && MoveAfter(s, a).job.debit == Some(d) && CoreAfter(s, a).payments[d].owner == s.nextPid
  {
    hide GatewayInv, TallyInv, Enabled, CoreAfter, ClosedBy;
    if ClosedBy(s, a).Some? {
      ClosedIsThere(s, a);
      ClosingMatches(s, a);
    } else {
      QuietPayments(s, a);
      StartedPayment(s, a);
      StartedJob(s, a);
    }
    hide ClosesOne;
  }

  lemma EveryJobFits(s: State, a: Action)
    requires GatewayInv(s) && TallyInv(s) && Enabled(s, a)
    ensures forall pid :: pid in Step(s, a).jobs ==>
              pid < Step(s, a).nextPid && JobFits(Step(s, a).core.payments, Step(s, a).jobs[pid], pid)
  {
    assert forall pid :: pid in s.jobs ==> pid < s.nextPid;
    hide GatewayInv, Enabled, CoreAfter, Step, MoveAfter, TallyInv, JobFits;
    JobsShape(s, a);
    forall pid | pid in Step(s, a).jobs
      ensures pid < Step(s, a).nextPid && JobFits(Step(s, a).core.payments, Step(s, a).jobs[pid], pid)
    {
      if pid in s.jobs {
        OldJobsFit(s, a, pid);
      } else {
        NewJobFits(s, a);
      }
    }
  }

  lemma EveryDebitHasItsJob(s: State, a: Action, d: DebitId)
    requires GatewayInv(s) && TallyInv(s) && Enabled(s, a) && d in Step(s, a).core.payments
    ensures var owner := Step(s, a).core.payments[d].owner;
            owner in Step(s, a).jobs && Step(s, a).jobs[owner].debit == Some(d)
  {
    if d in s.core.payments {
      assert s.core.payments[d].owner in s.jobs && s.jobs[s.core.payments[d].owner].debit == Some(d);
    }
    hide GatewayInv, Enabled, CoreAfter, Step, MoveAfter, TallyInv, JobFits;
    StepCore(s, a);
    DebitsStay(s, a);
    if d in s.core.payments {
      OldJobsFit(s, a, s.core.payments[d].owner);
    } else {
      NewDebitsFit(s, a, d);
      NewJobFits(s, a);
    }
  }

  lemma JobsKeepFit(s: State, a: Action)
    requires GatewayInv(s) && TallyInv(s) && Enabled(s, a)
    ensures JobsFit(Step(s, a).core.payments, Step(s, a).jobs, Step(s, a).nextPid)
  {
    hide GatewayInv, Enabled, Step, TallyInv, JobFits;
    EveryJobFits(s, a);
    var after := Step(s, a);
    forall d | d in after.core.payments
      ensures after.core.payments[d].owner in after.jobs && after.jobs[after.core.payments[d].owner].debit == Some(d)
    {
      EveryDebitHasItsJob(s, a, d);
    }
  }

  /** Where a step leads, its program fits; who is answered has closed its debit. */
  ghost predicate LandsFit(qs: map<DebitId, Payment>, jobs: map<nat, Job>, m: Move) {
    match m
    case Begin(job, p) => ProcFits(qs, job, p)
    case Go(pid, p) => pid in jobs && ProcFits(qs, jobs[pid], p)
    case Finish(pid, reply) => pid in jobs && AnswerFits(qs, jobs[pid], reply)
    case _ => true
  }

  lemma MoveLandsFit(s: State, a: Action)
    requires GatewayInv(s) && TallyInv(s) && Enabled(s, a)
    ensures LandsFit(CoreAfter(s, a).payments, s.jobs, MoveAfter(s, a))
  {
    hide GatewayInv, TallyInv, Enabled, CoreAfter, MoveAfter, LandsFit;
    if a.CloseDebit? {
      CloseLandsFit(s, a.pid, a.txid);
    } else if a.Unreserve? {
      UnreserveLandsFit(s, a.pid);
    } else if a.ReturnCharge? {
      ReturnLandsFit(s, a.pid);
    } else if a.ChargeStep? {
      ChargeLandsFit(s, a.pid);
    } else if MoveAfter(s, a).Begin? {
      BeginLandsFit(s, a);
    } else {
      OthersLandFit(s, a);
    }
  }

  lemma ClosedNow(qs: map<DebitId, Payment>, job: Job, d: DebitId)
    requires job.debit == Some(d) && d in qs && qs[d].closing != Open && job.request != Background
    ensures AnswerFits(qs, job, Success)
    ensures qs[d].closing == Refunded || job.request == PayRequest ==> AnswerFits(qs, job, Failure)
    ensures qs[d].closing == Refunded && job.request != PayRequest ==> forall amount :: ProcFits(qs, job, FeeBack(amount))
  {}

  /** Only a Lightning payment can be closed under its handler, and it is never charged. */
  lemma RefusedOpen(s: State, pid: nat)
    requires GatewayInv(s) && pid in s.procs && s.procs[pid].Refused?
    ensures pid in s.jobs && s.procs[pid].d in s.core.payments
    ensures s.jobs[pid].request != PayRequest ==> s.core.payments[s.procs[pid].d].closing == Open
    ensures s.procs[pid].charge.Some? ==> s.jobs[pid].request != PayRequest
  {
    KnownReserving(s, pid);
    hide GatewayInv;
  }

  lemma OnOwnDebit(s: State, pid: nat)
    requires TallyInv(s) && pid in s.procs && OnDebit(s.procs[pid])
    ensures pid in s.jobs && s.jobs[pid].debit == Some(s.procs[pid].d) && s.jobs[pid].request != Background
  {
    assert ProcFits(s.core.payments, s.jobs[pid], s.procs[pid]);
    assert JobFits(s.core.payments, s.jobs[pid], pid);
    hide TallyInv;
  }

  lemma CloseLandsFit(s: State, pid: nat, txid: string)
    requires GatewayInv(s) && TallyInv(s) && Enabled(s, CloseDebit(pid, txid))
    ensures LandsFit(CoreAfter(s, CloseDebit(pid, txid)).payments, s.jobs, MoveAfter(s, CloseDebit(pid, txid)))
  {
    hide GatewayInv, TallyInv, CoreAfter, ClosesOne, ProcFits, AnswerFits;
    OnOwnDebit(s, pid);
    CloseMatches(s, pid, txid);
    var qs, d := CoreAfter(s, CloseDebit(pid, txid)).payments, s.procs[pid].d;
    ClosedPresent(s, CoreAfter(s, CloseDebit(pid, txid)), d);
    ClosedNow(qs, s.jobs[pid], d);
    if s.procs[pid].Refused? {
      RefusedOpen(s, pid);
    }
  }

  lemma ClosedPresent(s: State, c: Core, d: DebitId)
    requires ClosesOne(s, c, d)
    ensures d in c.payments
  {}

  lemma UnreserveLandsFit(s: State, pid: nat)
    requires GatewayInv(s) && TallyInv(s) && Enabled(s, Unreserve(pid))
    ensures LandsFit(CoreAfter(s, Unreserve(pid)).payments, s.jobs, MoveAfter(s, Unreserve(pid)))
  {
    hide GatewayInv, TallyInv, CoreAfter, ClosesOne, ProcFits, AnswerFits;
    OnOwnDebit(s, pid);
    UnreserveMatches(s, pid);
    var qs, d := CoreAfter(s, Unreserve(pid)).payments, s.procs[pid].d;
    ClosedPresent(s, CoreAfter(s, Unreserve(pid)), d);
    ClosedNow(qs, s.jobs[pid], d);
  }

  lemma ReturnLandsFit(s: State, pid: nat)
    requires TallyInv(s) && Enabled(s, ReturnCharge(pid))
    ensures LandsFit(CoreAfter(s, ReturnCharge(pid)).payments, s.jobs, MoveAfter(s, ReturnCharge(pid)))
  {
    hide TallyInv, CoreAfter;
    ProcKnown(s, pid);
    OthersKeepPayments(s, ReturnCharge(pid));
  }

  lemma ChargeLandsFit(s: State, pid: nat)
    requires TallyInv(s) && Enabled(s, ChargeStep(pid))
    ensures LandsFit(CoreAfter(s, ChargeStep(pid)).payments, s.jobs, MoveAfter(s, ChargeStep(pid)))
  {
    hide TallyInv, CoreAfter, TryCharge;
    ProcKnown(s, pid);
  }

  lemma BeginLandsFit(s: State, a: Action)
    requires Enabled(s, a) && MoveAfter(s, a).Begin?
    ensures LandsFit(CoreAfter(s, a).payments, s.jobs, MoveAfter(s, a))
  {
    hide CoreAfter, Enabled;
  }

  lemma OthersLandFit(s: State, a: Action)
    requires TallyInv(s) && Enabled(s, a) && !a.CloseDebit? && !a.Unreserve? && !a.ReturnCharge? && !a.ChargeStep?
    requires !MoveAfter(s, a).Begin?
    ensures LandsFit(CoreAfter(s, a).payments, s.jobs, MoveAfter(s, a))
  {
    hide TallyInv, CoreAfter;
    var m := MoveAfter(s, a);
    if m.Go? || m.Finish? {
      ProcKnown(s, m.pid);
      WorksOn(s, a);
      hide Enabled, MoveAfter;
    }
  }

  /** A step that closes nothing keeps its program on its debit, or on none. */
  lemma WorksOn(s: State, a: Action)
    requires Enabled(s, a) && !a.CloseDebit? && !a.Unreserve? && !a.ReturnCharge? && !a.ChargeStep?
    requires MoveAfter(s, a).Go? || MoveAfter(s, a).Finish?
    ensures var m := MoveAfter(s, a);
            var p := s.procs[m.pid];
            if m.Finish? then !OnDebit(p) && !p.FeeBack?
            else if OnDebit(p) then OnDebit(m.proc) && m.proc.d == p.d
            else !p.FeeBack? && !OnDebit(m.proc)
                 && (m.proc.FeeBack? ==> p.MintDue?) && (p.MintDue? || Loops(p) || p.KeyIssued? || p.MintFeeDue?)
                 && (!m.proc.FeeBack? ==> (Loops(p) <==> Loops(m.proc)))
  {}

  lemma FitsStill(ps: map<DebitId, Payment>, qs: map<DebitId, Payment>, j: Job, k: Job, p: Proc)
    requires SameClient(j, k) && SameDebits(ps, qs) && SameClosed(ps, qs)
    ensures ProcFits(ps, j, p) ==> ProcFits(qs, k, p)
    ensures ProcFits(qs, j, p) ==> ProcFits(qs, k, p)
  {}

  lemma ProgramKeepsFit(s: State, a: Action, pid: nat)
    requires GatewayInv(s) && TallyInv(s) && Enabled(s, a) && pid in Step(s, a).procs
    ensures pid in Step(s, a).jobs && ProcFits(Step(s, a).core.payments, Step(s, a).jobs[pid], Step(s, a).procs[pid])
  {
    var ps, qs, m := s.core.payments, Step(s, a).core.payments, MoveAfter(s, a);
    hide GatewayInv, Enabled, CoreAfter, Step, MoveAfter, TallyInv, ProcFits, ClosedDebit, SameDebits, SameClosed, SameClient;
    StepCore(s, a);
    DebitsStay(s, a);
    ProcShape(s, a, pid);
    MoveLandsFit(s, a);
    if m.Begin? && pid == s.nextPid {
      NewJobFits(s, a);
      AllSame(qs);
      FitsStill(qs, qs, m.job, Step(s, a).jobs[pid], Step(s, a).procs[pid]);
    } else {
      ProcKnown(s, pid);
      OldJobsFit(s, a, pid);
      FitsStill(ps, qs, s.jobs[pid], Step(s, a).jobs[pid], Step(s, a).procs[pid]);
    }
  }

  lemma AllSame(ps: map<DebitId, Payment>)
    ensures SameDebits(ps, ps) && SameClosed(ps, ps)
  {}

  lemma AnswerStill(ps: map<DebitId, Payment>, qs: map<DebitId, Payment>, j: Job, k: Job, reply: Reply)
    requires SameClient(j, k)
    requires AnswerFits(qs, j, reply) || (AnswerFits(ps, j, reply) && SameDebits(ps, qs) && SameClosed(ps, qs))
    ensures AnswerFits(qs, k, reply)
  {}

  lemma FinishLandsFit(s: State, a: Action)
    requires GatewayInv(s) && TallyInv(s) && Enabled(s, a) && MoveAfter(s, a).Finish?
    ensures MoveAfter(s, a).pid in s.jobs
    ensures AnswerFits(CoreAfter(s, a).payments, s.jobs[MoveAfter(s, a).pid], MoveAfter(s, a).reply)
  {
    hide GatewayInv, TallyInv, Enabled, CoreAfter, MoveAfter, AnswerFits;
    MoveLandsFit(s, a);
  }

  lemma AnswerKeepsFit(s: State, a: Action, pid: nat)
    requires GatewayInv(s) && TallyInv(s) && Enabled(s, a) && pid in Step(s, a).replies
    ensures pid in Step(s, a).jobs && AnswerFits(Step(s, a).core.payments, Step(s, a).jobs[pid], Step(s, a).replies[pid])
  {
    hide GatewayInv, Enabled, CoreAfter, Step, MoveAfter, TallyInv, AnswerFits, SameDebits, SameClosed, SameClient, JobFits;
    StepCore(s, a);
    DebitsStay(s, a);
    ReplyShape(s, a, pid);
    if MoveAfter(s, a).Finish? && pid == MoveAfter(s, a).pid {
      FinishLandsFit(s, a);
    } else {
      AnswerKnown(s, pid);
    }
    OldJobsFit(s, a, pid);
    AnswerStill(s.core.payments, CoreAfter(s, a).payments, s.jobs[pid], Step(s, a).jobs[pid], Step(s, a).replies[pid]);
  }

  lemma AnswerKnown(s: State, pid: nat)
    requires TallyInv(s) && pid in s.replies
    ensures pid in s.jobs && AnswerFits(s.core.payments, s.jobs[pid], s.replies[pid])
  {}

  lemma ProgramsKeepFit(s: State, a: Action)
    requires GatewayInv(s) && TallyInv(s) && Enabled(s, a)
    ensures ProgramsFit(Step(s, a).core.payments, Step(s, a).jobs, Step(s, a).procs)
  {
    hide Enabled, Step, GatewayInv, TallyInv, ProcFits;
    var after := Step(s, a);
    forall pid | pid in after.procs
      ensures pid in after.jobs && ProcFits(after.core.payments, after.jobs[pid], after.procs[pid])
    {
      ProgramKeepsFit(s, a, pid);
    }
  }

  lemma AnswersKeepFit(s: State, a: Action)
    requires GatewayInv(s) && TallyInv(s) && Enabled(s, a)
    ensures AnswersFit(Step(s, a).core.payments, Step(s, a).jobs, Step(s, a).replies)
  {
    hide Enabled, Step, GatewayInv, TallyInv, AnswerFits;
    var after := Step(s, a);
    forall pid | pid in after.replies
      ensures pid in after.jobs && AnswerFits(after.core.payments, after.jobs[pid], after.replies[pid])
    {
      AnswerKeepsFit(s, a, pid);
    }
  }

  lemma StepKeepsTally(s: State, a: Action)
    requires GatewayInv(s) && TallyInv(s) && Enabled(s, a)
    ensures TallyInv(Step(s, a))
  {
    hide Enabled, Step, GatewayInv, JobsFit, ProgramsFit, AnswersFit;
    JobsKeepFit(s, a);
    ProgramsKeepFit(s, a);
    AnswersKeepFit(s, a);
  }

  lemma {:induction false} RunKeepsTally(s: State, run: seq<Action>)
    requires GatewayInv(s) && TallyInv(s) && CanRun(s, run)
    ensures GatewayInv(Run(s, run)) && TallyInv(Run(s, run))
    decreases |run|
  {
    if run != [] {
      hide GatewayInv, TallyInv, Enabled, Step;
      StepKeeps(s, run[0]);
      StepKeepsTally(s, run[0]);
      RunKeepsTally(Step(s, run[0]), run[1..]);
    }
  }

  lemma InitTally(policy: Policy)
    ensures TallyInv(Init(policy))
  {}

  lemma ReachableIsTallied(s: State)
    requires Reachable(s)
    ensures GatewayInv(s) && TallyInv(s)
  {
    hide GatewayInv, TallyInv, Enabled, Step;
    var run :| CanRun(Init(s.policy), run) && Run(Init(s.policy), run) == s;
    InitInv(s.policy);
    InitTally(s.policy);
    RunKeepsTally(Init(s.policy), run);
  }

  // ---- What requests cost ----------------------------------------------------------------

  /** Every debit ever made has moved its client's balance by its amount, or by nothing once
      it was refunded, counting the handler's steps and recovery's together. */
  lemma EveryDebitIsTallied(s: State, d: DebitId)
    requires Reachable(s) && d in s.core.payments
    ensures var p := s.core.payments[d];
            && p.owner in s.jobs && s.jobs[p.owner].debit == Some(d)
            && s.jobs[p.owner].user == p.row.pubkey && s.jobs[p.owner].asset == p.row.asset
            && Total(s.jobs[p.owner]) == if p.closing == Refunded then 0 else -(p.row.amount as int)
  {
    hide GatewayInv, TallyInv, Reachable;
    ReachableIsTallied(s);
    DebitKnown(s, d);
  }

  /** A send, burn or mint that was answered with a failure has cost its client no unit and
      no sat, whatever else ran in between. */
  lemma FailureCostsNothing(s: State, pid: nat)
    requires Reachable(s) && pid in s.replies && s.replies[pid] == Failure
    ensures pid in s.jobs && s.jobs[pid].sats == 0
    ensures s.jobs[pid].request != PayRequest && s.jobs[pid].request != Background ==> Total(s.jobs[pid]) == 0
  {
    hide GatewayInv, TallyInv, Reachable;
    ReachableIsTallied(s);
    FailureIsKnown(s, pid);
    JobKnown(s, pid);
  }

  lemma FailureIsKnown(s: State, pid: nat)
    requires GatewayInv(s) && TallyInv(s) && pid in s.replies && s.replies[pid] == Failure
    ensures pid in s.jobs && s.jobs[pid].sats == 0 && AnswerFits(s.core.payments, s.jobs[pid], Failure)
    ensures pid !in s.procs && pid < s.nextPid
  {
    hide CoreInv, ProcsOk, OwnersOk, Covered, JobsFit, ProgramsFit;
    AnswerKnown(s, pid);
  }

  /** A Lightning payment answered with a failure has cost its client nothing exactly when
      its debit was refunded; otherwise recovery settled it, and it cost the amount. */
  lemma FailedPaymentCost(s: State, pid: nat)
    requires Reachable(s) && pid in s.replies && s.replies[pid] == Failure
    requires pid in s.jobs && s.jobs[pid].request == PayRequest
    ensures s.jobs[pid].debit.Some? && s.jobs[pid].debit.value in s.core.payments
    ensures var p := s.core.payments[s.jobs[pid].debit.value];
            && (p.closing == Settled || p.closing == Refunded)
            && (Total(s.jobs[pid]) == 0 <==> p.closing == Refunded)
            && (Total(s.jobs[pid]) != 0 ==> Total(s.jobs[pid]) == -(p.row.amount as int))
  {
    hide GatewayInv, TallyInv, Reachable;
    ReachableIsTallied(s);
    FailureIsKnown(s, pid);
    JobKnown(s, pid);
  }
}
