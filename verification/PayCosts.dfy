/** What a Lightning payment that is answered with a failure costs: when its debit is closed
    in accord with its fate, and when recovery closes it by another payment's. */
module PayCosts {
  import opened Numbers
  import opened Ledger
  import opened LedgerLaws
  import opened GatewayCore
  import opened GatewayCoreLaws
  import opened Gateway
  import opened GatewayLaws
  import opened GatewaySteps
  import opened GatewayShapes
  import opened GatewayTheorems
  import opened GatewayHashes
  import opened GatewayTally

  // ---- Closing a debit by its own fate ------------------------------------------------

  /** A program about to settle debit `d` by its hash, or to refund it, is right to. */
  predicate KnowsFate(ps: map<DebitId, Payment>, d: DebitId, p: Proc) {
    match p
    case Tracked(id, outcome, _) => Row(id) == d && outcome == Some(Succeeded) ==> d in ps && ps[d].fate == Left
    case Refused(e, _) => e == d ==> d in ps && ps[d].fate == Dropped
    case _ => true
  }

  /** A payment answered with a failure was dropped. */
  predicate AnswerTrue(ps: map<DebitId, Payment>, job: Job, reply: Reply, d: DebitId) {
    reply == Failure && job.request == PayRequest && job.debit == Some(d) ==> d in ps && ps[d].fate == Dropped
  }

  ghost predicate ProgramsKnow(ps: map<DebitId, Payment>, d: DebitId, procs: map<nat, Proc>) {
    forall pid :: pid in procs ==> KnowsFate(ps, d, procs[pid])
  }

  ghost predicate AnswersTrue(ps: map<DebitId, Payment>, d: DebitId, jobs: map<nat, Job>, replies: map<nat, Reply>) {
    forall pid :: pid in replies ==> pid in jobs && AnswerTrue(ps, jobs[pid], replies[pid], d)
  }

  predicate ClosedTruly(ps: map<DebitId, Payment>, d: DebitId) {
    d in ps && (ps[d].closing == Settled ==> ps[d].fate == Left)
  }

  /** Debit `d` is settled only if its value left, by whatever program closes it. */
  ghost predicate Truthful(s: State, d: DebitId) {
    && ClosedTruly(s.core.payments, d)
    && ProgramsKnow(s.core.payments, d, s.procs)
    && AnswersTrue(s.core.payments, d, s.jobs, s.replies)
  }

  /** A failure reported for `d` is final, and a success tracked for it is its own. */
  predicate TrueStep(s: State, a: Action, d: DebitId)
    requires Enabled(s, a)
  {
    match a
    case NodeAnswers(pid, ok) => !ok && s.procs[pid].d == d ==> s.core.payments[d].fate == Dropped
    case TrackPayment(pid, answer) =>
      answer == Some(Succeeded) && Row(s.procs[pid].rows[0].0) == d ==> d in s.core.payments && s.core.payments[d].fate == Left
    case _ => true
  }

  lemma FatesLast(ps: map<DebitId, Payment>, qs: map<DebitId, Payment>, d: DebitId, actor: Option<nat>)
    requires PaymentsEvolve(ps, qs, actor) && d in ps
    ensures d in qs && (ps[d].fate == Left || ps[d].fate == Dropped ==> qs[d].fate == ps[d].fate)
    ensures ps[d].closing != Open ==> qs[d].closing == ps[d].closing
    ensures qs[d].row == ps[d].row && qs[d].owner == ps[d].owner
  {}

  lemma KnowsStill(ps: map<DebitId, Payment>, qs: map<DebitId, Payment>, d: DebitId, p: Proc)
    requires KnowsFate(ps, d, p) && d in ps && d in qs
    requires ps[d].fate == Left || ps[d].fate == Dropped ==> qs[d].fate == ps[d].fate
    ensures KnowsFate(qs, d, p)
  {}

  lemma AnswerStillTrue(ps: map<DebitId, Payment>, qs: map<DebitId, Payment>, j: Job, k: Job, reply: Reply, d: DebitId)
    requires AnswerTrue(ps, j, reply, d) && SameClient(j, k) && d in ps && d in qs
    requires ps[d].fate == Left || ps[d].fate == Dropped ==> qs[d].fate == ps[d].fate
    ensures AnswerTrue(qs, k, reply, d)
  {}

  /** A debit is settled by its own handler once accepted, or by recovery once tracked. */
  predicate Settles(s: State, a: Action, d: DebitId)
    requires Enabled(s, a)
  {
    match a
    case CloseDebit(pid, _) => s.procs[pid].Accepted? && s.procs[pid].d == d
    case ApplyTrack(pid) => s.procs[pid].outcome == Some(Succeeded) && Row(s.procs[pid].id) == d
    case _ => false
  }

  lemma CloseSettles(s: State, pid: nat, txid: string, d: DebitId)
    requires Enabled(s, CloseDebit(pid, txid)) && !Settles(s, CloseDebit(pid, txid), d) && d in s.core.payments
    ensures var qs := CoreAfter(s, CloseDebit(pid, txid)).payments;
            d in qs && (qs[d].closing == Settled ==> s.core.payments[d].closing == Settled)
  {
    hide SettleRow, RefundRow, Record, Credit;
    var e := s.procs[pid].d;
    if e.Row? {
      RowClosing(s.core, e.id, if s.core.payments[e].row.kind == Send then Some(txid) else None);
    }
  }

  lemma TrackSettles(s: State, pid: nat, d: DebitId)
    requires Enabled(s, ApplyTrack(pid)) && !Settles(s, ApplyTrack(pid), d) && d in s.core.payments
    ensures var qs := CoreAfter(s, ApplyTrack(pid)).payments;
            d in qs && (qs[d].closing == Settled ==> s.core.payments[d].closing == Settled)
  {
    RowClosing(s.core, s.procs[pid].id, None);
    hide SettleRow, RefundRow;
  }

  lemma UnreserveSettles(s: State, pid: nat, d: DebitId)
    requires Enabled(s, Unreserve(pid)) && d in s.core.payments
    ensures var qs := CoreAfter(s, Unreserve(pid)).payments;
            d in qs && (qs[d].closing == Settled ==> s.core.payments[d].closing == Settled)
  {
    RowClosing(s.core, s.procs[pid].d.id, None);
    hide RefundRow;
  }

  lemma OnlySettlesSettle(s: State, a: Action, d: DebitId)
    requires GatewayInv(s) && Enabled(s, a) && !Settles(s, a, d) && d in s.core.payments
    ensures var qs := CoreAfter(s, a).payments;
            d in qs && (qs[d].closing == Settled ==> s.core.payments[d].closing == Settled)
  {
    hide GatewayInv, Enabled, CoreAfter, Settles;
    if !TouchesPayments(a) {
      OthersKeepPayments(s, a);
    } else if a.CloseDebit? {
      CloseSettles(s, a.pid, a.txid, d);
    } else if a.ApplyTrack? {
      TrackSettles(s, a.pid, d);
    } else if a.Unreserve? {
      UnreserveSettles(s, a.pid, d);
    } else if a.CallNode? || a.NodePays? || a.NodeDrops? {
      CallsKeepClosings(s, a);
    } else {
      StartedPayment(s, a);
    }
  }

  lemma SettlerKnows(s: State, a: Action, d: DebitId)
    requires GatewayInv(s) && Enabled(s, a) && Settles(s, a, d) && ProgramsKnow(s.core.payments, d, s.procs)
    ensures d in s.core.payments && s.core.payments[d].fate == Left
  {
    if a.CloseDebit? {
      AcceptedLeft(s, a.pid);
    } else {
      assert KnowsFate(s.core.payments, d, s.procs[a.pid]);
    }
    hide GatewayInv, ProgramsKnow;
  }

  lemma AcceptedLeft(s: State, pid: nat)
    requires GatewayInv(s) && pid in s.procs && s.procs[pid].Accepted?
    ensures s.procs[pid].d in s.core.payments && s.core.payments[s.procs[pid].d].fate == Left
  {
    hide OwnersOk, RepliesOk, Covered, CoreInv, ProcsOk;
    Known(s, pid);
    hide GatewayInv;
  }

  lemma ClosingStaysTrue(s: State, a: Action, d: DebitId)
    requires GatewayInv(s) && Enabled(s, a) && Truthful(s, d)
    ensures ClosedTruly(Step(s, a).core.payments, d)
  {
    hide GatewayInv, Enabled, CoreAfter, Step, MoveAfter, Actor, ClaimsEvolve, PaymentsEvolve, ProgramsKnow, AnswersTrue, Settles;
    StepCore(s, a);
    StepEvolves(s, a);
    FatesLast(s.core.payments, CoreAfter(s, a).payments, d, Actor(s, MoveAfter(s, a)));
    if Settles(s, a, d) {
      SettlerKnows(s, a, d);
    } else {
      OnlySettlesSettle(s, a, d);
    }
  }

  lemma MoveKnows(s: State, a: Action, d: DebitId)
    requires Enabled(s, a) && TrueStep(s, a, d)
    ensures var m := MoveAfter(s, a);
            m.Begin? || m.Go? ==> KnowsFate(s.core.payments, d, m.proc)
  {
    if a.NodeAnswers? || a.TrackPayment? {
      hide TryCharge;
    } else {
      RestsOnNothing(s, a);
      hide MoveAfter, Enabled;
    }
  }

  lemma ProgramsStayTrue(s: State, a: Action, d: DebitId)
    requires GatewayInv(s) && Enabled(s, a) && Truthful(s, d) && TrueStep(s, a, d)
    ensures ProgramsKnow(Step(s, a).core.payments, d, Step(s, a).procs)
  {
    var m := MoveAfter(s, a);
    assert forall pid :: pid in s.procs ==> KnowsFate(s.core.payments, d, s.procs[pid]);
    hide GatewayInv, Enabled, CoreAfter, Step, MoveAfter, Actor, ClaimsEvolve, PaymentsEvolve, AnswersTrue, KnowsFate, TrueStep;
    StepCore(s, a);
    StepEvolves(s, a);
    FatesLast(s.core.payments, CoreAfter(s, a).payments, d, Actor(s, m));
    MoveKnows(s, a, d);
    forall pid | pid in Step(s, a).procs
      ensures KnowsFate(Step(s, a).core.payments, d, Step(s, a).procs[pid])
    {
      ProcShape(s, a, pid);
      KnowsStill(s.core.payments, CoreAfter(s, a).payments, d, Step(s, a).procs[pid]);
    }
  }

  /** Where a failure is answered from. */
  lemma FailsFrom(s: State, a: Action)
    requires Enabled(s, a) && MoveAfter(s, a).Finish? && MoveAfter(s, a).reply == Failure
    ensures var p := s.procs[MoveAfter(s, a).pid];
            p.MintFeeDue? || p.FeeRefused? || p.Refused? || p.FeeBack? || p.MintDue?
  {
    hide TryCharge;
  }

  lemma FinishIsTrue(s: State, a: Action, d: DebitId)
    requires GatewayInv(s) && TallyInv(s) && Enabled(s, a) && ProgramsKnow(s.core.payments, d, s.procs)
    requires MoveAfter(s, a).Finish?
    ensures var m := MoveAfter(s, a);
            m.pid in s.jobs && AnswerTrue(s.core.payments, s.jobs[m.pid], m.reply, d)
  {
    hide GatewayInv, TallyInv, Enabled, CoreAfter, MoveAfter;
    var m := MoveAfter(s, a);
    ProcKnown(s, m.pid);
    assert KnowsFate(s.core.payments, d, s.procs[m.pid]);
    if m.reply == Failure {
      FailsFrom(s, a);
      if s.procs[m.pid].FeeRefused? {
        KnownReserving(s, m.pid);
      }
    }
  }

  lemma OneAnswerStaysTrue(s: State, a: Action, d: DebitId, pid: nat)
    requires GatewayInv(s) && TallyInv(s) && Enabled(s, a) && Truthful(s, d) && pid in Step(s, a).replies
    ensures pid in Step(s, a).jobs && AnswerTrue(Step(s, a).core.payments, Step(s, a).jobs[pid], Step(s, a).replies[pid], d)
  {
    assert pid in s.replies ==> pid in s.jobs && AnswerTrue(s.core.payments, s.jobs[pid], s.replies[pid], d);
    hide GatewayInv, TallyInv, Enabled, CoreAfter, Step, MoveAfter, Actor, ClaimsEvolve, PaymentsEvolve, ProgramsKnow, AnswerTrue;
    hide SameClient, JobFits, AnswersTrue;
    ReplyShape(s, a, pid);
    if MoveAfter(s, a).Finish? && pid == MoveAfter(s, a).pid {
      FinishIsTrue(s, a, d);
    }
    StepFates(s, a, d);
    OldJobsFit(s, a, pid);
    AnswerStillTrue(s.core.payments, Step(s, a).core.payments, s.jobs[pid], Step(s, a).jobs[pid], Step(s, a).replies[pid], d);
  }

  lemma StepFates(s: State, a: Action, d: DebitId)
    requires GatewayInv(s) && Enabled(s, a) && d in s.core.payments
    ensures var qs := Step(s, a).core.payments;
            && d in qs && (s.core.payments[d].fate == Left || s.core.payments[d].fate == Dropped ==> qs[d].fate == s.core.payments[d].fate)
            && qs[d].row == s.core.payments[d].row && qs[d].owner == s.core.payments[d].owner
  {
    hide GatewayInv, Enabled, Step, MoveAfter, Actor, ClaimsEvolve, PaymentsEvolve;
    StepEvolves(s, a);
    FatesLast(s.core.payments, Step(s, a).core.payments, d, Actor(s, MoveAfter(s, a)));
  }

  lemma AnswersStayTrue(s: State, a: Action, d: DebitId)
    requires GatewayInv(s) && TallyInv(s) && Enabled(s, a) && Truthful(s, d)
    ensures AnswersTrue(Step(s, a).core.payments, d, Step(s, a).jobs, Step(s, a).replies)
  {
    hide GatewayInv, TallyInv, Enabled, Step, Truthful, AnswerTrue;
    forall pid | pid in Step(s, a).replies
      ensures pid in Step(s, a).jobs && AnswerTrue(Step(s, a).core.payments, Step(s, a).jobs[pid], Step(s, a).replies[pid], d)
    {
      OneAnswerStaysTrue(s, a, d, pid);
    }
  }

  lemma StepKeepsTruth(s: State, a: Action, d: DebitId)
    requires GatewayInv(s) && TallyInv(s) && Enabled(s, a) && Truthful(s, d) && TrueStep(s, a, d)
    ensures Truthful(Step(s, a), d)
  {
    hide GatewayInv, TallyInv, Enabled, Step, TrueStep;
    ClosingStaysTrue(s, a, d);
    ProgramsStayTrue(s, a, d);
    AnswersStayTrue(s, a, d);
  }

  // ---- A new debit --------------------------------------------------------------------

  /** No program that was there before knows a debit that was not. */
  lemma NobodyKnows(s: State, d: DebitId, pid: nat)
    requires GatewayInv(s) && d !in s.core.payments && pid in s.procs
    ensures KnowsFate(s.core.payments, d, s.procs[pid])
  {
    if s.procs[pid].Refused? {
      KnownReserving(s, pid);
      hide GatewayInv;
    } else if s.procs[pid].Tracked? {
      TrackedIsKnown(s, pid);
      hide GatewayInv;
    } else {
      hide GatewayInv;
    }
  }

  lemma TrackedIsKnown(s: State, pid: nat)
    requires GatewayInv(s) && pid in s.procs && s.procs[pid].Tracked?
    ensures Row(s.procs[pid].id) in s.core.payments
  {
    hide OwnersOk, RepliesOk, Covered, CoreInv, ProcsOk;
    Known(s, pid);
    hide GatewayInv;
  }

  lemma UnknownStill(ps: map<DebitId, Payment>, qs: map<DebitId, Payment>, d: DebitId, p: Proc)
    requires KnowsFate(ps, d, p) && d !in ps
    ensures KnowsFate(qs, d, p)
  {}

  /** A new debit is open, and nobody knows anything about it. */
  lemma NewDebitIsTrue(s: State, a: Action, d: DebitId)
    requires GatewayInv(s) && TallyInv(s) && Enabled(s, a)
    requires d in Step(s, a).core.payments && d !in s.core.payments
    ensures Truthful(Step(s, a), d)
  {
    hide GatewayInv, TallyInv, Enabled, Step, CoreAfter;
    StepCore(s, a);
    NewDebitsFit(s, a, d);
    NewDebitOpens(s, a, d);
    NewDebitProcs(s, a, d);
    NewDebitAnswers(s, a, d);
  }

  lemma NewDebitOpens(s: State, a: Action, d: DebitId)
    requires GatewayInv(s) && TallyInv(s) && Enabled(s, a) && d in CoreAfter(s, a).payments && d !in s.core.payments
    ensures Starts(a) && CoreAfter(s, a).payments[d] == Payment(a.row, s.nextPid, Open, Unsent)
  {
    hide GatewayInv, TallyInv, Enabled, CoreAfter, ClosedBy;
    if ClosedBy(s, a).Some? {
      ClosedIsThere(s, a);
      ClosingMatches(s, a);
    } else {
      QuietPayments(s, a);
      StartedPayment(s, a);
    }
    hide ClosesOne;
  }

  lemma StartsAtTheCall(s: State, a: Action)
    requires Enabled(s, a) && Starts(a)
    ensures var m := MoveAfter(s, a);
            m.Begin? && !m.proc.Refused? && !m.proc.Tracked?
  {
    hide Enabled;
  }

  lemma NewDebitProcs(s: State, a: Action, d: DebitId)
    requires GatewayInv(s) && Enabled(s, a) && Starts(a) && d !in s.core.payments
    ensures ProgramsKnow(Step(s, a).core.payments, d, Step(s, a).procs)
  {
    var qs := Step(s, a).core.payments;
    hide GatewayInv, Enabled, Step, CoreAfter, MoveAfter, KnowsFate;
    StartsAtTheCall(s, a);
    forall pid | pid in Step(s, a).procs
      ensures KnowsFate(qs, d, Step(s, a).procs[pid])
    {
      ProcShape(s, a, pid);
      if pid == s.nextPid {
        NeitherKnows(qs, d, MoveAfter(s, a).proc);
      } else {
        NobodyKnows(s, d, pid);
        UnknownStill(s.core.payments, qs, d, s.procs[pid]);
      }
    }
  }

  lemma NeitherKnows(ps: map<DebitId, Payment>, d: DebitId, p: Proc)
    requires !p.Refused? && !p.Tracked?
    ensures KnowsFate(ps, d, p)
  {}

  lemma NewDebitAnswers(s: State, a: Action, d: DebitId)
    requires GatewayInv(s) && TallyInv(s) && Enabled(s, a) && Starts(a) && d !in s.core.payments
    ensures AnswersTrue(Step(s, a).core.payments, d, Step(s, a).jobs, Step(s, a).replies)
  {
    hide GatewayInv, TallyInv, Enabled, Step, CoreAfter, MoveAfter;
    StartsAtTheCall(s, a);
    forall pid | pid in Step(s, a).replies
      ensures pid in Step(s, a).jobs && AnswerTrue(Step(s, a).core.payments, Step(s, a).jobs[pid], Step(s, a).replies[pid], d)
    {
      ReplyShape(s, a, pid);
      AnswerKnown(s, pid);
      JobKnown(s, pid);
      OldJobsFit(s, a, pid);
    }
    hide JobFits;
  }

  // ---- A hash nobody else can have paid -------------------------------------------------

  /** The debit's handler stands before the call for it. */
  predicate CallsNext(ps: map<DebitId, Payment>, procs: map<nat, Proc>, e: DebitId)
    requires e in ps
  {
    var pid := ps[e].owner;
    pid in procs && procs[pid].CallDue? && procs[pid].d == e
  }

  /** No payment but `d` under its hash is with the node, has left, or is about to be sent. */
  ghost predicate Alone(ps: map<DebitId, Payment>, procs: map<nat, Proc>, d: DebitId) {
    d in ps && forall e :: e in ps && e != d && SameHash(ps[d], ps[e]) ==> !Taken(ps[e]) && !CallsNext(ps, procs, e)
  }

  /** Nobody starts another payment of the hash, and a failure reported for `d` is final. */
  predicate SoloStep(s: State, a: Action, d: DebitId, row: InFlightRow)
    requires Enabled(s, a)
  {
    match a
    case StartPay(other) => HashOf(row).Some? ==> HashOf(other) != HashOf(row)
    case NodeAnswers(pid, ok) => !ok && s.procs[pid].d == d ==> s.core.payments[d].fate == Dropped
    case _ => true
  }

  predicate SoloRun(s: State, run: seq<Action>, d: DebitId, row: InFlightRow)
    requires CanRun(s, run)
    decreases |run|
  {
    run == [] || (SoloStep(s, run[0], d, row) && SoloRun(Step(s, run[0]), run[1..], d, row))
  }

  lemma CalledByOwner(s: State, pid: nat)
    requires GatewayInv(s) && Enabled(s, CallNode(pid))
    ensures CallsNext(s.core.payments, s.procs, s.procs[pid].d)
  {
    KnownReserving(s, pid);
    hide GatewayInv;
  }

  /** Only its own handler's call has a payment taken. */
  lemma NotTakenOtherwise(s: State, a: Action, e: DebitId)
    requires GatewayInv(s) && Enabled(s, a) && e in s.core.payments && !Taken(s.core.payments[e])
    requires !CallsNext(s.core.payments, s.procs, e)
    ensures var qs := CoreAfter(s, a).payments;
            e in qs && !Taken(qs[e])
  {
    hide GatewayInv, Enabled, CoreAfter;
    if !TouchesPayments(a) {
      OthersKeepPayments(s, a);
    } else if a.CallNode? {
      CalledByOwner(s, a.pid);
      CallShape(s, a.pid);
    } else if a.NodePays? || a.NodeDrops? {
      NodeShape(s, a);
    } else if Starts(a) {
      StartedPayment(s, a);
    } else {
      ClosingShape(s, a);
    }
  }

  lemma NodeShape(s: State, a: Action)
    requires Enabled(s, a) && (a.NodePays? || a.NodeDrops?)
    ensures a.d in s.core.payments && s.core.payments[a.d].fate == Sent
    ensures var c := CoreAfter(s, a);
            c.payments == s.core.payments[a.d := s.core.payments[a.d].(fate := if a.NodePays? then Left else Dropped)]
  {}

  /** A handler comes to stand before the call of a Lightning payment only as it starts. */
  lemma ArrivesAtCall(s: State, a: Action)
    requires Enabled(s, a) && MoveAfter(s, a).Go? && MoveAfter(s, a).proc.CallDue?
    ensures s.procs[MoveAfter(s, a).pid].FeeDue? && s.procs[MoveAfter(s, a).pid].d == MoveAfter(s, a).proc.d
  {
    hide TryCharge;
  }

  lemma StartsOwnDebit(s: State, a: Action)
    requires GatewayInv(s) && Enabled(s, a) && MoveAfter(s, a).Begin? && MoveAfter(s, a).proc.CallDue?
    ensures MoveAfter(s, a).proc.d !in s.core.payments
  {
    hide GatewayInv, Enabled, CoreAfter, MoveAfter;
    CallsAtOnce(s, a);
    StartedPayment(s, a);
    StartsOn(s, a);
  }

  lemma CallsAtOnce(s: State, a: Action)
    requires Enabled(s, a) && MoveAfter(s, a).Begin? && MoveAfter(s, a).proc.CallDue?
    ensures a.StartPay? || a.StartBurn?
  {
    hide Enabled, TryCharge;
  }

  lemma StartsOn(s: State, a: Action)
    requires Enabled(s, a) && (a.StartPay? || a.StartBurn?)
    ensures MoveAfter(s, a).Begin? && MoveAfter(s, a).proc.CallDue?
    ensures MoveAfter(s, a).proc.d == if a.StartBurn? then BurnOf(s.nextPid) else Row(s.core.t.nextId)
  {
    hide Enabled, TryCharge;
  }

  lemma NotNextOtherwise(s: State, a: Action, e: DebitId)
    requires GatewayInv(s) && Enabled(s, a) && e in s.core.payments && HashOf(s.core.payments[e].row).Some?
    requires !CallsNext(s.core.payments, s.procs, e)
    ensures e in Step(s, a).core.payments && !CallsNext(Step(s, a).core.payments, Step(s, a).procs, e)
  {
    hide GatewayInv, Enabled, CoreAfter, Step, MoveAfter, Actor, ClaimsEvolve, PaymentsEvolve;
    StepFates(s, a, e);
    var pid := s.core.payments[e].owner;
    if pid in Step(s, a).procs && Step(s, a).procs[pid].CallDue? {
      ProcShape(s, a, pid);
      var m := MoveAfter(s, a);
      if m.Begin? && pid == s.nextPid {
        StartsOwnDebit(s, a);
      } else if m.Go? && pid == m.pid {
        ArrivesAtCall(s, a);
        KnownReserving(s, pid);
      }
    }
  }

  lemma NewUnderHash(s: State, a: Action, d: DebitId, row: InFlightRow, e: DebitId)
    requires GatewayInv(s) && TallyInv(s) && Enabled(s, a) && SoloStep(s, a, d, row)
    requires e in CoreAfter(s, a).payments && e !in s.core.payments && HashOf(row).Some?
    ensures HashOf(CoreAfter(s, a).payments[e].row) != HashOf(row)
  {
    hide GatewayInv, TallyInv, CoreAfter;
    NewDebitOpens(s, a, e);
    hide SoloStep;
    if a.StartPay? {
      assert SoloStep(s, a, d, row);
      SoloStart(s, a, d, row);
    }
  }

  lemma SoloStart(s: State, a: Action, d: DebitId, row: InFlightRow)
    requires Enabled(s, a) && a.StartPay? && SoloStep(s, a, d, row) && HashOf(row).Some?
    ensures HashOf(a.row) != HashOf(row)
  {
    hide Enabled;
  }

  lemma StaysAlone(s: State, a: Action, d: DebitId, e: DebitId)
    requires GatewayInv(s) && TallyInv(s) && Enabled(s, a) && Alone(s.core.payments, s.procs, d)
    requires SoloStep(s, a, d, s.core.payments[d].row)
    requires e in Step(s, a).core.payments && e != d && d in Step(s, a).core.payments
    requires SameHash(Step(s, a).core.payments[d], Step(s, a).core.payments[e])
    ensures !Taken(Step(s, a).core.payments[e]) && !CallsNext(Step(s, a).core.payments, Step(s, a).procs, e)
  {
    hide GatewayInv, TallyInv, Enabled, CoreAfter, Step, SoloStep;
    StepCore(s, a);
    StepFates(s, a, d);
    if e in s.core.payments {
      StepFates(s, a, e);
      NotTakenOtherwise(s, a, e);
      NotNextOtherwise(s, a, e);
    } else {
      NewUnderHash(s, a, d, s.core.payments[d].row, e);
    }
  }

  lemma AloneIf(ps: map<DebitId, Payment>, procs: map<nat, Proc>, d: DebitId)
    requires d in ps && forall e :: e in ps && e != d && SameHash(ps[d], ps[e]) ==> !Taken(ps[e]) && !CallsNext(ps, procs, e)
    ensures Alone(ps, procs, d)
  {}

  lemma AloneIsThere(s: State, d: DebitId)
    requires Alone(s.core.payments, s.procs, d)
    ensures d in s.core.payments
  {}

  lemma StepKeepsAlone(s: State, a: Action, d: DebitId)
    requires GatewayInv(s) && TallyInv(s) && Enabled(s, a) && Alone(s.core.payments, s.procs, d)
    requires SoloStep(s, a, d, s.core.payments[d].row)
    ensures Alone(Step(s, a).core.payments, Step(s, a).procs, d)
  {
    hide GatewayInv, TallyInv, Enabled, Step, SoloStep, Taken, CallsNext, SameHash, Alone;
    AloneIsThere(s, d);
    StepFates(s, a, d);
    var qs := Step(s, a).core.payments;
    forall e | e in qs && e != d && SameHash(qs[d], qs[e])
      ensures !Taken(qs[e]) && !CallsNext(qs, Step(s, a).procs, e)
    {
      StaysAlone(s, a, d, e);
    }
    AloneIf(qs, Step(s, a).procs, d);
  }

  /** What is tracked under the hash of a payment that is alone is that payment's own fate. */
  lemma TracksItself(s: State, pid: nat, d: DebitId)
    requires GatewayInv(s) && HashesTell(s.core.payments, s.core.hashes) && Alone(s.core.payments, s.procs, d)
    requires Asks(s, pid, Succeeded) && Asked(s, pid) == d
    ensures d in s.core.payments && s.core.payments[d].fate == Left
  {
    hide GatewayInv;
    KnownLoop(s, pid);
    var row := s.procs[pid].rows[0];
    assert KnownRow(s.core.payments, row);
    var h := HashOf(row.1).value;
    var e :| TakenUnder(s.core.payments, e, h);
    assert Tells(s.core.payments[e], s.core.hashes);
    hide HashesTell;
  }

  lemma SoloIsTrue(s: State, a: Action, d: DebitId)
    requires GatewayInv(s) && HashesTell(s.core.payments, s.core.hashes) && Alone(s.core.payments, s.procs, d)
    requires Enabled(s, a) && SoloStep(s, a, d, s.core.payments[d].row)
    ensures TrueStep(s, a, d)
  {
    hide GatewayInv, HashesTell, Alone, Asks;
    if a.TrackPayment? && a.answer == Some(Succeeded) && Row(s.procs[a.pid].rows[0].0) == d {
      TrackingAsks(s, a.pid, a.answer);
      TracksItself(s, a.pid, d);
    }
  }

  ghost predicate SoloInv(s: State, d: DebitId) {
    && GatewayInv(s) && TallyInv(s) && HashesTell(s.core.payments, s.core.hashes)
    && Alone(s.core.payments, s.procs, d) && Truthful(s, d)
  }

  lemma {:induction false} SoloRunKeeps(s: State, run: seq<Action>, d: DebitId)
    requires SoloInv(s, d) && CanRun(s, run) && SoloRun(s, run, d, s.core.payments[d].row)
    ensures SoloInv(Run(s, run), d)
    ensures Run(s, run).core.payments[d].row == s.core.payments[d].row && Run(s, run).core.payments[d].owner == s.core.payments[d].owner
    decreases |run|
  {
    if run != [] {
      var a := run[0];
      hide GatewayInv, TallyInv, HashesTell, Alone, Truthful, Enabled, Step, SoloStep;
      SoloIsTrue(s, a, d);
      StepKeeps(s, a);
      StepKeepsTally(s, a);
      StepTells(s, a);
      StepKeepsTruth(s, a, d);
      StepKeepsAlone(s, a, d);
      AloneIsThere(s, d);
      StepFates(s, a, d);
      SoloRunKeeps(Step(s, a), run[1..], d);
    }
  }

  /** Before a payment starts: its hash is not busy at the node, and no handler is about to
      have it paid. */
  ghost predicate FreeToPay(s: State, row: InFlightRow) {
    && !BusyHash(s.core, row)
    && (HashOf(row).Some? ==> forall pid :: pid in s.procs ==> !CallsFor(s, row, s.procs[pid]))
  }

  predicate CallsFor(s: State, row: InFlightRow, p: Proc) {
    p.CallDue? && p.d in s.core.payments && HashOf(s.core.payments[p.d].row) == HashOf(row)
  }

  lemma UntakenIfFree(s: State, row: InFlightRow, e: DebitId)
    requires HashesTell(s.core.payments, s.core.hashes) && FreeToPay(s, row)
    requires e in s.core.payments && HashOf(row).Some? && HashOf(s.core.payments[e].row) == HashOf(row)
    ensures !Taken(s.core.payments[e]) && !CallsNext(s.core.payments, s.procs, e)
  {
    assert Tells(s.core.payments[e], s.core.hashes);
    var pid := s.core.payments[e].owner;
    assert pid in s.procs ==> !CallsFor(s, row, s.procs[pid]);
    hide HashesTell;
  }

  lemma StartsAlone(s: State, row: InFlightRow, e: DebitId)
    requires GatewayInv(s) && HashesTell(s.core.payments, s.core.hashes)
    requires Enabled(s, StartPay(row)) && FreeToPay(s, row)
    ensures var after, d := Step(s, StartPay(row)), Row(s.core.t.nextId);
            && d in after.core.payments && after.core.payments[d] == Payment(row, s.nextPid, Open, Unsent)
            && d !in s.core.payments
            && (e in after.core.payments && e != d && SameHash(after.core.payments[d], after.core.payments[e]) ==>
                  !Taken(after.core.payments[e]) && !CallsNext(after.core.payments, after.procs, e))
  {
    hide GatewayInv, Enabled, CoreAfter, Step, HashesTell, FreeToPay;
    StepCore(s, StartPay(row));
    StartedPayment(s, StartPay(row));
    if e in s.core.payments && HashOf(row).Some? && HashOf(s.core.payments[e].row) == HashOf(row) {
      UntakenIfFree(s, row, e);
      NotTakenOtherwise(s, StartPay(row), e);
      NotNextOtherwise(s, StartPay(row), e);
    }
  }

  lemma StartIsSolo(s: State, row: InFlightRow)
    requires GatewayInv(s) && TallyInv(s) && HashesTell(s.core.payments, s.core.hashes)
    requires Enabled(s, StartPay(row)) && FreeToPay(s, row)
    ensures var after, d := Step(s, StartPay(row)), Row(s.core.t.nextId);
            && SoloInv(after, d) && after.core.payments[d].row == row && after.core.payments[d].owner == s.nextPid
  {
    hide GatewayInv, TallyInv, HashesTell, Truthful, Enabled, Step, FreeToPay, Taken, CallsNext, SameHash, Alone;
    var after, d := Step(s, StartPay(row)), Row(s.core.t.nextId);
    StartsAlone(s, row, d);
    StepKeeps(s, StartPay(row));
    StepKeepsTally(s, StartPay(row));
    StepTells(s, StartPay(row));
    NewDebitIsTrue(s, StartPay(row), d);
    var qs := after.core.payments;
    forall e | e in qs && e != d && SameHash(qs[d], qs[e])
      ensures !Taken(qs[e]) && !CallsNext(qs, after.procs, e)
    {
      StartsAlone(s, row, e);
    }
    AloneIf(qs, after.procs, d);
  }

  /** A truthful payment answered with a failure was refunded. */
  lemma TrueFailureIsRefunded(s: State, d: DebitId, pid: nat)
    requires GatewayInv(s) && TallyInv(s) && Truthful(s, d) && s.core.payments[d].owner == pid
    requires s.core.payments[d].row.kind == LnSend && pid in s.replies && s.replies[pid] == Failure
    ensures pid in s.jobs && Total(s.jobs[pid]) == 0 && s.core.payments[d].closing == Refunded
  {
    assert d in s.core.payments;
    assert AnswersTrue(s.core.payments, d, s.jobs, s.replies);
    hide GatewayInv, TallyInv, ProgramsKnow;
    DebitKnown(s, d);
    FailureIsKnown(s, pid);
  }

  /** A Lightning payment started while its hash is free, with nobody else starting one under
      it and only final failures reported, costs its client nothing if it is answered with
      a failure. */
  lemma FreeHashFailureCostsNothing(s: State, row: InFlightRow, run: seq<Action>)
    requires Reachable(s) && Enabled(s, StartPay(row)) && FreeToPay(s, row)
    requires var s1 := Step(s, StartPay(row)); CanRun(s1, run) && SoloRun(s1, run, Row(s.core.t.nextId), row)
    requires var after := Run(Step(s, StartPay(row)), run); s.nextPid in after.replies && after.replies[s.nextPid] == Failure
    ensures var after := Run(Step(s, StartPay(row)), run);
            s.nextPid in after.jobs && Total(after.jobs[s.nextPid]) == 0
  {
    StartedKind(s, row);
    hide GatewayInv, TallyInv, HashesTell, Truthful, Enabled, Step, FreeToPay, Reachable, Alone, SoloRun, CanRun, Run;
    ReachableIsTallied(s);
    ReachableTells(s);
    StartIsSolo(s, row);
    var s1, d := Step(s, StartPay(row)), Row(s.core.t.nextId);
    SoloRunKeeps(s1, run, d);
    TrueFailureIsRefunded(Run(s1, run), d, s.nextPid);
  }

  lemma StartedKind(s: State, row: InFlightRow)
    requires Enabled(s, StartPay(row))
    ensures row.kind == LnSend && row.amount > 0 && DebitAndMark(s.core.t, row).Ok?
  {}

  // ---- Building runs --------------------------------------------------------------------

  /** The run ends with the payment settled although it was dropped, and its handler told
      its client that it failed. */
  predicate EndsUnpaid(s: State, run: seq<Action>, pid: nat, d: DebitId, row: InFlightRow) {
    && CanRun(s, run) && SoloRun(s, run, d, row)
    && var after := Run(s, run);
       && pid in after.replies && after.replies[pid] == Failure
       && d in after.core.payments && after.core.payments[d].closing == Settled && after.core.payments[d].fate == Dropped
       && after.core.payments[d].row == row && after.core.payments[d].owner == pid
  }

  lemma EndsSooner(s: State, a: Action, rest: seq<Action>, pid: nat, d: DebitId, row: InFlightRow)
    requires Enabled(s, a) && SoloStep(s, a, d, row) && EndsUnpaid(Step(s, a), rest, pid, d, row)
    ensures EndsUnpaid(s, [a] + rest, pid, d, row)
  {
    hide Enabled, Step, SoloStep;
    assert ([a] + rest)[1..] == rest;
  }

  lemma EndsNow(s: State, pid: nat, d: DebitId, row: InFlightRow)
    requires pid in s.replies && s.replies[pid] == Failure
    requires d in s.core.payments && s.core.payments[d].closing == Settled && s.core.payments[d].fate == Dropped
    requires s.core.payments[d].row == row && s.core.payments[d].owner == pid
    ensures EndsUnpaid(s, [], pid, d, row)
  {}
}
