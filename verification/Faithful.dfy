/** When the ledger stays solvent, and how it stops being so: a node refusal must mean that
    nothing left, and no Lightning invoice may be tried twice. */
module Faithful {
  import opened Numbers
  import opened MapSum
  import opened Ledger
  import opened LedgerLaws
  import opened GatewayCore
  import opened GatewayCoreLaws
  import opened Gateway
  import opened GatewayLaws
  import opened GatewaySteps
  import opened GatewayShapes
  import opened GatewayTheorems
  import opened GatewayHashes

  /** A failure reported to a handler is final, and a Lightning payment has a hash no
      earlier payment had. */
  predicate FaithfulStep(s: State, a: Action)
    requires Enabled(s, a)
  {
    match a
    case NodeAnswers(pid, ok) => ok || s.core.payments[s.procs[pid].d].fate == Dropped
    case StartPay(row) =>
      HashOf(row).Some? ==> forall d :: d in s.core.payments ==> HashOf(s.core.payments[d].row) != HashOf(row)
    case _ => true
  }

  // ---- The extra invariant ------------------------------------------------------------

  predicate HashFits(p: Payment, hashes: map<string, HashStatus>) {
    var h := HashOf(p.row);
    h.Some? ==>
      match p.fate
      case Unsent => h.value !in hashes
      case Sent => h.value in hashes && hashes[h.value] == InTransit
      case Left => h.value in hashes && hashes[h.value] == Succeeded
      case Dropped => h.value in hashes && hashes[h.value] == Failed
  }

  /** The node's memory of hashes is about one payment each. */
  ghost predicate HashesTrue(ps: map<DebitId, Payment>, hashes: map<string, HashStatus>) {
    && (forall d :: d in ps ==> HashFits(ps[d], hashes))
    && (forall d, e :: d in ps && e in ps && HashOf(ps[d].row).Some? && HashOf(ps[d].row) == HashOf(ps[e].row) ==> d == e)
    && (forall h :: h in hashes ==> exists d :: d in ps && HashOf(ps[d].row) == Some(h))
  }

  predicate RefundFits(p: Payment, running: set<nat>) {
    p.closing == Refunded ==> p.fate == Dropped || (p.fate == Unsent && p.owner !in running)
  }

  /** What was refunded has not left, and will not. */
  ghost predicate RefundsBacked(ps: map<DebitId, Payment>, running: set<nat>) {
    forall d :: d in ps ==> RefundFits(ps[d], running)
  }

  /** A program about to refund has reason to. */
  predicate ProcBacked(ps: map<DebitId, Payment>, p: Proc) {
    match p
    case Refused(d, _) => d in ps && ps[d].fate == Dropped
    case Tracked(id, outcome, _) => outcome == Some(Failed) ==> Row(id) in ps && ps[Row(id)].fate == Dropped
    case _ => true
  }

  ghost predicate ProcsBacked(ps: map<DebitId, Payment>, procs: map<nat, Proc>) {
    forall pid :: pid in procs ==> ProcBacked(ps, procs[pid])
  }

  ghost predicate FaithfulInv(s: State) {
    && HashesTrue(s.core.payments, s.core.hashes)
    && RefundsBacked(s.core.payments, s.procs.Keys)
    && ProcsBacked(s.core.payments, s.procs)
  }

  // ---- Changes to one payment ------------------------------------------------------------

  lemma AddPayment(ps: map<DebitId, Payment>, hashes: map<string, HashStatus>, d: DebitId, p: Payment)
    requires HashesTrue(ps, hashes) && d !in ps && p.fate == Unsent
    requires HashOf(p.row).Some? ==> forall e :: e in ps ==> HashOf(ps[e].row) != HashOf(p.row)
    ensures HashesTrue(ps[d := p], hashes)
  {
    var qs := ps[d := p];
    forall h | h in hashes
      ensures exists e :: e in qs && HashOf(qs[e].row) == Some(h)
    {
      var e :| e in ps && HashOf(ps[e].row) == Some(h);
      assert e in qs && HashOf(qs[e].row) == Some(h);
    }
  }

  lemma ClosePayment(ps: map<DebitId, Payment>, hashes: map<string, HashStatus>, d: DebitId, closing: Closing)
    requires HashesTrue(ps, hashes) && d in ps
    ensures HashesTrue(ps[d := ps[d].(closing := closing)], hashes)
  {
    var qs := ps[d := ps[d].(closing := closing)];
    forall h | h in hashes
      ensures exists e :: e in qs && HashOf(qs[e].row) == Some(h)
    {
      var e :| e in ps && HashOf(ps[e].row) == Some(h);
      assert e in qs && HashOf(qs[e].row) == Some(h);
    }
  }

  lemma OtherHashesFit(ps: map<DebitId, Payment>, hashes: map<string, HashStatus>, d: DebitId, fate: Fate, e: DebitId)
    requires HashesTrue(ps, hashes) && d in ps && e in ps && d != e
    ensures HashFits(ps[e], HashesAfter(hashes, ps[d].row, fate))
  {
    assert HashFits(ps[e], hashes);
    assert HashOf(ps[d].row).None? || HashOf(ps[d].row) != HashOf(ps[e].row);
    hide HashesTrue, HashOf;
  }

  /** A fate set together with the hash's status. */
  lemma MovePayment(ps: map<DebitId, Payment>, hashes: map<string, HashStatus>, d: DebitId, fate: Fate)
    requires HashesTrue(ps, hashes) && d in ps && fate != Unsent
    ensures HashesTrue(ps[d := ps[d].(fate := fate)], HashesAfter(hashes, ps[d].row, fate))
  {
    var qs, h, after := ps[d := ps[d].(fate := fate)], HashOf(ps[d].row), HashesAfter(hashes, ps[d].row, fate);
    forall e | e in qs
      ensures HashFits(qs[e], after)
    {
      if e != d {
        OtherHashesFit(ps, hashes, d, fate, e);
      }
    }
    forall g | g in after
      ensures exists e :: e in qs && HashOf(qs[e].row) == Some(g)
    {
      if h == Some(g) {
        assert d in qs && HashOf(qs[d].row) == Some(g);
      } else {
        var e :| e in ps && HashOf(ps[e].row) == Some(g);
        assert e in qs && HashOf(qs[e].row) == Some(g);
      }
    }
    hide HashFits, HashOf;
  }

  /** Whatever has been dropped stays dropped, so what programs know stays true. */
  lemma BackingStays(ps: map<DebitId, Payment>, qs: map<DebitId, Payment>, actor: Option<nat>, procs: map<nat, Proc>)
    requires PaymentsEvolve(ps, qs, actor) && ProcsBacked(ps, procs)
    ensures ProcsBacked(qs, procs)
  {}

  /** With refunds recorded nowhere anew, those recorded stay backed: their payments can
      be sent only by owners that have ended. */
  lemma RefundsStay(ps: map<DebitId, Payment>, qs: map<DebitId, Payment>, actor: Option<nat>, running: set<nat>, after: set<nat>)
    requires PaymentsEvolve(ps, qs, actor) && RefundsBacked(ps, running)
    requires NoneRefunded(ps, qs)
    requires actor.Some? ==> actor.value in running || forall d :: d in ps ==> ps[d].owner != actor.value
    requires forall pid :: pid in after ==> pid in running || forall d :: d in ps ==> ps[d].owner != pid
    ensures RefundsBacked(qs, after)
  {}

  // ---- Steps ----------------------------------------------------------------------------

  lemma StartHashes(s: State, a: Action)
    requires GatewayInv(s) && FaithfulInv(s) && Enabled(s, a) && FaithfulStep(s, a)
    requires a.StartSend? || a.StartPay? || a.StartBurn?
    ensures HashesTrue(CoreAfter(s, a).payments, CoreAfter(s, a).hashes)
  {
    var d := if a.StartBurn? then BurnOf(s.nextPid) else Row(s.core.t.nextId);
    assert d !in s.core.payments;
    hide HashesTrue, RefundsBacked, ProcsBacked, GatewayInv, Debit, DebitAndMark;
    AddPayment(s.core.payments, s.core.hashes, d, Payment(a.row, s.nextPid, Open, Unsent));
    assert a.StartBurn? || DebitAndMark(s.core.t, a.row).value.1 == s.core.t.nextId by {
      MarkedId(s.core.t, a.row);
    }
  }

  lemma CallHashes(s: State, pid: nat)
    requires GatewayInv(s) && FaithfulInv(s) && Enabled(s, CallNode(pid))
    ensures var after := CoreAfter(s, CallNode(pid));
            HashesTrue(after.payments, after.hashes)
  {
    hide CoreInv, ProcsOk, RepliesOk, Covered, OwnersOk, RefundsBacked, ProcsBacked, MadeDebit;
    KnownReserving(s, pid);
    var d := s.procs[pid].d;
    assert HashFits(s.core.payments[d], s.core.hashes);
    hide HashesTrue;
    MovePayment(s.core.payments, s.core.hashes, d, Sent);
  }

  lemma NodeHashes(s: State, a: Action)
    requires FaithfulInv(s) && Enabled(s, a) && (a.NodePays? || a.NodeDrops?)
    ensures HashesTrue(CoreAfter(s, a).payments, CoreAfter(s, a).hashes)
  {
    hide RefundsBacked, ProcsBacked, HashesTrue;
    MovePayment(s.core.payments, s.core.hashes, a.d, if a.NodePays? then Left else Dropped);
  }

  lemma StepHashes(s: State, a: Action)
    requires GatewayInv(s) && FaithfulInv(s) && Enabled(s, a) && FaithfulStep(s, a)
    ensures HashesTrue(Step(s, a).core.payments, Step(s, a).core.hashes)
  {
    StepCore(s, a);
    hide GatewayInv, Enabled, Step, CoreAfter, HashesTrue, RefundsBacked, ProcsBacked;
    if !TouchesPayments(a) {
      OthersKeepPayments(s, a);
    } else if a.StartSend? || a.StartPay? || a.StartBurn? {
      StartHashes(s, a);
    } else if a.CallNode? {
      CallHashes(s, a.pid);
    } else if a.NodePays? || a.NodeDrops? {
      NodeHashes(s, a);
    } else {
      ClosingShape(s, a);
      var qs := CoreAfter(s, a).payments;
      if qs != s.core.payments {
        var d, closing :| d in s.core.payments && closing != Open &&
          qs == s.core.payments[d := s.core.payments[d].(closing := closing)];
        ClosePayment(s.core.payments, s.core.hashes, d, closing);
      }
    }
  }

  /** The hash a Lightning row is tracked by tells the fate of that row's own payment. */
  lemma TrackingIsTrue(s: State, pid: nat, status: HashStatus)
    requires GatewayInv(s) && FaithfulInv(s) && Asks(s, pid, status)
    ensures var d := Asked(s, pid);
            && d in s.core.payments
            && (status == Failed <==> s.core.payments[d].fate == Dropped)
            && (status == Succeeded <==> s.core.payments[d].fate == Left)
  {
    hide CoreInv, ProcsOk, RepliesOk, Covered, OwnersOk, RefundsBacked, ProcsBacked;
    KnownLoop(s, pid);
    var row := s.procs[pid].rows[0];
    assert KnownRow(s.core.payments, row);
    assert HashFits(s.core.payments[Row(row.0)], s.core.hashes);
  }

  lemma AnswerIsBacked(s: State, pid: nat, ok: bool)
    requires Enabled(s, NodeAnswers(pid, ok)) && FaithfulStep(s, NodeAnswers(pid, ok))
    ensures ProcBacked(s.core.payments, MoveAfter(s, NodeAnswers(pid, ok)).proc)
  {}

  lemma TrackIsBacked(s: State, pid: nat, answer: Option<HashStatus>)
    requires GatewayInv(s) && FaithfulInv(s) && Enabled(s, TrackPayment(pid, answer))
    ensures ProcBacked(s.core.payments, MoveAfter(s, TrackPayment(pid, answer)).proc)
  {
    hide GatewayInv, HashesTrue, RefundsBacked, ProcsBacked;
    if answer == Some(Failed) {
      TrackingAsks(s, pid, answer);
      TrackingIsTrue(s, pid, Failed);
    }
  }

  /** The acting program's new position is backed, if it is one that needs backing. */
  lemma MoveIsBacked(s: State, a: Action)
    requires GatewayInv(s) && FaithfulInv(s) && Enabled(s, a) && FaithfulStep(s, a)
    ensures var m := MoveAfter(s, a);
            m.Begin? || m.Go? ==> ProcBacked(s.core.payments, m.proc)
  {
    hide GatewayInv, HashesTrue, RefundsBacked, ProcsBacked, Enabled, MoveAfter, FaithfulStep;
    if a.NodeAnswers? {
      AnswerIsBacked(s, a.pid, a.ok);
    } else if a.TrackPayment? {
      TrackIsBacked(s, a.pid, a.answer);
    } else {
      RestsOnNothing(s, a);
    }
  }

  lemma BackedAfter(ps: map<DebitId, Payment>, s: State, a: Action)
    requires Enabled(s, a) && ProcsBacked(ps, s.procs)
    requires var m := MoveAfter(s, a); m.Begin? || m.Go? ==> ProcBacked(ps, m.proc)
    ensures ProcsBacked(ps, Step(s, a).procs)
  {
    hide Enabled, CoreAfter, MoveAfter, ProcBacked, Tally;
  }

  lemma StepProcs(s: State, a: Action)
    requires GatewayInv(s) && FaithfulInv(s) && Enabled(s, a) && FaithfulStep(s, a)
    ensures ProcsBacked(Step(s, a).core.payments, Step(s, a).procs)
  {
    MoveIsBacked(s, a);
    hide GatewayInv, Enabled, HashesTrue, RefundsBacked, ProcsBacked, MoveAfter, Actor, PaymentsEvolve, ClaimsEvolve, ProcBacked;
    BackedAfter(s.core.payments, s, a);
    StepEvolves(s, a);
    BackingStays(s.core.payments, Step(s, a).core.payments, Actor(s, MoveAfter(s, a)), Step(s, a).procs);
    hide Step;
  }

  predicate Refunds(s: State, a: Action) {
    a.Unreserve? || (a.CloseDebit? && a.pid in s.procs && s.procs[a.pid].Refused?) ||
    (a.ApplyTrack? && a.pid in s.procs && s.procs[a.pid].Tracked? && s.procs[a.pid].outcome == Some(Failed))
  }

  ghost predicate NoneRefunded(ps: map<DebitId, Payment>, qs: map<DebitId, Payment>) {
    forall d :: d in qs ==> if d in ps then qs[d].closing == Refunded ==> ps[d].closing == Refunded
                            else qs[d].closing != Refunded
  }

  lemma StartsRefundNothing(s: State, a: Action)
    requires Enabled(s, a) && (a.StartSend? || a.StartPay? || a.StartBurn?)
    ensures NoneRefunded(s.core.payments, CoreAfter(s, a).payments)
  {
    var p := Payment(a.row, s.nextPid, Open, Unsent);
    var d := if a.StartBurn? then BurnOf(s.nextPid) else Row(s.core.t.nextId);
    assert CoreAfter(s, a).payments == s.core.payments[d := p] by {
      if !a.StartBurn? {
        MarkedId(s.core.t, a.row);
      }
      hide Debit, DebitAndMark;
    }
    hide Enabled, CoreAfter;
  }

  lemma CallsRefundNothing(s: State, a: Action)
    requires Enabled(s, a) && (a.CallNode? || a.NodePays? || a.NodeDrops?)
    ensures NoneRefunded(s.core.payments, CoreAfter(s, a).payments)
  {
    var d := if a.CallNode? then s.procs[a.pid].d else a.d;
    var qs := CoreAfter(s, a).payments;
    assert qs == s.core.payments[d := s.core.payments[d].(fate := qs[d].fate)];
    hide Enabled, CoreAfter;
  }

  lemma SettlingRefundsNothing(s: State, a: Action)
    requires Enabled(s, a) && !Refunds(s, a) && (a.CloseDebit? || a.ApplyTrack?)
    ensures NoneRefunded(s.core.payments, CoreAfter(s, a).payments)
  {
    if a.ApplyTrack? {
      RowClosing(s.core, s.procs[a.pid].id, None);
    } else {
      var d := s.procs[a.pid].d;
      if d.Row? {
        RowClosing(s.core, d.id, if s.core.payments[d].row.kind == Send then Some(a.txid) else None);
      }
    }
    hide SettleRow, RefundRow;
  }

  /** Only refunds make a payment refunded. */
  lemma NoNewRefunds(s: State, a: Action)
    requires GatewayInv(s) && Enabled(s, a) && !Refunds(s, a)
    ensures NoneRefunded(s.core.payments, CoreAfter(s, a).payments)
  {
    hide GatewayInv, Enabled, CoreAfter;
    if !TouchesPayments(a) {
      OthersKeepPayments(s, a);
    } else if a.CloseDebit? || a.ApplyTrack? {
      SettlingRefundsNothing(s, a);
    } else if a.CallNode? || a.NodePays? || a.NodeDrops? {
      CallsRefundNothing(s, a);
    } else {
      StartsRefundNothing(s, a);
    }
  }

  lemma RunningAfter(s: State, a: Action)
    requires Enabled(s, a)
    ensures forall pid :: pid in Step(s, a).procs ==> pid in s.procs || pid == s.nextPid
    ensures var actor := Actor(s, MoveAfter(s, a)); actor.Some? ==> actor.value in s.procs || actor.value == s.nextPid
  {
    hide Enabled, CoreAfter, MoveAfter, Tally;
  }

  lemma OtherRefunds(s: State, a: Action)
    requires GatewayInv(s) && FaithfulInv(s) && Enabled(s, a) && !Refunds(s, a)
    ensures RefundsBacked(Step(s, a).core.payments, Step(s, a).procs.Keys)
  {
    assert forall d :: d in s.core.payments ==> s.core.payments[d].owner != s.nextPid;
    StepCore(s, a);
    hide GatewayInv, Enabled, HashesTrue, RefundsBacked, ProcsBacked, MoveAfter, Actor, CoreAfter, Refunds, PaymentsEvolve, ClaimsEvolve;
    NoNewRefunds(s, a);
    RunningAfter(s, a);
    StepEvolves(s, a);
    hide Step;
    RefundsStay(s.core.payments, Step(s, a).core.payments, Actor(s, MoveAfter(s, a)), s.procs.Keys, Step(s, a).procs.Keys);
  }

  /** A refunding step refunds at most one payment, and one it may refund. */
  ghost predicate RefundsOnly(ps: map<DebitId, Payment>, qs: map<DebitId, Payment>, d: DebitId, running: set<nat>) {
    d in ps && (qs == ps || qs == ps[d := ps[d].(closing := Refunded)]) &&
    (ps[d].fate == Dropped || (ps[d].fate == Unsent && ps[d].owner !in running))
  }

  /** A refund of what was dropped, or of what its ended owner never sent, is backed. */
  lemma RefundOne(ps: map<DebitId, Payment>, qs: map<DebitId, Payment>, d: DebitId, running: set<nat>, after: set<nat>)
    requires RefundsBacked(ps, running) && after <= running && RefundsOnly(ps, qs, d, after)
    ensures RefundsBacked(qs, after)
  {}

  lemma UnreserveShape(s: State, pid: nat)
    requires GatewayInv(s) && Enabled(s, Unreserve(pid))
    ensures var after := Step(s, Unreserve(pid));
            RefundsOnly(s.core.payments, after.core.payments, s.procs[pid].d, after.procs.Keys)
  {
    hide GatewayInv, RefundRow, Tally;
    KnownReserving(s, pid);
    RowClosing(s.core, s.procs[pid].d.id, None);
  }

  lemma RefusedShape(s: State, pid: nat, txid: string, running: set<nat>)
    requires ProcsBacked(s.core.payments, s.procs) && Enabled(s, CloseDebit(pid, txid)) && s.procs[pid].Refused?
    ensures var after := CoreAfter(s, CloseDebit(pid, txid));
            RefundsOnly(s.core.payments, after.payments, s.procs[pid].d, running)
  {
    var d := s.procs[pid].d;
    assert ProcBacked(s.core.payments, s.procs[pid]);
    hide ProcsBacked;
    if d.Row? {
      RowClosing(s.core, d.id, None);
      hide RefundRow;
    }
  }

  lemma TrackedShape(s: State, pid: nat, running: set<nat>)
    requires ProcsBacked(s.core.payments, s.procs) && Enabled(s, ApplyTrack(pid)) && s.procs[pid].outcome == Some(Failed)
    ensures var after := CoreAfter(s, ApplyTrack(pid));
            RefundsOnly(s.core.payments, after.payments, Row(s.procs[pid].id), running)
  {
    assert ProcBacked(s.core.payments, s.procs[pid]);
    RowClosing(s.core, s.procs[pid].id, None);
    hide ProcsBacked, RefundRow;
  }

  lemma RefundShape(s: State, a: Action)
    requires GatewayInv(s) && FaithfulInv(s) && Enabled(s, a) && Refunds(s, a)
    ensures exists d :: RefundsOnly(s.core.payments, Step(s, a).core.payments, d, Step(s, a).procs.Keys)
  {
    hide GatewayInv, HashesTrue, RefundsBacked, ProcsBacked, RefundsOnly, Step, CoreAfter;
    StepCore(s, a);
    if a.Unreserve? {
      UnreserveShape(s, a.pid);
    } else if a.CloseDebit? {
      RefusedShape(s, a.pid, a.txid, Step(s, a).procs.Keys);
    } else {
      TrackedShape(s, a.pid, Step(s, a).procs.Keys);
    }
  }

  lemma RefundsStart(s: State, a: Action)
    requires Enabled(s, a) && Refunds(s, a)
    ensures Step(s, a).procs.Keys <= s.procs.Keys
  {
    var m := MoveAfter(s, a);
    assert m.Go? || m.Finish?;
    hide Enabled, CoreAfter, MoveAfter, Tally;
    assert Running(s, m.pid);
    assert Step(s, a).procs == if m.Go? then s.procs[m.pid := m.proc] else s.procs - {m.pid};
    hide Step;
  }

  lemma StepRefunds(s: State, a: Action)
    requires GatewayInv(s) && FaithfulInv(s) && Enabled(s, a)
    ensures RefundsBacked(Step(s, a).core.payments, Step(s, a).procs.Keys)
  {
    hide GatewayInv, Enabled, HashesTrue, RefundsBacked, ProcsBacked, CoreAfter, Refunds;
    if !Refunds(s, a) {
      OtherRefunds(s, a);
    } else {
      hide Step, RefundsOnly;
      RefundShape(s, a);
      RefundsStart(s, a);
      var ps, qs, after := s.core.payments, Step(s, a).core.payments, Step(s, a).procs.Keys;
      var d :| RefundsOnly(ps, qs, d, after);
      RefundOne(ps, qs, d, s.procs.Keys, after);
    }
  }

  // ---- Solvency of faithful runs -----------------------------------------------------------

  predicate FaithfulRun(s: State, run: seq<Action>)
    requires CanRun(s, run)
    decreases |run|
  {
    run == [] || (FaithfulStep(s, run[0]) && FaithfulRun(Step(s, run[0]), run[1..]))
  }

  lemma {:induction false} FaithfulRunKeeps(s: State, run: seq<Action>)
    requires GatewayInv(s) && FaithfulInv(s) && CanRun(s, run) && FaithfulRun(s, run)
    ensures GatewayInv(Run(s, run)) && FaithfulInv(Run(s, run))
    decreases |run|
  {
    if run != [] {
      var a := run[0];
      hide GatewayInv, Enabled, Step, FaithfulStep, HashesTrue, RefundsBacked, ProcsBacked;
      StepKeeps(s, a);
      StepHashes(s, a);
      StepProcs(s, a);
      StepRefunds(s, a);
      FaithfulRunKeeps(Step(s, a), run[1..]);
    }
  }

  lemma NoDrift(s: State, asset: string)
    requires FaithfulInv(s)
    ensures forall d :: d in s.core.payments ==> DriftOf(s.core.payments[d], asset) == 0
  {
    forall d | d in s.core.payments
      ensures DriftOf(s.core.payments[d], asset) == 0
    {
      assert RefundFits(s.core.payments[d], s.procs.Keys);
    }
  }

  lemma FaithfulStaysFaithful(policy: Policy, run: seq<Action>)
    requires CanRun(Init(policy), run) && FaithfulRun(Init(policy), run)
    ensures FaithfulInv(Run(Init(policy), run))
  {
    hide GatewayInv, Enabled, Step, FaithfulStep, HashesTrue, RefundsBacked, ProcsBacked;
    InitInv(policy);
    InitFaithful(policy);
    FaithfulRunKeeps(Init(policy), run);
  }

  /** Along every faithful run, of any programs with any interleaving and any crashes, user
      balances never exceed what the node holds beyond the operator's own units. */
  lemma FaithfulRunsAreSolvent(policy: Policy, run: seq<Action>, asset: string)
    requires CanRun(Init(policy), run) && FaithfulRun(Init(policy), run)
    ensures var s := Run(Init(policy), run);
            Liability(s.core.t, asset) + Spare(s.core, asset) <= Held(s.core, asset)
  {
    var s := Run(Init(policy), run);
    hide GatewayInv, Enabled, Step, FaithfulStep, HashesTrue, RefundsBacked, ProcsBacked, Liability, DriftOf;
    FaithfulStaysFaithful(policy, run);
    NoDrift(s, asset);
    RunKeepsPolicy(Init(policy), run);
    assert Reachable(s);
    SolventExactlyWhenDriftIsCovered(s, asset);
  }

  lemma InitFaithful(policy: Policy)
    ensures FaithfulInv(Init(policy))
  {}

  lemma {:induction false} RunKeepsPolicy(s: State, run: seq<Action>)
    requires CanRun(s, run)
    ensures Run(s, run).policy == s.policy
    decreases |run|
  {
    if run != [] {
      StepKeepsPolicy(s, run[0]);
      hide Enabled, Step;
      RunKeepsPolicy(Step(s, run[0]), run[1..]);
    }
  }

  lemma StepKeepsPolicy(s: State, a: Action)
    requires Enabled(s, a)
    ensures Step(s, a).policy == s.policy
  {
    hide Enabled, CoreAfter, MoveAfter, Tally;
  }
}
