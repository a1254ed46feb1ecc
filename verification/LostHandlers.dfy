/** What a handler that vanishes, or dies in a crash, leaves behind: its debit, its fee and
    its client's answer. */
module LostHandlers {
  import opened Numbers
  import opened Ledger
  import opened LedgerLaws
  import opened GatewayCore
  import opened GatewayCoreLaws
  import opened Gateway
  import opened GatewayLaws
  import opened GatewaySteps
  import opened GatewayShapes
  import opened GatewayTheorems
  import opened GatewayTally

  // ---- Debits ---------------------------------------------------------------------------

  /** An open debit whose handler has ended, and which recovery does not track. */
  ghost predicate LostDebit(s: State, d: DebitId) {
    && d in s.core.payments && s.core.payments[d].closing == Open && s.core.payments[d].row.kind != LnSend
    && s.core.payments[d].owner < s.nextPid && s.core.payments[d].owner !in s.procs
  }

  lemma StepKeepsLostDebit(s: State, a: Action, d: DebitId)
    requires GatewayInv(s) && Enabled(s, a) && LostDebit(s, d)
    ensures LostDebit(Step(s, a), d) && Step(s, a).core.payments[d].row == s.core.payments[d].row
  {
    hide GatewayInv, Enabled, Step, MoveAfter, Actor, ClaimsEvolve;
    StepEvolves(s, a);
    EndedStaysEnded(s, a, s.core.payments[d].owner);
  }

  /** A send or burn whose handler is lost after the debit is never settled or refunded by
      any run: only a Lightning payment can be recovered. */
  lemma {:induction false} LostDebitIsNeverResolved(s: State, run: seq<Action>, d: DebitId)
    requires GatewayInv(s) && CanRun(s, run) && LostDebit(s, d)
    ensures LostDebit(Run(s, run), d) && Run(s, run).core.payments[d].row == s.core.payments[d].row
    decreases |run|
  {
    if run != [] {
      hide GatewayInv, Enabled, Step;
      StepKeeps(s, run[0]);
      StepKeepsLostDebit(s, run[0], d);
      LostDebitIsNeverResolved(Step(s, run[0]), run[1..], d);
    }
  }

  lemma TwoSteps(s: State, a: Action, b: Action)
    requires Enabled(s, a) && Enabled(Step(s, a), b)
    ensures CanRun(s, [a, b]) && Run(s, [a, b]) == Step(Step(s, a), b)
  {
    hide Enabled, Step;
    assert [a, b][1..] == [b];
    assert [b][1..] == [];
    assert CanRun(Step(s, a), [b]) && Run(Step(s, a), [b]) == Step(Step(s, a), b);
  }

  /** Any burn can be lost so: the crash may come right after its debit. */
  lemma BurnIsLostByCrash(s: State, row: InFlightRow)
    requires GatewayInv(s) && Enabled(s, StartBurn(row))
    ensures var run := [StartBurn(row), Crash];
            && CanRun(s, run)
            && LostDebit(Run(s, run), BurnOf(s.nextPid)) && Run(s, run).core.payments[BurnOf(s.nextPid)].row == row
            && Bal(Run(s, run).core.t, row.asset, row.pubkey) == Bal(s.core.t, row.asset, row.pubkey) - row.amount
            && Run(s, run).core.t.inFlight == s.core.t.inFlight
  {
    var s1 := Step(s, StartBurn(row));
    BurnStarts(s, row);
    CrashKeepsCore(s1);
    hide GatewayInv, Step, Bal;
    TwoSteps(s, StartBurn(row), Crash);
    hide Enabled, CanRun, Run;
  }

  lemma BurnStarts(s: State, row: InFlightRow)
    requires GatewayInv(s) && Enabled(s, StartBurn(row))
    ensures var c := Step(s, StartBurn(row)).core;
            && c.payments == s.core.payments[BurnOf(s.nextPid) := Payment(row, s.nextPid, Open, Unsent)]
            && c.t.inFlight == s.core.t.inFlight
            && Bal(c.t, row.asset, row.pubkey) == Bal(s.core.t, row.asset, row.pubkey) - row.amount
            && Step(s, StartBurn(row)).nextPid == s.nextPid + 1 && row.kind == Burn
  {
    StepCore(s, StartBurn(row));
    hide GatewayInv, Tally;
  }

  lemma CrashKeepsCore(s: State)
    ensures Enabled(s, Crash)
    ensures var after := Step(s, Crash);
            && after.core == s.core && after.procs == map[] && after.nextPid == s.nextPid
            && after.jobs == s.jobs && after.replies == s.replies && after.policy == s.policy
  {}

  lemma VanishKeepsCore(s: State, pid: nat)
    requires pid in s.procs
    ensures Enabled(s, Vanish(pid))
    ensures var after := Step(s, Vanish(pid));
            && after.core == s.core && after.procs == s.procs - {pid} && after.nextPid == s.nextPid
            && after.jobs == s.jobs && after.replies == s.replies && after.policy == s.policy
  {}

  /** The steps that lose programs. */
  predicate Loses(s: State, a: Action, pid: nat) {
    pid in s.procs && (a == Vanish(pid) || a == Crash)
  }

  lemma LosingKeepsCore(s: State, a: Action, pid: nat)
    requires Loses(s, a, pid)
    ensures Enabled(s, a)
    ensures var after := Step(s, a);
            && after.core == s.core && pid !in after.procs && after.nextPid == s.nextPid
            && after.jobs == s.jobs && after.replies == s.replies
  {
    hide Enabled, Step;
    if a == Crash {
      CrashKeepsCore(s);
    } else {
      VanishKeepsCore(s, pid);
    }
  }

  predicate HasRow(c: Core, d: DebitId) {
    d.Row? && d.id in c.t.inFlight && d in c.payments && c.t.inFlight[d.id] == c.payments[d].row
  }

  /** When a handler is lost, an open debit has a row in the tables exactly if it is a
      reservation: no send or Lightning payment loses its row, no burn has one. */
  lemma OpenDebitsWithRows(s: State, a: Action, pid: nat, d: DebitId)
    requires Reachable(s) && Loses(s, a, pid) && d in s.core.payments && s.core.payments[d].closing == Open
    ensures var after := Step(s, a).core;
            && d in after.payments && after.payments[d] == s.core.payments[d]
            && (HasRow(after, d) <==> d.Row?)
            && (d.Row? <==> after.payments[d].row.kind != Burn)
  {
    hide Reachable, Enabled, Step, ClaimsOk, CreditsOk, Balanced, ProcsOk, RepliesOk, OwnersOk, Covered;
    ReachableIsSound(s);
    LosingKeepsCore(s, a, pid);
  }

  /** A crash loses no reservation: every debit of a send or Lightning payment that was
      open before it is still an in-flight row after it. */
  lemma CrashKeepsReservations(s: State, id: nat)
    requires Reachable(s) && Row(id) in s.core.payments && s.core.payments[Row(id)].closing == Open
    ensures var after := Step(s, Crash);
            && after.procs == map[]
            && id in after.core.t.inFlight && after.core.t.inFlight[id] == s.core.payments[Row(id)].row
  {
    hide Reachable, ClaimsOk, CreditsOk, Balanced, ProcsOk, RepliesOk, OwnersOk, Covered;
    ReachableIsSound(s);
  }

  // ---- Fees -----------------------------------------------------------------------------

  /** The fee a program has taken and not given back. */
  function FeeTaken(p: Proc): nat {
    match p
    case CallDue(_, charge) => Charged(charge)
    case Calling(_, charge) => Charged(charge)
    case Accepted(_, charge) => Charged(charge)
    case Refused(_, charge) => Charged(charge)
    case MintDue(_, charge) => Charged(charge)
    case KeyIssued(_, charge) => Charged(charge)
    case FeeBack(amount) => amount
    case _ => 0
  }

  /** The program stands after its charge and before the charge is given back. */
  predicate HoldsFee(p: Proc) {
    match p
    case CallDue(_, charge) => charge.Some? && charge.value > 0
    case Calling(_, charge) => charge.Some? && charge.value > 0
    case Accepted(_, charge) => charge.Some? && charge.value > 0
    case Refused(_, charge) => charge.Some? && charge.value > 0
    case MintDue(_, charge) => charge.Some? && charge.value > 0
    case KeyIssued(_, charge) => charge.Some? && charge.value > 0
    case FeeBack(amount) => amount > 0
    case _ => false
  }

  lemma FeeIsTaken(s: State, pid: nat)
    requires GatewayInv(s) && pid in s.procs && !Loops(s.procs[pid])
    ensures pid in s.jobs && s.jobs[pid].sats == -(FeeTaken(s.procs[pid]) as int)
  {
    hide OwnersOk, RepliesOk, Covered, CoreInv, ProcsOk, MadeDebit, MayCharge;
    Known(s, pid);
    hide GatewayInv;
  }

  lemma ActingSats(s: State, c: Core, m: Move, pid: nat)
    requires (m.Go? || m.Finish? ==> Running(s, m.pid)) && pid in s.jobs && pid < s.nextPid && Actor(s, m) != Some(pid)
    ensures pid in Apply(s, c, m).jobs && Apply(s, c, m).jobs[pid].sats == s.jobs[pid].sats
  {}

  lemma RestoringSats(jobs: map<nat, Job>, debtor: Option<nat>, before: Tables, after: Tables, pid: nat)
    requires pid in jobs
    ensures pid in Restore(jobs, debtor, before, after) && Restore(jobs, debtor, before, after)[pid].sats == jobs[pid].sats
  {}

  lemma EndedSatsStay(s: State, a: Action, pid: nat)
    requires Enabled(s, a) && pid in s.jobs && pid < s.nextPid && pid !in s.procs
    ensures pid in Step(s, a).jobs && Step(s, a).jobs[pid].sats == s.jobs[pid].sats
    ensures pid !in s.replies ==> pid !in Step(s, a).replies
  {
    hide Enabled, CoreAfter, MoveAfter, Debtor, Apply, Restore, Actor;
    var m := MoveAfter(s, a);
    EndedStaysEnded(s, a, pid);
    ActingSats(s, CoreAfter(s, a), m, pid);
    var acted := Apply(s, CoreAfter(s, a), m);
    RestoringSats(acted.jobs, Debtor(s, a), s.core.t, acted.core.t, pid);
    if pid in Step(s, a).replies {
      ReplyShape(s, a, pid);
    }
  }

  lemma {:induction false} EndedSatsStayOverRun(s: State, run: seq<Action>, pid: nat)
    requires CanRun(s, run) && pid in s.jobs && pid < s.nextPid && pid !in s.procs
    ensures pid in Run(s, run).jobs && Run(s, run).jobs[pid].sats == s.jobs[pid].sats
    ensures pid !in s.replies ==> pid !in Run(s, run).replies
    decreases |run|
  {
    if run != [] {
      hide Enabled, Step;
      EndedSatsStay(s, run[0], pid);
      EndedStaysEnded(s, run[0], pid);
      EndedSatsStayOverRun(Step(s, run[0]), run[1..], pid);
    }
  }

  lemma NotYetAnswered(s: State, pid: nat)
    requires GatewayInv(s) && pid in s.procs
    ensures pid !in s.replies && pid < s.nextPid
  {
    Known(s, pid);
    hide CoreInv, ProcsOk, OwnersOk, Covered;
  }

  /** A lost handler leaves its client short, for good and without an answer, of exactly the
      fee it had taken: of a fee if and only if it was lost after the charge and before the
      charge was given back. */
  lemma LostHandlerKeepsItsFee(s: State, a: Action, pid: nat, run: seq<Action>)
    requires Reachable(s) && Loses(s, a, pid) && !Loops(s.procs[pid])
    requires Enabled(s, a) && CanRun(Step(s, a), run)
    ensures var after := Run(Step(s, a), run);
            && pid in after.jobs && pid !in after.replies
            && after.jobs[pid].sats == -(FeeTaken(s.procs[pid]) as int)
            && (after.jobs[pid].sats < 0 <==> HoldsFee(s.procs[pid]))
  {
    hide Reachable, GatewayInv, Enabled, Step, CanRun, Run, Loops;
    ReachableIsSound(s);
    FeeIsTaken(s, pid);
    NotYetAnswered(s, pid);
    LosingKeepsCore(s, a, pid);
    EndedSatsStayOverRun(Step(s, a), run, pid);
  }

  /** Lost between the refund and the fee's return, a handler has given back every unit and
      keeps the fee. */
  lemma LostBeforeFeeReturn(s: State, a: Action, pid: nat, run: seq<Action>)
    requires Reachable(s) && Loses(s, a, pid) && s.procs[pid].FeeBack?
    requires Enabled(s, a) && CanRun(Step(s, a), run)
    ensures Step(s, a).core == s.core
    ensures var after := Run(Step(s, a), run);
            pid in after.jobs && Total(after.jobs[pid]) == 0 && after.jobs[pid].sats == -(s.procs[pid].amount as int)
  {
    hide Reachable, GatewayInv, TallyInv, Enabled, Step, CanRun, Run;
    ReachableIsTallied(s);
    LostHandlerKeepsItsFee(s, a, pid, run);
    LosingKeepsCore(s, a, pid);
    ProcKnown(s, pid);
    StepKeeps(s, a);
    StepKeepsTally(s, a);
    RunKeepsTally(Step(s, a), run);
    ClosedForGood(Step(s, a), run);
    SameJobOverRun(Step(s, a), run, pid);
    JobKnown(Run(Step(s, a), run), pid);
  }

  lemma {:induction false} SameJobOverRun(s: State, run: seq<Action>, pid: nat)
    requires GatewayInv(s) && TallyInv(s) && CanRun(s, run) && pid in s.jobs
    ensures pid in Run(s, run).jobs && SameClient(s.jobs[pid], Run(s, run).jobs[pid])
    decreases |run|
  {
    if run != [] {
      hide GatewayInv, TallyInv, Enabled, Step;
      StepKeeps(s, run[0]);
      StepKeepsTally(s, run[0]);
      OldJobsFit(s, run[0], pid);
      SameJobOverRun(Step(s, run[0]), run[1..], pid);
    }
  }
}
