/** Along faithful runs every debit is closed by its own fate, and every failure is free. */
module FaithfulCosts {
  import opened Numbers
  import opened Ledger
  import opened LedgerLaws
  import opened GatewayCore
  import opened GatewayCoreLaws
  import opened Gateway
  import opened GatewayLaws
  import opened GatewaySteps
  import opened GatewayShapes
  import opened GatewayTheorems
  import opened GatewayTally
  import opened PayCosts
  import opened Faithful

  ghost predicate AllTruthful(s: State) {
    forall d :: d in s.core.payments ==> Truthful(s, d)
  }

  lemma FaithfulIsTrue(s: State, a: Action, d: DebitId)
    requires GatewayInv(s) && FaithfulInv(s) && Enabled(s, a) && FaithfulStep(s, a)
    ensures TrueStep(s, a, d)
  {
    hide GatewayInv, FaithfulInv, Asks;
    if a.TrackPayment? && a.answer == Some(Succeeded) {
      TrackingAsks(s, a.pid, a.answer);
      TrackingIsTrue(s, a.pid, Succeeded);
    }
  }

  lemma DebitStaysTrue(s: State, a: Action, d: DebitId)
    requires GatewayInv(s) && FaithfulInv(s) && TallyInv(s) && AllTruthful(s)
    requires Enabled(s, a) && FaithfulStep(s, a) && d in Step(s, a).core.payments
    ensures Truthful(Step(s, a), d)
  {
    assert d in s.core.payments ==> Truthful(s, d);
    hide GatewayInv, FaithfulInv, TallyInv, Truthful, Enabled, Step, FaithfulStep, TrueStep, AllTruthful;
    if d in s.core.payments {
      FaithfulIsTrue(s, a, d);
      StepKeepsTruth(s, a, d);
    } else {
      NewDebitIsTrue(s, a, d);
    }
  }

  lemma StepKeepsAllTrue(s: State, a: Action)
    requires GatewayInv(s) && FaithfulInv(s) && TallyInv(s) && AllTruthful(s) && Enabled(s, a) && FaithfulStep(s, a)
    ensures AllTruthful(Step(s, a))
  {
    hide GatewayInv, FaithfulInv, TallyInv, Truthful, Enabled, Step, FaithfulStep;
    forall d | d in Step(s, a).core.payments
      ensures Truthful(Step(s, a), d)
    {
      DebitStaysTrue(s, a, d);
    }
  }

  lemma StepKeepsFaith(s: State, a: Action)
    requires GatewayInv(s) && FaithfulInv(s) && Enabled(s, a) && FaithfulStep(s, a)
    ensures FaithfulInv(Step(s, a))
  {
    hide GatewayInv, Enabled, Step, FaithfulStep, HashesTrue, RefundsBacked, ProcsBacked;
    StepHashes(s, a);
    StepProcs(s, a);
    StepRefunds(s, a);
  }

  lemma {:induction false} FaithfulRunIsTrue(s: State, run: seq<Action>)
    requires GatewayInv(s) && FaithfulInv(s) && TallyInv(s) && AllTruthful(s) && CanRun(s, run) && FaithfulRun(s, run)
    ensures var after := Run(s, run);
            GatewayInv(after) && FaithfulInv(after) && TallyInv(after) && AllTruthful(after)
    decreases |run|
  {
    if run != [] {
      var a := run[0];
      hide GatewayInv, FaithfulInv, TallyInv, AllTruthful, Enabled, Step, FaithfulStep;
      StepKeeps(s, a);
      StepKeepsFaith(s, a);
      StepKeepsTally(s, a);
      StepKeepsAllTrue(s, a);
      FaithfulRunIsTrue(Step(s, a), run[1..]);
    }
  }

  lemma FromTheStart(policy: Policy, run: seq<Action>)
    requires CanRun(Init(policy), run) && FaithfulRun(Init(policy), run)
    ensures var s := Run(Init(policy), run);
            GatewayInv(s) && FaithfulInv(s) && TallyInv(s) && AllTruthful(s)
  {
    hide GatewayInv, FaithfulInv, TallyInv, Truthful, Enabled, Step, CanRun, Run, FaithfulRun;
    InitInv(policy);
    InitFaithful(policy);
    InitTally(policy);
    FaithfulRunIsTrue(Init(policy), run);
  }

  /** Along every faithful run the ledger agrees with the node: what was settled has left,
      what was refunded has not left and, its handler being gone, never will. */
  lemma FaithfulClosingsAreTrue(policy: Policy, run: seq<Action>, d: DebitId)
    requires CanRun(Init(policy), run) && FaithfulRun(Init(policy), run)
    requires d in Run(Init(policy), run).core.payments
    ensures var s := Run(Init(policy), run);
            var p := s.core.payments[d];
            && (p.closing == Settled ==> p.fate == Left)
            && (p.closing == Refunded ==> p.fate == Dropped || (p.fate == Unsent && p.owner !in s.procs))
  {
    hide GatewayInv, TallyInv, Enabled, Step, CanRun, Run, FaithfulRun;
    FromTheStart(policy, run);
    var s := Run(Init(policy), run);
    assert Truthful(s, d);
    assert RefundFits(s.core.payments[d], s.procs.Keys);
  }

  /** Along every faithful run a request answered with a failure, a Lightning payment
      included, has cost its client no unit and no sat. */
  lemma FaithfulFailureCostsNothing(policy: Policy, run: seq<Action>, pid: nat)
    requires CanRun(Init(policy), run) && FaithfulRun(Init(policy), run)
    requires pid in Run(Init(policy), run).replies && Run(Init(policy), run).replies[pid] == Failure
    ensures var s := Run(Init(policy), run);
            pid in s.jobs && s.jobs[pid].sats == 0 && (s.jobs[pid].request != Background ==> Total(s.jobs[pid]) == 0)
  {
    hide GatewayInv, TallyInv, FaithfulInv, Enabled, Step, CanRun, Run, FaithfulRun;
    FromTheStart(policy, run);
    var s := Run(Init(policy), run);
    FailureIsKnown(s, pid);
    JobKnown(s, pid);
    if s.jobs[pid].debit.Some? {
      var d := s.jobs[pid].debit.value;
      assert Truthful(s, d);
      assert AnswerTrue(s.core.payments, s.jobs[pid], Failure, d);
      hide Truthful;
    }
  }
}
