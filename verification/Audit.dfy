/** What the solvency audit finds in the machine's states, and when it finds nothing. */
module Audit {
  import opened Ledger
  import opened LedgerLaws
  import opened Registry
  import opened GatewayCore
  import opened Gateway
  import opened GatewayTheorems
  import opened Faithful
  import Reconcile

  type Anchors = seq<(string, nat)>

  /** The anchors sum to what the node holds, asset by asset. */
  ghost predicate Reports(anchors: Anchors, c: Core) {
    forall a :: Reconcile.HeldSum(anchors, a) == Held(c, a)
  }

  /** Asked at one moment, the audit names an asset exactly when more of it has left for
      refunded debits than is kept for open debits, credits to come and the operator. */
  lemma AuditFindsExactly(s: State, anchors: Anchors, asset: string)
    requires Reachable(s) && Reports(anchors, s.core)
    ensures Reconcile.Drifts(s.core.t, anchors, asset) <==>
            Drift(s.core.payments, asset) >
            Kept(s.core.payments, asset) + Uncredited(s.core.claims, asset) + Spare(s.core, asset)
  {
    assert Reconcile.HeldSum(anchors, asset) == Held(s.core, asset);
    hide Reachable, Drift, Kept, Uncredited, Liability, Held, Spare, Reports;
    BooksBalance(s, asset);
  }

  /** The audit reads balances and anchors at different moments. In a state without drift it
      raises no false alarm unless units of the asset leave the node between the two. */
  lemma AuditRaisesNoFalseAlarm(s: State, run: seq<Action>, anchors: Anchors, asset: string)
    requires Reachable(s) && CanRun(s, run) && NothingLeaves(s, run, asset)
    requires forall d :: d in s.core.payments ==> DriftOf(s.core.payments[d], asset) == 0
    requires Reports(anchors, Run(s, run).core)
    ensures !Reconcile.Drifts(s.core.t, anchors, asset)
  {
    assert Reconcile.HeldSum(anchors, asset) == Held(Run(s, run).core, asset);
    hide Reachable, Drift, Kept, Uncredited, Liability, Held, Spare, Reports, DriftOf, NothingLeaves, Run;
    LiabilityStaysHeld(s, run, asset);
  }

  lemma FaithfulHasNoDrift(policy: Policy, run: seq<Action>, asset: string)
    requires CanRun(Init(policy), run) && FaithfulRun(Init(policy), run)
    ensures var s := Run(Init(policy), run);
            Reachable(s) && forall d :: d in s.core.payments ==> DriftOf(s.core.payments[d], asset) == 0
  {
    var s := Run(Init(policy), run);
    FaithfulStaysFaithful(policy, run);
    NoDrift(s, asset);
    RunKeepsPolicy(Init(policy), run);
    hide Enabled, Step, FaithfulInv, DriftOf, CanRun, Run, FaithfulRun;
  }

  /** The audit of a registry that any faithful run has produced, with anchors read after any
      further run in which nothing leaves the node, names no asset. */
  method AuditFaithful(registry: Registry, anchors: Anchors, ghost policy: Policy, ghost run: seq<Action>, ghost later: seq<Action>)
    returns (drift: set<string>)
    requires CanRun(Init(policy), run) && FaithfulRun(Init(policy), run)
    requires var s := Run(Init(policy), run);
             && registry.View() == s.core.t && CanRun(s, later) && Reports(anchors, Run(s, later).core)
             && forall asset :: NothingLeaves(s, later, asset)
    ensures drift == {}
  {
    ghost var s := Run(Init(policy), run);
    drift := Reconcile.AuditSolvency(registry, anchors);
    forall asset
      ensures asset !in drift
    {
      FaithfulHasNoDrift(policy, run, asset);
      AuditRaisesNoFalseAlarm(s, later, anchors, asset);
    }
  }
}
