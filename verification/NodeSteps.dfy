/** What the node and the operator can always do, and what the gateway then makes of it. */
module NodeSteps {
  import opened Numbers
  import opened Ledger
  import opened LedgerLaws
  import opened GatewayCore
  import opened Gateway
  import opened GatewayLaws
  import opened GatewaySteps
  import opened GatewayShapes
  import opened GatewayTheorems
  import opened Races

  // ---- Every key can have its credit ----------------------------------------------------

  lemma Confirms(s: State, k: Key)
    requires GatewayInv(s) && k in s.core.t.pending
    requires k in s.core.claims && !s.core.claims[k].arrived && !s.core.claims[k].cancelled
    ensures Enabled(s, NodeConfirms(k))
    ensures var after := Step(s, NodeConfirms(k));
            && GatewayInv(after) && Creditable(after, k) && after.nextPid == s.nextPid
            && after.core.claims[k] == s.core.claims[k].(arrived := true)
            && after.core.t == s.core.t
  {
    hide GatewayInv;
    StepKeeps(s, NodeConfirms(k));
    hide Bal, SatsOf;
  }

  /** Whatever key the node issued and the gateway stored, batch, address or invoice: as long as it
      is not cancelled the node can confirm it, and the next reconciliation then credits its
      owner, once and in full. */
  lemma EveryKeyCanBeCredited(s: State, k: Key)
    requires GatewayInv(s) && k in s.core.t.pending
    requires k in s.core.claims && !s.core.claims[k].arrived && !s.core.claims[k].cancelled
    ensures var run, cl := [NodeConfirms(k)] + CreditRun(s.nextPid, k), s.core.claims[k];
            && CanRun(s, run)
            && CreditsFor(Run(s, run).core.t.events, k) == [CreditEvent(k, cl.asset, cl.pubkey, Worth(cl))]
            && k !in Run(s, run).core.t.pending
  {
    hide GatewayInv, Enabled, Step, CreditsFor, CreditEvent;
    Confirms(s, k);
    var s1, rest := Step(s, NodeConfirms(k)), CreditRun(s.nextPid, k);
    CreditableIsCredited(s1, k);
    FirstStep(s, [NodeConfirms(k)] + rest);
    assert ([NodeConfirms(k)] + rest)[1..] == rest;
    RunKeeps(s1, rest);
    hide CanRun, Run, CreditRun;
    CreditedIsGone(Run(s1, rest), k, CreditEvent(k, s.core.claims[k].asset, s.core.claims[k].pubkey, Worth(s.core.claims[k])));
  }

  lemma CreditedIsGone(s: State, k: Key, e: LedgerEvent)
    requires GatewayInv(s) && CreditsFor(s.core.t.events, k) == [e]
    ensures k !in s.core.t.pending
  {
    hide RowsOk, Balanced, ProcsOk, RepliesOk, OwnersOk, Covered, MintsOk, CreditsFor;
    assert CreditsFor(s.core.t.events, k) == PaidEvents(s.core.claims, k);
  }

  // ---- Cancelled invoices ------------------------------------------------------------------

  lemma Cancels(s: State, k: Key)
    requires k in s.core.t.pending && (k.LnHash? || k.SatsHash?) && k in s.core.claims && !s.core.claims[k].arrived
    ensures Enabled(s, NodeCancels(k))
    ensures var after := Step(s, NodeCancels(k));
            && after.core.t == s.core.t && after.nextPid == s.nextPid
            && k in after.core.claims && after.core.claims[k] == s.core.claims[k].(cancelled := true)
  {
    hide Bal, SatsOf;
  }

  lemma ListsCancelled(s: State, k: Key)
    requires k in s.core.t.pending
    ensures Enabled(s, StartReconcile([k]))
    ensures var after := Step(s, StartReconcile([k]));
            && after.core == s.core && s.nextPid in after.procs && s.nextPid in after.jobs
            && after.procs[s.nextPid] == Reconciling([k])
  {
    hide Bal, SatsOf;
  }

  lemma DropsCancelled(s: State, pid: nat, k: Key)
    requires k in s.core.t.pending && k in s.core.claims && s.core.claims[k].cancelled
    requires pid in s.procs && pid in s.jobs && s.procs[pid] == Reconciling([k])
    ensures Enabled(s, AskNode(pid, IsCanceled)) && Enabled(Step(s, AskNode(pid, IsCanceled)), ApplyAnswer(pid))
    ensures var after := Step(Step(s, AskNode(pid, IsCanceled)), ApplyAnswer(pid));
            after.core.t == s.core.t.(pending := s.core.t.pending - {k})
  {
    hide Enabled, Step, CoreAfter;
    AskedCancelled(s, pid, k);
    var s1 := Step(s, AskNode(pid, IsCanceled));
    AppliesCancelled(s1, pid, k);
    StepCore(s1, ApplyAnswer(pid));
  }

  lemma AppliesCancelled(s: State, pid: nat, k: Key)
    requires k in s.core.t.pending && k in s.core.claims
    requires pid in s.procs && pid in s.jobs && s.procs[pid] == Answered(k, IsCanceled, [])
    ensures Enabled(s, ApplyAnswer(pid))
    ensures CoreAfter(s, ApplyAnswer(pid)).t == s.core.t.(pending := s.core.t.pending - {k})
  {}

  lemma AskedCancelled(s: State, pid: nat, k: Key)
    requires k in s.core.claims && s.core.claims[k].cancelled
    requires pid in s.procs && pid in s.jobs && s.procs[pid] == Reconciling([k])
    ensures Enabled(s, AskNode(pid, IsCanceled))
    ensures var after := Step(s, AskNode(pid, IsCanceled));
            && after.core == s.core && pid in after.procs && pid in after.jobs
            && after.procs[pid] == Answered(k, IsCanceled, [])
  {
    hide Bal, SatsOf;
    assert [k][1..] == [];
  }

  /** An invoice not yet paid can be cancelled at the node; the next reconciliation drops its row
      and does nothing else. */
  lemma CancelledInvoiceIsDropped(s: State, k: Key)
    requires k in s.core.t.pending && (k.LnHash? || k.SatsHash?) && k in s.core.claims && !s.core.claims[k].arrived
    ensures var pid := s.nextPid;
            var run := [NodeCancels(k)] + [StartReconcile([k]), AskNode(pid, IsCanceled), ApplyAnswer(pid)];
            CanRun(s, run) && Run(s, run).core.t == s.core.t.(pending := s.core.t.pending - {k})
  {
    hide Enabled, Step;
    var pid := s.nextPid;
    Cancels(s, k);
    var s1 := Step(s, NodeCancels(k));
    ListsCancelled(s1, k);
    var s2 := Step(s1, StartReconcile([k]));
    DropsCancelled(s2, pid, k);
    var rest := [StartReconcile([k]), AskNode(pid, IsCanceled), ApplyAnswer(pid)];
    ThreeSteps(s1, s2, Step(s2, AskNode(pid, IsCanceled)), StartReconcile([k]), AskNode(pid, IsCanceled), ApplyAnswer(pid));
    FirstStep(s, [NodeCancels(k)] + rest);
    assert ([NodeCancels(k)] + rest)[1..] == rest;
    hide CanRun, Run;
  }

  // ---- The operator's own units ---------------------------------------------------------------

  /** The operator may add units at any time and spend any of its own that the node holds; both
      move what the node holds and what of it is the operator's by that amount, and nobody's
      ledger. */
  lemma OwnUnitsMeaning(s: State, asset: string, amount: nat, b: string)
    ensures Enabled(s, FundNode(asset, amount))
    ensures Enabled(s, SpendSurplus(asset, amount)) <==> amount <= Spare(s.core, asset) && amount <= Held(s.core, asset)
    ensures var after, n := Step(s, FundNode(asset, amount)), if b == asset then amount else 0;
            && Held(after.core, b) == Held(s.core, b) + n && Spare(after.core, b) == Spare(s.core, b) + n
            && after.core.t == s.core.t && after.core.payments == s.core.payments && after.core.claims == s.core.claims
    ensures Enabled(s, SpendSurplus(asset, amount)) ==>
            var after, n := Step(s, SpendSurplus(asset, amount)), if b == asset then amount else 0;
            && Held(after.core, b) == Held(s.core, b) - n && Spare(after.core, b) == Spare(s.core, b) - n
            && after.core.t == s.core.t && after.core.payments == s.core.payments && after.core.claims == s.core.claims
  {
    hide Step, Enabled, CoreAfter;
    OwnUnitsEnabled(s, asset, amount);
    FundsInCore(s, asset, amount, b);
    StepCore(s, FundNode(asset, amount));
    if Enabled(s, SpendSurplus(asset, amount)) {
      SpendsInCore(s, asset, amount, b);
      StepCore(s, SpendSurplus(asset, amount));
    }
  }

  lemma OwnUnitsEnabled(s: State, asset: string, amount: nat)
    ensures Enabled(s, FundNode(asset, amount))
    ensures Enabled(s, SpendSurplus(asset, amount)) <==> amount <= Spare(s.core, asset) && amount <= Held(s.core, asset)
  {}

  lemma FundsInCore(s: State, asset: string, amount: nat, b: string)
    requires Enabled(s, FundNode(asset, amount))
    ensures var c, n := CoreAfter(s, FundNode(asset, amount)), if b == asset then amount else 0;
            && Held(c, b) == Held(s.core, b) + n && Spare(c, b) == Spare(s.core, b) + n
            && c.t == s.core.t && c.payments == s.core.payments && c.claims == s.core.claims
  {}

  lemma SpendsInCore(s: State, asset: string, amount: nat, b: string)
    requires Enabled(s, SpendSurplus(asset, amount)) && amount <= Spare(s.core, asset) && amount <= Held(s.core, asset)
    ensures var c, n := CoreAfter(s, SpendSurplus(asset, amount)), if b == asset then amount else 0;
            && Held(c, b) == Held(s.core, b) - n && Spare(c, b) == Spare(s.core, b) - n
            && c.t == s.core.t && c.payments == s.core.payments && c.claims == s.core.claims
  {}
}
