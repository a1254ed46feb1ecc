/** What a client, the operator and an auditor can rely on in every reachable state, and
    across every run. */
module GatewayTheorems {
  import opened Numbers
  import opened MapSum
  import opened Ledger
  import opened LedgerLaws
  import opened GatewayCore
  import opened GatewayCoreLaws
  import opened Gateway
  import opened GatewayLaws
  import opened GatewaySteps
  import opened GatewayShapes

  // ---- Reachable states ------------------------------------------------------------

  lemma InitInv(policy: Policy)
    ensures GatewayInv(Init(policy))
  {
    hide Sum;
    SumZero<Holder>(map[]);
    SumZero<DebitId>(map[]);
    SumZero<Key>(map[]);
    SumZero<string>(map[]);
    SumZero<nat>(map[]);
    var s := Init(policy);
    forall a: string, u: string
      ensures JournalGap(s.core, a, u) == 0 && BooksGap(s.core, a) == 0
    {
      assert RowAmounts(map[], a, u) == map[];
      assert BurnsOpen(map[], a, u) == map[];
      assert HoldingsOf(map[], a) == map[];
      assert Weights(map[], a) == map[];
      assert ClaimWeights(map[], a) == map[];
    }
    assert DepositsOf(map[]) == map[];
    assert ChargesIn(map[]) == map[];
    assert Balanced(s.core);
  }

  lemma ReachableIsSound(s: State)
    requires Reachable(s)
    ensures GatewayInv(s)
  {
    hide GatewayInv, Enabled, Step;
    var run :| CanRun(Init(s.policy), run) && Run(Init(s.policy), run) == s;
    InitInv(s.policy);
    RunKeeps(Init(s.policy), run);
  }

  // ---- Conservation -------------------------------------------------------------------

  /** Nothing is debited silently: balance, in-flight rows and burns still open always add
      up to what the user's history says, through any interleaving and any crash. */
  lemma EveryDebitIsAccountedFor(s: State, asset: string, user: string)
    requires Reachable(s)
    ensures Bal(s.core.t, asset, user) + Reserved(s.core.t.inFlight, asset, user) + OpenBurns(s.core.payments, asset, user)
            == HistorySum(s.core.t.events, asset, user)
  {
    ReachableIsSound(s);
    assert JournalGap(s.core, asset, user) == 0;
  }

  /** Units that left the node for a debit the ledger nevertheless refunded. */
  function DriftOf(p: Payment, asset: string): nat {
    if p.row.asset == asset && p.closing == Refunded && p.fate == Left then p.row.amount else 0
  }

  function Drifts(ps: map<DebitId, Payment>, asset: string): map<DebitId, int> {
    map d | d in ps :: DriftOf(ps[d], asset)
  }

  ghost function Drift(ps: map<DebitId, Payment>, asset: string): int {
    Sum(Drifts(ps, asset))
  }

  /** Units kept for a debit whose value is still at the node. */
  function KeptOf(p: Payment, asset: string): nat {
    if p.row.asset == asset && p.closing != Refunded && p.fate != Left then p.row.amount else 0
  }

  function Kepts(ps: map<DebitId, Payment>, asset: string): map<DebitId, int> {
    map d | d in ps :: KeptOf(ps[d], asset)
  }

  ghost function Kept(ps: map<DebitId, Payment>, asset: string): int {
    Sum(Kepts(ps, asset))
  }

  /** Every unit the node holds of an asset is a user's balance, kept for a debit, a credit
      still to come or the operator's own; units refunded although they left are missing. */
  lemma BooksBalance(s: State, asset: string)
    requires Reachable(s)
    ensures Held(s.core, asset) + Drift(s.core.payments, asset) ==
            Liability(s.core.t, asset) + Kept(s.core.payments, asset) + Uncredited(s.core.claims, asset) + Spare(s.core, asset)
    ensures Uncredited(s.core.claims, asset) >= 0
    ensures Kept(s.core.payments, asset) >= 0
  {
    ReachableIsSound(s);
    assert BooksGap(s.core, asset) == 0;
    UncreditedIsOwed(s.core.claims, s.core.t.pending, asset);
    SumBounds(Kepts(s.core.payments, asset));
    SumDifference(Weights(s.core.payments, asset), Kepts(s.core.payments, asset), Drifts(s.core.payments, asset));
  }

  lemma UncreditedIsOwed(cs: map<Key, Claim>, pending: map<Key, PendingRow>, asset: string)
    requires ClaimsOk(cs, pending)
    ensures Uncredited(cs, asset) >= 0
  {
    var w := ClaimWeights(cs, asset);
    forall k | k in w
      ensures w[k] >= 0
    {
      assert k in cs && cs[k].stage == Paid ==> cs[k].arrived;
    }
    SumBounds(w);
  }

  /** User balances fit into what the node holds beyond the operator's own units exactly
      when what left for refunded debits is covered by units kept for debits and credits
      still open; in particular whenever nothing left for a refunded debit. */
  lemma SolventExactlyWhenDriftIsCovered(s: State, asset: string)
    requires Reachable(s)
    ensures Liability(s.core.t, asset) + Spare(s.core, asset) <= Held(s.core, asset) <==>
            Drift(s.core.payments, asset) <= Kept(s.core.payments, asset) + Uncredited(s.core.claims, asset)
    ensures (forall d :: d in s.core.payments ==> DriftOf(s.core.payments[d], asset) == 0) ==>
              Liability(s.core.t, asset) + Spare(s.core, asset) <= Held(s.core, asset)
  {
    hide Liability, Kept, Uncredited, DriftOf, Reachable, Held, Spare;
    BooksBalance(s, asset);
    if forall d :: d in s.core.payments ==> DriftOf(s.core.payments[d], asset) == 0 {
      SumZero(Drifts(s.core.payments, asset));
    }
  }

  // ---- Sats ---------------------------------------------------------------------------------

  /** Sats come from resolved deposits and from nowhere else. */
  lemma SatsAreDeposits(s: State)
    requires Reachable(s)
    ensures TotalSats(s.core.t) == Deposits(s.core.claims)
  {
    ReachableIsSound(s);
  }

  /** The saturating refund never saturates: whenever a handler gives a fee back, the
      operator still has all of it, so the sats move and none is created. */
  lemma FeeRefundNeverSaturates(s: State, pid: nat)
    requires Reachable(s) && Enabled(s, ReturnCharge(pid))
    ensures var op, payer, f := s.policy.operator.value, s.jobs[pid].user, s.procs[pid].amount;
            var after := Step(s, ReturnCharge(pid)).core.t;
            && SatsOf(s.core.t, op) >= f && payer != op
            && SatsOf(after, op) == SatsOf(s.core.t, op) - f
            && SatsOf(after, payer) == SatsOf(s.core.t, payer) + f
            && TotalSats(after) == TotalSats(s.core.t)
  {
    hide GatewayInv, RefundFee, TotalSats, SatsOf, Unexplained, Reachable;
    ReachableIsSound(s);
    FeeIsThere(s, pid);
    StepCore(s, ReturnCharge(pid));
    hide Step;
    var op, payer, f := s.policy.operator.value, s.jobs[pid].user, s.procs[pid].amount;
    RefundFeeMoves(s.core.t, payer, op, f, "", op);
    RefundFeeMoves(s.core.t, payer, op, f, "", payer);
  }

  // ---- Credits ----------------------------------------------------------------------------

  /** A batch, address or invoice is credited at most once, in full, to its owner, only
      after the node confirmed it, and never if it was cancelled or purged. */
  lemma CreditedAtMostOnce(s: State, k: Key)
    requires Reachable(s)
    ensures |CreditsFor(s.core.t.events, k)| <= 1
    ensures CreditsFor(s.core.t.events, k) != [] ==>
              && k in s.core.claims && s.core.claims[k].arrived && s.core.claims[k].stage == Paid && k !in s.core.t.pending
              && CreditsFor(s.core.t.events, k)[0].pubkey == s.core.claims[k].pubkey
              && CreditsFor(s.core.t.events, k)[0].amount == Worth(s.core.claims[k])
    ensures k in s.core.claims && s.core.claims[k].stage == Gone ==> CreditsFor(s.core.t.events, k) == []
  {
    ReachableIsSound(s);
    assert CreditsFor(s.core.t.events, k) == PaidEvents(s.core.claims, k);
  }

  /** A mint's status can be read off the mint table: a batch is in it, with its asset and
      its owner, exactly when it has been credited. */
  lemma MintStatusIsTrue(s: State, batch: string)
    requires Reachable(s)
    ensures var k := BatchKey(batch);
            && (batch in s.core.t.mints <==> k in s.core.claims && s.core.claims[k].stage == Paid)
            && (batch in s.core.t.mints <==> |CreditsFor(s.core.t.events, k)| == 1)
            && (batch in s.core.t.mints ==>
                  s.core.t.mints[batch] == (s.core.claims[k].asset, s.core.claims[k].pubkey) && k !in s.core.t.pending)
  {
    hide Reachable, RowsOk, Balanced, ProcsOk, RepliesOk, OwnersOk, Covered, CreditsFor;
    ReachableIsSound(s);
    assert MintRecorded(s.core.claims, s.core.t.mints, batch);
    assert CreditsFor(s.core.t.events, BatchKey(batch)) == PaidEvents(s.core.claims, BatchKey(batch));
  }

  /** The credited amount is the requested one exactly when it fits the signed column;
      a larger request credits nothing. */
  lemma WorthIsTheRequest(cl: Claim)
    ensures Worth(cl) == cl.amount <==> cl.amount <= I64_MAX
    ensures Worth(cl) != cl.amount ==> Worth(cl) == 0
  {}

  // ---- Once closed, closed ------------------------------------------------------------------

  /** What no run undoes about debits and claims, whoever acts. */
  ghost predicate Later(c: Core, d: Core) {
    && (forall id :: id in c.payments ==>
          id in d.payments && d.payments[id].row == c.payments[id].row && d.payments[id].owner == c.payments[id].owner
          && (c.payments[id].closing != Open ==> d.payments[id].closing == c.payments[id].closing)
          && (c.payments[id].fate == Left || c.payments[id].fate == Dropped ==> d.payments[id].fate == c.payments[id].fate))
    && (forall k :: k in c.claims ==>
          k in d.claims && (c.claims[k].stage == Paid || c.claims[k].stage == Gone ==> d.claims[k].stage == c.claims[k].stage))
  }

  lemma EvolvedIsLater(c: Core, d: Core, actor: Option<nat>)
    requires PaymentsEvolve(c.payments, d.payments, actor) && ClaimsEvolve(c.claims, d.claims, actor)
    ensures Later(c, d)
  {}

  lemma StepIsLater(s: State, a: Action)
    requires GatewayInv(s) && Enabled(s, a)
    ensures Later(s.core, Step(s, a).core)
  {
    hide GatewayInv, Enabled, Step, Later, PaymentsEvolve, ClaimsEvolve, MoveAfter, Actor;
    StepEvolves(s, a);
    EvolvedIsLater(s.core, Step(s, a).core, Actor(s, MoveAfter(s, a)));
  }

  lemma LaterIsTransitive(c: Core, d: Core, e: Core)
    requires Later(c, d) && Later(d, e)
    ensures Later(c, e)
  {}

  /** A debit is settled or refunded once and for all, under an id that never comes to
      mean another debit; a key that was credited or dropped stays so. */
  lemma {:induction false} ClosedForGood(s: State, run: seq<Action>)
    requires GatewayInv(s) && CanRun(s, run)
    ensures Later(s.core, Run(s, run).core)
    decreases |run|
  {
    if run != [] {
      hide GatewayInv, Enabled, Step, Later;
      StepKeeps(s, run[0]);
      StepIsLater(s, run[0]);
      ClosedForGood(Step(s, run[0]), run[1..]);
      LaterIsTransitive(s.core, Step(s, run[0]).core, Run(s, run).core);
    }
  }

  // ---- The audit ------------------------------------------------------------------------------

  predicate TakesUnits(s: State, a: Action, asset: string) {
    match a
    case NodePays(d) => d in s.core.payments && s.core.payments[d].row.asset == asset
    case SpendSurplus(spent, _) => spent == asset
    case _ => false
  }

  predicate NothingLeaves(s: State, run: seq<Action>, asset: string)
    requires CanRun(s, run)
    decreases |run|
  {
    run == [] || (!TakesUnits(s, run[0], asset) && NothingLeaves(Step(s, run[0]), run[1..], asset))
  }

  predicate MovesHoldings(a: Action) {
    a.NodePays? || a.NodeConfirms? || a.FundNode? || a.SpendSurplus?
  }

  predicate OnDebits(a: Action) {
    a.StartSend? || a.StartPay? || a.StartBurn? || a.Unreserve? || a.CallNode? || a.NodeDrops? || a.CloseDebit? ||
    a.ApplyTrack?
  }

  lemma ClosingKeepsHoldings(c: Core, id: nat)
    ensures RefundRow(c, id).holdings == c.holdings
    ensures forall reference :: SettleRow(c, id, reference).holdings == c.holdings
  {}

  lemma StartsKeepHoldings(s: State, a: Action)
    requires Enabled(s, a) && (a.StartSend? || a.StartPay? || a.StartBurn?)
    ensures CoreAfter(s, a).holdings == s.core.holdings
  {
    hide Debit, DebitAndMark;
  }

  lemma DebitStepsKeepHoldings(s: State, a: Action)
    requires Enabled(s, a) && OnDebits(a)
    ensures CoreAfter(s, a).holdings == s.core.holdings
  {
    if a.Unreserve? || (a.CloseDebit? && s.procs[a.pid].d.Row?) {
      ClosingKeepsHoldings(s.core, s.procs[a.pid].d.id);
      hide SettleRow, RefundRow;
    } else if a.ApplyTrack? {
      ClosingKeepsHoldings(s.core, s.procs[a.pid].id);
      hide SettleRow, RefundRow;
    } else if a.CallNode? || a.NodeDrops? || a.CloseDebit? {
      hide Credit, BusyHash, HashOf;
    } else {
      hide Enabled;
      StartsKeepHoldings(s, a);
    }
  }

  lemma OthersKeepHoldings(s: State, a: Action)
    requires Enabled(s, a) && !MovesHoldings(a)
    ensures CoreAfter(s, a).holdings == s.core.holdings
  {
    if OnDebits(a) {
      DebitStepsKeepHoldings(s, a);
    } else {
      hide Transfer, Resolve, ChargeFee, RefundFee, StoreRow, PurgeStaleLn, Purged;
    }
  }

  lemma MovedHoldings(s: State, a: Action, asset: string)
    requires Enabled(s, a) && MovesHoldings(a) && !TakesUnits(s, a, asset)
    ensures Held(CoreAfter(s, a), asset) >= Held(s.core, asset)
  {}

  lemma HoldingStays(s: State, a: Action, asset: string)
    requires Enabled(s, a) && !TakesUnits(s, a, asset)
    ensures Held(Step(s, a).core, asset) >= Held(s.core, asset)
  {
    StepCore(s, a);
    hide Enabled, Step, CoreAfter, TakesUnits;
    if MovesHoldings(a) {
      MovedHoldings(s, a, asset);
    } else {
      OthersKeepHoldings(s, a);
    }
  }

  lemma {:induction false} HoldingStaysOverRun(s: State, run: seq<Action>, asset: string)
    requires CanRun(s, run) && NothingLeaves(s, run, asset)
    ensures Held(Run(s, run).core, asset) >= Held(s.core, asset)
    decreases |run|
  {
    if run != [] {
      hide Enabled, Step, Held, TakesUnits;
      HoldingStays(s, run[0], asset);
      HoldingStaysOverRun(Step(s, run[0]), run[1..], asset);
    }
  }

  /** What users are owed in a state without drift the node still holds later, unless units
      of the asset have left it in between. */
  lemma LiabilityStaysHeld(s: State, run: seq<Action>, asset: string)
    requires Reachable(s) && CanRun(s, run) && NothingLeaves(s, run, asset)
    requires forall d :: d in s.core.payments ==> DriftOf(s.core.payments[d], asset) == 0
    ensures Liability(s.core.t, asset) <= Held(Run(s, run).core, asset)
  {
    SolventExactlyWhenDriftIsCovered(s, asset);
    HoldingStaysOverRun(s, run, asset);
  }
}
