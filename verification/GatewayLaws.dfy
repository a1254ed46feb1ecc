/** What holds in every state the gateway can reach, whatever its programs interleave
    with, lose or crash through. */
module GatewayLaws {
  import opened Numbers
  import opened MapSum
  import opened Ledger
  import opened LedgerLaws
  import opened GatewayCore
  import opened GatewayCoreLaws
  import opened Gateway

  // ---- What a program knows ------------------------------------------------------------

  function KindFor(request: Request): EventKind {
    match request
    case PayRequest => LnSend
    case BurnRequest => Burn
    case _ => Send
  }

  /** The program made debit `d` for its client; unless it is a Lightning payment, nobody
      else can have closed it. */
  predicate MadeDebit(ps: map<DebitId, Payment>, job: Job, pid: nat, d: DebitId) {
    && d in ps && ps[d].owner == pid
    && job.user == ps[d].row.pubkey && job.asset == ps[d].row.asset
    && ps[d].row.kind == KindFor(job.request)
    && (d.Row? <==> job.request != BurnRequest) && (d.BurnOf? ==> d.pid == pid)
    && job.request != MintRequest
    && (job.request != PayRequest ==> ps[d].closing == Open)
  }

  /** Nobody is charged but while fees are switched on, and then only a payer other than the
      operator. */
  predicate MayCharge(policy: Policy, job: Job, charge: Option<nat>) {
    charge.Some? ==>
      policy.charging && policy.operator.Some? && policy.operator.value != job.user && job.request != PayRequest
  }

  function Charged(charge: Option<nat>): nat {
    if charge.Some? then charge.value else 0
  }

  predicate NetIs(job: Job, units: int, sats: int) {
    job.units == units && job.sats == sats
  }

  predicate Reserving(ps: map<DebitId, Payment>, policy: Policy, job: Job, pid: nat, d: DebitId, charge: Option<nat>) {
    && MadeDebit(ps, job, pid, d)
    && MayCharge(policy, job, charge)
    && var n: int, f: int := ps[d].row.amount, Charged(charge); NetIs(job, -n, -f)
  }

  predicate KnownRow(ps: map<DebitId, Payment>, row: TrackedRow) {
    Row(row.0) in ps && ps[Row(row.0)].row == row.1
  }

  ghost predicate ProcOk(ps: map<DebitId, Payment>, cs: map<Key, Claim>, policy: Policy, job: Job, pid: nat, p: Proc) {
    match p
    case FeeDue(d, fee) => Reserving(ps, policy, job, pid, d, None) && job.request == SendRequest && ps[d].fate == Unsent
    case FeeRefused(d) => Reserving(ps, policy, job, pid, d, None) && job.request == SendRequest && ps[d].fate == Unsent
    case CallDue(d, charge) => Reserving(ps, policy, job, pid, d, charge) && ps[d].fate == Unsent
    case Calling(d, charge) => Reserving(ps, policy, job, pid, d, charge) && ps[d].fate != Unsent
    case Accepted(d, charge) => Reserving(ps, policy, job, pid, d, charge) && ps[d].fate == Left
    case Refused(d, charge) => Reserving(ps, policy, job, pid, d, charge) && ps[d].fate != Unsent
    case FeeBack(amount) => MayCharge(policy, job, Some(amount)) && var f: int := amount; NetIs(job, 0, -f)
    case MintFeeDue(units, fee) => job.request == MintRequest && NetIs(job, 0, 0)
    case MintDue(units, charge) =>
      job.request == MintRequest && MayCharge(policy, job, charge) && var f: int := Charged(charge); NetIs(job, 0, -f)
    case KeyIssued(k, charge) =>
      k in cs && cs[k].owner == pid && cs[k].stage == Issued && (var f: int := Charged(charge); NetIs(job, 0, -f))
      && (job.request == MintRequest || job.request == KeyRequest)
    case Reconciling(keys) => forall i :: 0 <= i < |keys| ==> keys[i] in cs
    case Answered(k, verdict, keys) =>
      k in cs && (verdict.IsSettled? ==> cs[k].arrived) && forall i :: 0 <= i < |keys| ==> keys[i] in cs
    case Recovering(rows) => forall i :: 0 <= i < |rows| ==> KnownRow(ps, rows[i])
    case Tracked(id, outcome, rows) =>
      && Row(id) in ps && (outcome.Some? ==> ps[Row(id)].row.kind == LnSend)
      && forall i :: 0 <= i < |rows| ==> KnownRow(ps, rows[i])
  }

  ghost predicate ProcsOk(s: State) {
    forall pid :: pid in s.procs ==>
      pid < s.nextPid && pid in s.jobs && ProcOk(s.core.payments, s.core.claims, s.policy, s.jobs[pid], pid, s.procs[pid])
  }

  ghost predicate OwnersOk(c: Core, nextPid: nat) {
    && (forall d :: d in c.payments ==> c.payments[d].owner < nextPid && (d.BurnOf? ==> d.pid == c.payments[d].owner))
    && (forall k :: k in c.claims ==> c.claims[k].owner < nextPid)
  }

  predicate CostsNothing(job: Job) {
    job.sats == 0 && (job.request != PayRequest ==> job.units == 0)
  }

  /** A request answered with a failure has cost its client nothing by the handler's own
      steps, except that recovery may have closed a Lightning payment before the handler. */
  ghost predicate RepliesOk(s: State) {
    forall pid :: pid in s.replies ==>
      && pid < s.nextPid && pid !in s.procs && pid in s.jobs
      && (s.replies[pid] == Failure ==> CostsNothing(s.jobs[pid]))
  }

  // ---- Fees that may still be given back -------------------------------------------------

  function ChargeIn(p: Proc): int {
    match p
    case CallDue(_, charge) => Charged(charge)
    case Calling(_, charge) => Charged(charge)
    case Refused(_, charge) => Charged(charge)
    case MintDue(_, charge) => Charged(charge)
    case FeeBack(amount) => amount
    case _ => 0
  }

  function ChargesIn(procs: map<nat, Proc>): map<nat, int> {
    map pid | pid in procs :: ChargeIn(procs[pid])
  }

  ghost function Refundable(procs: map<nat, Proc>): int {
    Sum(ChargesIn(procs))
  }

  /** The operator still has every fee it may have to give back. */
  ghost predicate Covered(s: State) {
    s.policy.operator.Some? ==> Refundable(s.procs) <= SatsOf(s.core.t, s.policy.operator.value)
  }

  ghost predicate GatewayInv(s: State) {
    CoreInv(s.core) && ProcsOk(s) && OwnersOk(s.core, s.nextPid) && RepliesOk(s) && Covered(s)
  }

  // ---- From one program's step to the whole system -------------------------------------------

  function ChargeOf(procs: map<nat, Proc>, pid: nat): int {
    if pid in procs then ChargeIn(procs[pid]) else 0
  }

  /** How a move changes the fees that may still be given back; losing programs only
      lowers them. */
  function ChargeDelta(s: State, m: Move): int {
    match m
    case Begin(_, p) => ChargeIn(p)
    case Go(pid, p) => ChargeIn(p) - ChargeOf(s.procs, pid)
    case Finish(pid, _) => -ChargeOf(s.procs, pid)
    case _ => 0
  }

  function OperatorSats(s: State, t: Tables): int {
    if s.policy.operator.Some? then SatsOf(t, s.policy.operator.value) else 0
  }

  /** The acting program ends up where it should be. */
  ghost predicate ActorOk(s: State, c: Core, m: Move) {
    match m
    case Begin(job, p) => ProcOk(c.payments, c.claims, s.policy, Tally(s.core.t, c.t, job), s.nextPid, p)
    case Go(pid, p) => Running(s, pid) && ProcOk(c.payments, c.claims, s.policy, Tally(s.core.t, c.t, s.jobs[pid]), pid, p)
    case Finish(pid, reply) =>
      Running(s, pid) &&
      (reply == Failure ==> CostsNothing(Tally(s.core.t, c.t, s.jobs[pid])))
    case _ => true
  }

  ghost predicate Good(s: State, c: Core, m: Move) {
    && Forward(s.core, c, Actor(s, m))
    && OwnersOk(c, if m.Begin? then s.nextPid + 1 else s.nextPid)
    && ActorOk(s, c, m)
    && OperatorSats(s, c.t) - OperatorSats(s, s.core.t) >= ChargeDelta(s, m)
  }

  /** Nobody else's step disturbs what a program knows. */
  lemma OthersKeep(ps: map<DebitId, Payment>, qs: map<DebitId, Payment>, cs: map<Key, Claim>, ds: map<Key, Claim>,
                   actor: Option<nat>, policy: Policy, job: Job, pid: nat, p: Proc)
    requires PaymentsEvolve(ps, qs, actor) && ClaimsEvolve(cs, ds, actor) && actor != Some(pid)
    requires ProcOk(ps, cs, policy, job, pid, p)
    ensures ProcOk(qs, ds, policy, job, pid, p)
  {}

  lemma ApplyCore(s: State, c: Core, m: Move)
    requires m.Go? || m.Finish? ==> Running(s, m.pid)
    ensures Apply(s, c, m).core == c && Apply(s, c, m).policy == s.policy
  {}

  lemma ProcKeeps(s: State, c: Core, m: Move, pid: nat)
    requires GatewayInv(s) && Good(s, c, m) && pid in Apply(s, c, m).procs
    ensures var after := Apply(s, c, m);
            pid < after.nextPid && pid in after.jobs &&
            ProcOk(c.payments, c.claims, s.policy, after.jobs[pid], pid, after.procs[pid])
  {
    hide ProcOk, PaymentsEvolve, ClaimsEvolve, CoreInv, OwnersOk, RepliesOk, Covered, Tally;
    var after := Apply(s, c, m);
    if Actor(s, m) != Some(pid) {
      assert pid in s.procs && after.procs[pid] == s.procs[pid] && after.jobs[pid] == s.jobs[pid];
      OthersKeep(s.core.payments, c.payments, s.core.claims, c.claims, Actor(s, m), s.policy, s.jobs[pid], pid, s.procs[pid]);
    }
  }

  lemma ProcsKeep(s: State, c: Core, m: Move)
    requires GatewayInv(s) && Good(s, c, m)
    ensures ProcsOk(Apply(s, c, m))
  {
    GoodRuns(s, c, m);
    hide ProcOk, GatewayInv, Good, Apply;
    var after := Apply(s, c, m);
    ApplyCore(s, c, m);
    forall pid | pid in after.procs
      ensures pid < after.nextPid && pid in after.jobs &&
              ProcOk(c.payments, c.claims, s.policy, after.jobs[pid], pid, after.procs[pid])
    {
      ProcKeeps(s, c, m, pid);
    }
  }

  lemma GoodRuns(s: State, c: Core, m: Move)
    requires Good(s, c, m)
    ensures m.Go? || m.Finish? ==> Running(s, m.pid)
  {}

  lemma RefundableUpdate(procs: map<nat, Proc>, pid: nat, p: Proc)
    ensures Refundable(procs[pid := p]) == Refundable(procs) - ChargeOf(procs, pid) + ChargeIn(p)
  {
    assert ChargesIn(procs[pid := p]) == ChargesIn(procs)[pid := ChargeIn(p)];
    SumUpdate(ChargesIn(procs), pid, ChargeIn(p));
  }

  lemma RefundableRemove(procs: map<nat, Proc>, pid: nat)
    ensures Refundable(procs - {pid}) == Refundable(procs) - ChargeOf(procs, pid)
  {
    assert ChargesIn(procs - {pid}) == ChargesIn(procs) - {pid};
    SumRemove(ChargesIn(procs), pid);
  }

  lemma RefundableBounds(procs: map<nat, Proc>, pid: nat)
    ensures 0 <= ChargeOf(procs, pid) <= Refundable(procs)
  {
    SumBounds(ChargesIn(procs));
    assert pid in procs ==> ChargesIn(procs)[pid] == ChargeIn(procs[pid]);
  }

  lemma CoverKeeps(s: State, c: Core, m: Move)
    requires m.Go? || m.Finish? ==> Running(s, m.pid)
    requires m.Begin? ==> s.nextPid !in s.procs
    requires OperatorSats(s, c.t) - OperatorSats(s, s.core.t) >= ChargeDelta(s, m)
    requires Covered(s)
    ensures Covered(Apply(s, c, m))
  {
    hide Refundable, SatsOf;
    match m
    case Stay =>
    case Begin(_, p) => RefundableUpdate(s.procs, s.nextPid, p);
    case Go(pid, p) => RefundableUpdate(s.procs, pid, p);
    case Finish(pid, _) => RefundableRemove(s.procs, pid);
    case Lose(pid) => RefundableRemove(s.procs, pid); RefundableBounds(s.procs, pid);
    case LoseAll => RefundableBounds(s.procs, 0); NoneRefundable();
  }

  lemma NoneRefundable()
    ensures Refundable(map[]) == 0
  {
    assert ChargesIn(map[]) == map[];
  }

  lemma RepliesKeep(s: State, c: Core, m: Move)
    requires RepliesOk(s) && ProcsOk(s) && ActorOk(s, c, m)
    ensures RepliesOk(Apply(s, c, m))
  {
    hide ProcOk, CostsNothing, Tally;
    var after := Apply(s, c, m);
    forall pid | pid in after.replies
      ensures pid < after.nextPid && pid !in after.procs && pid in after.jobs
      ensures after.replies[pid] == Failure ==> CostsNothing(after.jobs[pid])
    {
      if m.Finish? && pid == m.pid {
        assert after.jobs[pid] == Tally(s.core.t, c.t, s.jobs[pid]);
        TallyKeepsClient(s.core.t, c.t, s.jobs[pid]);
      } else {
        assert pid in s.replies && after.replies[pid] == s.replies[pid];
        assert after.jobs[pid] == s.jobs[pid];
      }
    }
  }

  lemma TallyKeepsClient(before: Tables, after: Tables, j: Job)
    ensures Tally(before, after, j) == j.(units := Tally(before, after, j).units, sats := Tally(before, after, j).sats)
  {}

  /** A good step keeps the whole invariant. */
  lemma GoodKeeps(s: State, c: Core, m: Move)
    requires GatewayInv(s) && Good(s, c, m)
    ensures GatewayInv(Apply(s, c, m))
  {
    ProcsKeep(s, c, m);
    assert s.nextPid !in s.procs;
    CoverKeeps(s, c, m);
    RepliesKeep(s, c, m);
    hide ProcsOk, RepliesOk, Covered, CoreInv, OwnersOk, ActorOk, PaymentsEvolve, ClaimsEvolve;
  }
}
