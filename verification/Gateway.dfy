/** The gateway as a concurrent system: request handlers, the reconcilers and the
    recovery loop are programs with a program counter whose steps interleave in any
    order; each registry call is one step, each call to the node is a step whose answer
    the environment chooses. Handlers may vanish between steps, and a crash loses every
    one of them and keeps the tables. */
module Gateway {
  import opened Numbers
  import opened MapSum
  import opened Ledger
  import opened LedgerLaws
  import opened GatewayCore

  /** Fee collection: switched on, and the operator, fixed for the run. */
  datatype Policy = Policy(charging: bool, operator: Option<string>)

  /** Who collects a fee from `payer`, if anyone: the operator pays none. */
  function Collector(policy: Policy, payer: string): Option<string> {
    if policy.charging && policy.operator.Some? && policy.operator.value != payer then policy.operator else None
  }

  datatype Verdict = IsSettled | IsCanceled | Undecided

  type TrackedRow = (nat, InFlightRow)

  /** Where a program stands. A charge is the fee it has taken, if one was due. */
  datatype Proc =
    | FeeDue(d: DebitId, fee: nat)
    | FeeRefused(d: DebitId)
    | CallDue(d: DebitId, charge: Option<nat>)
    | Calling(d: DebitId, charge: Option<nat>)
    | Accepted(d: DebitId, charge: Option<nat>)
    | Refused(d: DebitId, charge: Option<nat>)
    | FeeBack(amount: nat)
    | MintFeeDue(units: U64, fee: nat)
    | MintDue(units: U64, charge: Option<nat>)
    | KeyIssued(key: Key, charge: Option<nat>)
    | Reconciling(keys: seq<Key>)
    | Answered(key: Key, verdict: Verdict, keys: seq<Key>)
    | Recovering(rows: seq<TrackedRow>)
    | Tracked(id: nat, outcome: Option<HashStatus>, rows: seq<TrackedRow>)

  datatype Request = SendRequest | PayRequest | BurnRequest | MintRequest | KeyRequest | Background

  /** A program's client and debit, what the program's own steps have done to the client's
      balance of the asset concerned and to the client's sats, and what recovery steps on
      the program's debit have done to that balance. */
  datatype Job = Job(request: Request, user: string, asset: string, debit: Option<DebitId>,
                     units: int, restored: int, sats: int)

  datatype Reply = Success | Failure

  datatype State = State(
    core: Core,
    procs: map<nat, Proc>,
    jobs: map<nat, Job>,
    replies: map<nat, Reply>,
    nextPid: nat,
    policy: Policy)

  function Init(policy: Policy): State {
    State(EMPTY_CORE, map[], map[], map[], 0, policy)
  }

  datatype Action =
    | MoveUnits(asset: string, from: string, to_: string, amount: nat)
    | StartSend(row: InFlightRow, fee: nat)
    | StartPay(row: InFlightRow)
    | StartBurn(row: InFlightRow)
    | StartMint(user: string, units: U64, fee: nat)
    | ChargeStep(pid: nat)
    | Unreserve(pid: nat)
    | CallNode(pid: nat)
    | NodePays(d: DebitId)
    | NodeDrops(d: DebitId)
    | NodeAnswers(pid: nat, ok: bool)
    | CloseDebit(pid: nat, txid: string)
    | ReturnCharge(pid: nat)
    | NodeMints(pid: nat, key: Key, asset: string)
    | MintFails(pid: nat)
    | IssueKey(key: Key, asset: string, user: string, units: U64)
    | StoreKey(pid: nat, now: int)
    | NodeConfirms(key: Key)
    | NodeCancels(key: Key)
    | StartReconcile(keys: seq<Key>)
    | AskNode(pid: nat, verdict: Verdict)
    | ApplyAnswer(pid: nat)
    | PurgeInvoices(cutoff: int)
    | StartRecovery(rows: seq<TrackedRow>)
    | TrackPayment(pid: nat, answer: Option<HashStatus>)
    | ApplyTrack(pid: nat)
    | EndLoop(pid: nat)
    | FundNode(asset: string, amount: nat)
    | SpendSurplus(asset: string, amount: nat)
    | Vanish(pid: nat)
    | Crash

  /** What a step does to the set of running programs. */
  datatype Move =
    | Stay
    | Begin(job: Job, proc: Proc)
    | Go(pid: nat, proc: Proc)
    | Finish(pid: nat, reply: Reply)
    | Lose(pid: nat)
    | LoseAll

  // ---- Lightning payment hashes at the node -------------------------------------------

  /** The hash the node knows a Lightning payment by. */
  function HashOf(row: InFlightRow): Option<string> {
    if row.kind == LnSend then row.reference else None
  }

  /** The node refuses to pay a hash it is paying or has paid; a failed one may be retried. */
  predicate BusyHash(c: Core, row: InFlightRow) {
    var h := HashOf(row);
    h.Some? && h.value in c.hashes && c.hashes[h.value] != Failed
  }

  function MarkHash(c: Core, row: InFlightRow, status: HashStatus): Core {
    var h := HashOf(row);
    if h.Some? then c.(hashes := c.hashes[h.value := status]) else c
  }

  // ---- Steps ------------------------------------------------------------------------------

  predicate Running(s: State, pid: nat) {
    pid in s.procs && pid in s.jobs
  }

  /** A fee due now: taken, not due at all, or refused for lack of sats. */
  function TryCharge(t: Tables, policy: Policy, payer: string, fee: nat): (Result<Tables, RegistryError>, Option<nat>) {
    var collector := Collector(policy, payer);
    if collector.None? then (Ok(t), None)
    else (ChargeFee(t, payer, collector.value, fee), Some(fee))
  }

  predicate Enabled(s: State, a: Action) {
    match a
    case MoveUnits(asset, from, to_, amount) =>
      amount > 0 && to_ != from && Transfer(s.core.t, asset, from, to_, amount).Ok?
    case StartSend(row, fee) => row.kind == Send && DebitAndMark(s.core.t, row).Ok?
    case StartPay(row) => row.kind == LnSend && row.amount > 0 && DebitAndMark(s.core.t, row).Ok?
    case StartBurn(row) =>
      row.kind == Burn && row.amount > 0 && Debit(s.core.t, row.asset, row.pubkey, row.amount).Ok?
    case StartMint(user, units, fee) => true
    case ChargeStep(pid) =>
      Running(s, pid) && (s.procs[pid].MintFeeDue? || (s.procs[pid].FeeDue? && s.procs[pid].d in s.core.payments))
    case Unreserve(pid) => Running(s, pid) && s.procs[pid].FeeRefused? && s.procs[pid].d.Row?
    case CallNode(pid) => Running(s, pid) && s.procs[pid].CallDue? && s.procs[pid].d in s.core.payments
    case NodePays(d) =>
      d in s.core.payments && s.core.payments[d].fate == Sent &&
      s.core.payments[d].row.amount <= Held(s.core, s.core.payments[d].row.asset)
    case NodeDrops(d) => d in s.core.payments && s.core.payments[d].fate == Sent
    case NodeAnswers(pid, ok) =>
      Running(s, pid) && s.procs[pid].Calling? && s.procs[pid].d in s.core.payments &&
      (ok ==> s.core.payments[s.procs[pid].d].fate == Left)
    case CloseDebit(pid, txid) =>
      Running(s, pid) && (s.procs[pid].Accepted? || s.procs[pid].Refused?) && s.procs[pid].d in s.core.payments
    case ReturnCharge(pid) => Running(s, pid) && s.procs[pid].FeeBack? && s.policy.operator.Some?
    case NodeMints(pid, key, asset) =>
      Running(s, pid) && s.procs[pid].MintDue? && key.BatchKey? && key !in s.core.claims
    case MintFails(pid) => Running(s, pid) && s.procs[pid].MintDue?
    case IssueKey(key, asset, user, units) => !key.BatchKey? && key !in s.core.claims && units > 0
    case StoreKey(pid, now) => Running(s, pid) && s.procs[pid].KeyIssued? && s.procs[pid].key in s.core.claims
    case NodeConfirms(key) => key in s.core.claims && !s.core.claims[key].arrived && !s.core.claims[key].cancelled
    case NodeCancels(key) => (key.LnHash? || key.SatsHash?) && key in s.core.claims && !s.core.claims[key].arrived
    case StartReconcile(keys) => forall i :: 0 <= i < |keys| ==> keys[i] in s.core.t.pending
    case AskNode(pid, verdict) =>
      Running(s, pid) && s.procs[pid].Reconciling? && s.procs[pid].keys != [] && s.procs[pid].keys[0] in s.core.claims &&
      (verdict.IsSettled? ==> s.core.claims[s.procs[pid].keys[0]].arrived) &&
      (verdict.IsCanceled? ==> s.core.claims[s.procs[pid].keys[0]].cancelled)
    case ApplyAnswer(pid) => Running(s, pid) && s.procs[pid].Answered?
    case PurgeInvoices(cutoff) => true
    case StartRecovery(rows) =>
      forall i :: 0 <= i < |rows| ==> rows[i].0 in s.core.t.inFlight && s.core.t.inFlight[rows[i].0] == rows[i].1
    case TrackPayment(pid, answer) =>
      Running(s, pid) && s.procs[pid].Recovering? && s.procs[pid].rows != [] &&
      (answer.Some? ==>
         var h := HashOf(s.procs[pid].rows[0].1);
         h.Some? && h.value in s.core.hashes && s.core.hashes[h.value] == answer.value)
    case ApplyTrack(pid) => Running(s, pid) && s.procs[pid].Tracked?
    case EndLoop(pid) =>
      Running(s, pid) && ((s.procs[pid].Reconciling? && s.procs[pid].keys == []) ||
                          (s.procs[pid].Recovering? && s.procs[pid].rows == []))
    case FundNode(asset, amount) => true
    case SpendSurplus(asset, amount) => amount <= Spare(s.core, asset) && amount <= Held(s.core, asset)
    case Vanish(pid) => pid in s.procs
    case Crash => true
  }

  /** Tables and account after a step. */
  function CoreAfter(s: State, a: Action): Core
    requires Enabled(s, a)
  {
    var c := s.core;
    match a
    case MoveUnits(asset, from, to_, amount) => WithTables(c, Transfer(c.t, asset, from, to_, amount).value)
    case StartSend(row, fee) => MarkRow(c, row, s.nextPid)
    case StartPay(row) => MarkRow(c, row, s.nextPid)
    case StartBurn(row) => OpenBurn(c, s.nextPid, row)
    case ChargeStep(pid) =>
      var charged := TryCharge(s.core.t, s.policy, s.jobs[pid].user, s.procs[pid].fee).0;
      if charged.Ok? then WithTables(c, charged.value) else c
    case Unreserve(pid) => RefundRow(c, s.procs[pid].d.id)
    case CallNode(pid) =>
      var d := s.procs[pid].d;
      var row := c.payments[d].row;
      if BusyHash(c, row) then SetFate(c, d, Dropped) else MarkHash(SetFate(c, d, Sent), row, InTransit)
    case NodePays(d) => MarkHash(PayOut(c, d), c.payments[d].row, Succeeded)
    case NodeDrops(d) => MarkHash(SetFate(c, d, Dropped), c.payments[d].row, Failed)
    case CloseDebit(pid, txid) =>
      var d := s.procs[pid].d;
      if d.Row? then
        if s.procs[pid].Refused? then RefundRow(c, d.id)
        else SettleRow(c, d.id, if c.payments[d].row.kind == Send then Some(txid) else None)
      else if s.procs[pid].Refused? then RefundBurn(c, d)
      else RecordBurn(c, d, txid)
    case ReturnCharge(pid) =>
      WithTables(c, RefundFee(c.t, s.jobs[pid].user, s.policy.operator.value, s.procs[pid].amount))
    case NodeMints(pid, key, asset) =>
      PutClaim(c, key, Claim(s.jobs[pid].user, asset, s.procs[pid].units, pid, false, false, Issued))
    case IssueKey(key, asset, user, units) =>
      PutClaim(c, key, Claim(user, asset, units, s.nextPid, false, false, Issued))
    case StoreKey(pid, now) => Await(c, s.procs[pid].key, now)
    case NodeConfirms(key) => Arrive(c, key)
    case NodeCancels(key) => PutClaim(c, key, c.claims[key].(cancelled := true))
    case ApplyAnswer(pid) =>
      match s.procs[pid].verdict {
        case IsSettled => PayClaim(c, s.procs[pid].key)
        case IsCanceled => DropClaim(c, s.procs[pid].key)
        case Undecided => c
      }
    case PurgeInvoices(cutoff) => PurgeClaims(c, cutoff)
    case ApplyTrack(pid) =>
      if s.procs[pid].outcome == Some(Succeeded) then SettleRow(c, s.procs[pid].id, None)
      else if s.procs[pid].outcome == Some(Failed) then RefundRow(c, s.procs[pid].id)
      else c
    case FundNode(asset, amount) => Fund(c, asset, amount)
    case SpendSurplus(asset, amount) => SpendOwn(c, asset, amount)
    case _ => c
  }

  function Client(request: Request, user: string, asset: string, debit: Option<DebitId>): Job {
    Job(request, user, asset, debit, 0, 0, 0)
  }

  const LOOP: Job := Job(Background, "", "", None, 0, 0, 0)

  /** Where the acting program goes next. */
  function MoveAfter(s: State, a: Action): (m: Move)
    requires Enabled(s, a)
    ensures m.Go? || m.Finish? ==> Running(s, m.pid)
  {
    match a
    case StartSend(row, fee) =>
      Begin(Client(SendRequest, row.pubkey, row.asset, Some(Row(s.core.t.nextId))), FeeDue(Row(s.core.t.nextId), fee))
    case StartPay(row) =>
      Begin(Client(PayRequest, row.pubkey, row.asset, Some(Row(s.core.t.nextId))), CallDue(Row(s.core.t.nextId), None))
    case StartBurn(row) =>
      Begin(Client(BurnRequest, row.pubkey, row.asset, Some(BurnOf(s.nextPid))), CallDue(BurnOf(s.nextPid), None))
    case StartMint(user, units, fee) => Begin(Client(MintRequest, user, "", None), MintFeeDue(units, fee))
    case ChargeStep(pid) =>
      var (charged, charge) := TryCharge(s.core.t, s.policy, s.jobs[pid].user, s.procs[pid].fee);
      if s.procs[pid].FeeDue? then
        Go(pid, if charged.Ok? then CallDue(s.procs[pid].d, charge) else FeeRefused(s.procs[pid].d))
      else if charged.Ok? then Go(pid, MintDue(s.procs[pid].units, charge))
      else Finish(pid, Failure)
    case Unreserve(pid) => Finish(pid, Failure)
    case CallNode(pid) => Go(pid, Calling(s.procs[pid].d, s.procs[pid].charge))
    case NodeAnswers(pid, ok) =>
      Go(pid, if ok then Accepted(s.procs[pid].d, s.procs[pid].charge) else Refused(s.procs[pid].d, s.procs[pid].charge))
    case CloseDebit(pid, txid) =>
      if s.procs[pid].Accepted? then Finish(pid, Success)
      else if s.procs[pid].charge.Some? then Go(pid, FeeBack(s.procs[pid].charge.value))
      else Finish(pid, Failure)
    case ReturnCharge(pid) => Finish(pid, Failure)
    case NodeMints(pid, key, asset) => Go(pid, KeyIssued(key, s.procs[pid].charge))
    case MintFails(pid) =>
      if s.procs[pid].charge.Some? then Go(pid, FeeBack(s.procs[pid].charge.value)) else Finish(pid, Failure)
    case IssueKey(key, asset, user, units) => Begin(Client(KeyRequest, user, asset, None), KeyIssued(key, None))
    case StoreKey(pid, now) => Finish(pid, Success)
    case StartReconcile(keys) => Begin(LOOP, Reconciling(keys))
    case AskNode(pid, verdict) => Go(pid, Answered(s.procs[pid].keys[0], verdict, s.procs[pid].keys[1..]))
    case ApplyAnswer(pid) => Go(pid, Reconciling(s.procs[pid].keys))
    case StartRecovery(rows) => Begin(LOOP, Recovering(rows))
    case TrackPayment(pid, answer) => Go(pid, Tracked(s.procs[pid].rows[0].0, answer, s.procs[pid].rows[1..]))
    case ApplyTrack(pid) => Go(pid, Recovering(s.procs[pid].rows))
    case EndLoop(pid) => Finish(pid, Success)
    case Vanish(pid) => Lose(pid)
    case Crash => LoseAll
    case _ => Stay
  }

  /** The acting program's account of its client, read off the tables before and after. */
  function Tally(before: Tables, after: Tables, j: Job): Job {
    j.(units := j.units + Bal(after, j.asset, j.user) - Bal(before, j.asset, j.user),
       sats := j.sats + SatsOf(after, j.user) - SatsOf(before, j.user))
  }

  function Apply(s: State, c: Core, m: Move): State
    requires m.Go? || m.Finish? ==> Running(s, m.pid)
  {
    match m
    case Stay => s.(core := c)
    case Begin(job, proc) =>
      s.(core := c, procs := s.procs[s.nextPid := proc],
         jobs := s.jobs[s.nextPid := Tally(s.core.t, c.t, job)], nextPid := s.nextPid + 1)
    case Go(pid, proc) =>
      s.(core := c, procs := s.procs[pid := proc], jobs := s.jobs[pid := Tally(s.core.t, c.t, s.jobs[pid])])
    case Finish(pid, reply) =>
      s.(core := c, procs := s.procs - {pid}, replies := s.replies[pid := reply],
         jobs := s.jobs[pid := Tally(s.core.t, c.t, s.jobs[pid])])
    case Lose(pid) => s.(core := c, procs := s.procs - {pid})
    case LoseAll => s.(core := c, procs := map[])
  }

  /** The program whose debit a recovery step closes. */
  function Debtor(s: State, a: Action): Option<nat>
    requires Enabled(s, a)
  {
    if a.ApplyTrack? && Row(s.procs[a.pid].id) in s.core.payments
    then Some(s.core.payments[Row(s.procs[a.pid].id)].owner) else None
  }

  /** What recovery has done for a client, read off the tables before and after. */
  function Restore(jobs: map<nat, Job>, debtor: Option<nat>, before: Tables, after: Tables): map<nat, Job> {
    if debtor.None? || debtor.value !in jobs then jobs
    else
      var j := jobs[debtor.value];
      jobs[debtor.value := j.(restored := j.restored + Bal(after, j.asset, j.user) - Bal(before, j.asset, j.user))]
  }

  function Step(s: State, a: Action): State
    requires Enabled(s, a)
  {
    var after := Apply(s, CoreAfter(s, a), MoveAfter(s, a));
    after.(jobs := Restore(after.jobs, Debtor(s, a), s.core.t, after.core.t))
  }

  /** The program that takes a step, if one does. */
  function Actor(s: State, m: Move): Option<nat> {
    match m
    case Begin(_, _) => Some(s.nextPid)
    case Go(pid, _) => Some(pid)
    case Finish(pid, _) => Some(pid)
    case _ => None
  }

  // ---- Runs -----------------------------------------------------------------------------------

  predicate CanRun(s: State, run: seq<Action>)
    decreases |run|
  {
    run == [] || (Enabled(s, run[0]) && CanRun(Step(s, run[0]), run[1..]))
  }

  function Run(s: State, run: seq<Action>): State
    requires CanRun(s, run)
    decreases |run|
  {
    if run == [] then s else Run(Step(s, run[0]), run[1..])
  }

  ghost predicate Reachable(s: State) {
    exists run: seq<Action> :: CanRun(Init(s.policy), run) && Run(Init(s.policy), run) == s
  }
}
