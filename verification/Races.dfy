/** How solvency is lost: runs the program allows, from any state with the funds for them. */
module Races {
  import opened Numbers
  import opened MapSum
  import opened Ledger
  import opened LedgerLaws
  import opened GatewayCore
  import opened GatewayCoreLaws
  import opened Gateway
  import opened GatewayLaws
  import opened GatewaySteps
  import opened GatewayShapes
  import opened GatewayTheorems
  import opened GatewayTally
  import opened GatewayHashes
  import opened PayCosts

  /** The payer can reserve the units of a Lightning payment. */
  ghost predicate CanReserve(s: State, row: InFlightRow) {
    row.kind == LnSend && row.amount > 0 && row.amount <= Bal(s.core.t, row.asset, row.pubkey)
  }

  /** The payer can reserve the units, the node can pay them, and the invoice has a hash. */
  ghost predicate CanPay(s: State, row: InFlightRow) {
    CanReserve(s, row) && row.reference.Some? && row.amount <= Held(s.core, row.asset)
  }

  ghost function Shortfall(s: State, asset: string): int {
    Liability(s.core.t, asset) - Held(s.core, asset)
  }

  /** The payment just started by program `pid`, as the tables and the account show it. */
  ghost predicate Started(s: State, row: InFlightRow, pid: nat, id: nat) {
    && pid in s.jobs && pid < s.nextPid && Row(id) in s.core.payments
    && s.core.payments[Row(id)].row == row && s.core.payments[Row(id)].closing == Open
    && id in s.core.t.inFlight && s.core.t.inFlight[id] == row
  }

  /** Program `pid` has reserved its payment and stands before the call. */
  ghost predicate Stalled(s: State, row: InFlightRow, pid: nat, id: nat) {
    && Started(s, row, pid, id) && s.core.payments[Row(id)].fate == Unsent
    && pid in s.procs && s.procs[pid] == CallDue(Row(id), None)
  }

  /** Reserving the units lowers what the ledger owes. */
  lemma ReservingLowers(c: Core, row: InFlightRow, owner: nat)
    requires CoreInv(c) && PaysOut(row) && row.amount <= Bal(c.t, row.asset, row.pubkey)
    ensures DebitAndMark(c.t, row).Ok?
    ensures var d, id := MarkRow(c, row, owner), c.t.nextId;
            && d.payments == c.payments[Row(id) := Payment(row, owner, Open, Unsent)]
            && d.t.inFlight == c.t.inFlight[id := row]
            && d.holdings == c.holdings && d.hashes == c.hashes
            && Liability(d.t, row.asset) == Liability(c.t, row.asset) - row.amount
  {
    DebitMoves(c.t, row.asset, row.pubkey, row.amount, row.asset, row.pubkey);
    RowsMark(c.payments, c.t.inFlight, c.t.nextId, Payment(row, owner, Open, Unsent));
    MarkConserves(c.t, row, row.asset, row.pubkey);
    hide Liability, Debit;
  }

  lemma StartsPaying(s: State, row: InFlightRow)
    requires GatewayInv(s) && CanReserve(s, row)
    ensures Enabled(s, StartPay(row))
    ensures var after, id := Step(s, StartPay(row)), s.core.t.nextId;
            && Stalled(after, row, s.nextPid, id)
            && after.procs == s.procs[s.nextPid := CallDue(Row(id), None)] && after.nextPid == s.nextPid + 1
            && after.core.hashes == s.core.hashes && after.core.holdings == s.core.holdings
            && Shortfall(after, row.asset) == Shortfall(s, row.asset) - row.amount
  {
    hide CoreInv, ProcsOk, RepliesOk, Covered, OwnersOk, Liability, Debit, DebitAndMark, Tally;
    ReservingLowers(s.core, row, s.nextPid);
    var c := MarkRow(s.core, row, s.nextPid);
    assert Held(c, row.asset) == Held(s.core, row.asset);
    hide MarkRow;
  }

  /** Its handler calls the node, which takes it. */
  lemma GoesOut(s: State, row: InFlightRow, pid: nat, id: nat)
    requires Stalled(s, row, pid, id) && !BusyHash(s.core, row)
    ensures Enabled(s, CallNode(pid))
    ensures var after := Step(s, CallNode(pid));
            && Started(after, row, pid, id) && after.core.payments[Row(id)].fate == Sent
            && after.procs == s.procs[pid := Calling(Row(id), None)] && after.nextPid == s.nextPid
            && (forall other :: other in s.jobs ==> other in after.jobs)
            && after.core.t == s.core.t && after.core.holdings == s.core.holdings
            && (row.kind == LnSend && row.reference.Some? ==> after.core.hashes == s.core.hashes[row.reference.value := InTransit])
  {}

  /** A step that refunds the row raises the shortfall by what it puts back. */
  lemma RefundRaises(c: Core, id: nat)
    requires id in c.t.inFlight && Row(id) in c.payments && c.payments[Row(id)].row == c.t.inFlight[id]
    ensures var row, d := c.t.inFlight[id], RefundRow(c, id);
            && Liability(d.t, row.asset) == Liability(c.t, row.asset) + row.amount
            && d.payments == c.payments[Row(id) := c.payments[Row(id)].(closing := Refunded)]
            && d.holdings == c.holdings && d.hashes == c.hashes
            && Bal(d.t, row.asset, row.pubkey) == Bal(c.t, row.asset, row.pubkey) + row.amount
  {
    var row := c.t.inFlight[id];
    RefundConserves(c.t, id, row.asset, row.pubkey);
    hide Liability;
  }

  /** The node pays what was refunded. */
  lemma PaysAnyway(s: State, row: InFlightRow, id: nat)
    requires Row(id) in s.core.payments && s.core.payments[Row(id)].row == row && s.core.payments[Row(id)].fate == Sent
    requires row.amount <= Held(s.core, row.asset)
    ensures Enabled(s, NodePays(Row(id)))
    ensures var after := Step(s, NodePays(Row(id)));
            && Row(id) in after.core.payments
            && after.core.payments[Row(id)] == s.core.payments[Row(id)].(fate := Left)
            && Shortfall(after, row.asset) == Shortfall(s, row.asset) + row.amount
  {
    hide Liability;
  }

  /** A row is refunded although its value left: the ledger owes units the node lost. */
  ghost predicate LostUnits(s: State, row: InFlightRow, id: nat) {
    && Row(id) in s.core.payments && s.core.payments[Row(id)].row == row
    && s.core.payments[Row(id)].closing == Refunded && s.core.payments[Row(id)].fate == Left
  }

  // ---- A failure that was not final -----------------------------------------------------

  /** The node answers that the payment is not complete, the handler refunds it. */
  lemma GivesUp(s: State, row: InFlightRow, pid: nat, id: nat)
    requires Started(s, row, pid, id) && row.kind == LnSend && s.core.payments[Row(id)].fate != Unsent
    requires pid in s.procs && s.procs[pid] == Calling(Row(id), None)
    ensures Enabled(s, NodeAnswers(pid, false))
    ensures var s1 := Step(s, NodeAnswers(pid, false));
            Enabled(s1, CloseDebit(pid, "")) &&
            var after := Step(s1, CloseDebit(pid, ""));
            && after.core.payments == s.core.payments[Row(id) := s.core.payments[Row(id)].(closing := Refunded)]
            && after.core.holdings == s.core.holdings && after.core.hashes == s.core.hashes
            && Shortfall(after, row.asset) == Shortfall(s, row.asset) + row.amount
            && Bal(after.core.t, row.asset, row.pubkey) == Bal(s.core.t, row.asset, row.pubkey) + row.amount
  {
    hide Enabled, Step, CoreAfter, Liability, RefundRow, Bal;
    HearsFailure(s, row, pid, id);
    var s1 := Step(s, NodeAnswers(pid, false));
    RefundsRefused(s1, pid, id);
    StepCore(s1, CloseDebit(pid, ""));
    RefundRaises(s.core, id);
    ShortfallBy(s, Step(s1, CloseDebit(pid, "")), row.asset);
  }

  lemma ShortfallBy(s: State, after: State, asset: string)
    requires after.core.holdings == s.core.holdings
    ensures Shortfall(after, asset) - Shortfall(s, asset) == Liability(after.core.t, asset) - Liability(s.core.t, asset)
  {
    hide Liability;
  }

  lemma HearsFailure(s: State, row: InFlightRow, pid: nat, id: nat)
    requires Started(s, row, pid, id) && s.core.payments[Row(id)].fate != Unsent
    requires pid in s.procs && s.procs[pid] == Calling(Row(id), None)
    ensures Enabled(s, NodeAnswers(pid, false))
    ensures var s1 := Step(s, NodeAnswers(pid, false));
            s1.core == s.core && pid in s1.procs && s1.procs[pid] == Refused(Row(id), None) && pid in s1.jobs
  {
    hide Bal, SatsOf;
  }

  lemma RefundsRefused(s: State, pid: nat, id: nat)
    requires pid in s.procs && s.procs[pid] == Refused(Row(id), None) && pid in s.jobs && Row(id) in s.core.payments
    ensures Enabled(s, CloseDebit(pid, "")) && CoreAfter(s, CloseDebit(pid, "")) == RefundRow(s.core, id)
  {
    hide RefundRow;
  }

  function UnfinishedRun(pid: nat, row: InFlightRow, id: nat): seq<Action> {
    [StartPay(row), CallNode(pid), NodeAnswers(pid, false), CloseDebit(pid, ""), NodePays(Row(id))]
  }

  /** An answer that is not final loses units: from every sound state in which the payer
      and the node have them, there is a run that ends short by exactly the payment. */
  lemma UnfinishedPaymentDrifts(s: State, row: InFlightRow)
    requires GatewayInv(s) && CanPay(s, row) && !BusyHash(s.core, row)
    ensures var run := UnfinishedRun(s.nextPid, row, s.core.t.nextId);
            && CanRun(s, run)
            && LostUnits(Run(s, run), row, s.core.t.nextId)
            && Shortfall(Run(s, run), row.asset) == Shortfall(s, row.asset) + row.amount
  {
    hide GatewayInv, Enabled, Step, Shortfall, Bal, HashOf;
    var pid, id := s.nextPid, s.core.t.nextId;
    StartsPaying(s, row);
    var s1 := Step(s, StartPay(row));
    SameBusy(s.core, s1.core, row);
    GoesOut(s1, row, pid, id);
    var s2 := Step(s1, CallNode(pid));
    ShortfallOf(s1, s2, row.asset);
    GivesUp(s2, row, pid, id);
    var s3 := Step(s2, NodeAnswers(pid, false));
    var s4 := Step(s3, CloseDebit(pid, ""));
    PaysAnyway(s4, row, id);
    var s5 := Step(s4, NodePays(Row(id)));
    FiveSteps(s, s1, s2, s3, s4, StartPay(row), CallNode(pid), NodeAnswers(pid, false), CloseDebit(pid, ""), NodePays(Row(id)));
  }

  lemma SameBusy(c: Core, d: Core, row: InFlightRow)
    requires c.hashes == d.hashes
    ensures BusyHash(c, row) == BusyHash(d, row)
  {}

  lemma ShortfallOf(s: State, after: State, asset: string)
    requires after.core.t.balances == s.core.t.balances && after.core.holdings == s.core.holdings
    ensures Shortfall(after, asset) == Shortfall(s, asset)
  {}

  lemma FiveSteps(s: State, s1: State, s2: State, s3: State, s4: State,
                  a: Action, b: Action, c: Action, d: Action, e: Action)
    requires Enabled(s, a) && s1 == Step(s, a)
    requires Enabled(s1, b) && s2 == Step(s1, b)
    requires Enabled(s2, c) && s3 == Step(s2, c)
    requires Enabled(s3, d) && s4 == Step(s3, d)
    requires Enabled(s4, e)
    ensures CanRun(s, [a, b, c, d, e]) && Run(s, [a, b, c, d, e]) == Step(s4, e)
  {
    hide Enabled, Step;
    FirstStep(s4, [e]);
    FirstStep(s3, [d, e]);
    FirstStep(s2, [c, d, e]);
    FirstStep(s1, [b, c, d, e]);
    FirstStep(s, [a, b, c, d, e]);
    assert [a, b, c, d, e][1..] == [b, c, d, e];
    assert [b, c, d, e][1..] == [c, d, e];
    assert [c, d, e][1..] == [d, e];
    assert [d, e][1..] == [e];
    assert [e][1..] == [];
    hide CanRun, Run;
    assert CanRun(Step(s4, e), []) && Run(Step(s4, e), []) == Step(s4, e);
  }

  lemma FirstStep(s: State, run: seq<Action>)
    requires run != []
    ensures CanRun(s, run) <==> Enabled(s, run[0]) && CanRun(Step(s, run[0]), run[1..])
    ensures CanRun(s, run) ==> Run(s, run) == Run(Step(s, run[0]), run[1..])
    ensures forall t: State :: CanRun(t, []) && Run(t, []) == t
  {
    hide Enabled, Step;
  }

  // ---- An invoice tried twice --------------------------------------------------------------

  function RetryRun(pid: nat, row: InFlightRow, id: nat): seq<Action> {
    [StartPay(row), StartRecovery([(id, row)]), TrackPayment(pid + 1, Some(Failed)), CallNode(pid), ApplyTrack(pid + 1),
     NodePays(Row(id))]
  }

  /** Recovery lists the row before the handler has called. */
  lemma ListsEarly(s: State, row: InFlightRow, pid: nat, id: nat)
    requires Stalled(s, row, pid, id)
    ensures Enabled(s, StartRecovery([(id, row)]))
    ensures var after := Step(s, StartRecovery([(id, row)]));
            && after.core == s.core && after.procs == s.procs[s.nextPid := Recovering([(id, row)])]
            && Stalled(after, row, pid, id) && s.nextPid in after.jobs && after.nextPid == s.nextPid + 1
  {
    hide Bal, SatsOf;
  }

  /** It asks about the hash and learns the fate of another attempt. */
  lemma AsksEarly(s: State, row: InFlightRow, rec: nat, id: nat, status: HashStatus)
    requires rec in s.procs && rec in s.jobs && s.procs[rec] == Recovering([(id, row)])
    requires row.kind == LnSend && row.reference.Some?
    requires row.reference.value in s.core.hashes && s.core.hashes[row.reference.value] == status
    ensures Enabled(s, TrackPayment(rec, Some(status)))
    ensures var after := Step(s, TrackPayment(rec, Some(status)));
            && after.core == s.core && after.procs == s.procs[rec := Tracked(id, Some(status), [])]
            && after.jobs.Keys == s.jobs.Keys && after.nextPid == s.nextPid
  {
    hide Bal, SatsOf;
    assert [(id, row)][1..] == [];
  }

  lemma NotBusy(c: Core, row: InFlightRow)
    requires row.kind == LnSend && row.reference.Some?
    requires row.reference.value in c.hashes && c.hashes[row.reference.value] == Failed
    ensures !BusyHash(c, row)
  {}

  /** The stale answer refunds the row although the node is now paying it. */
  lemma RefundsEarly(s: State, row: InFlightRow, pid: nat, rec: nat, id: nat)
    requires Started(s, row, pid, id) && s.core.payments[Row(id)].fate == Sent
    requires rec in s.procs && rec in s.jobs && s.procs[rec] == Tracked(id, Some(Failed), [])
    ensures Enabled(s, ApplyTrack(rec))
    ensures var after := Step(s, ApplyTrack(rec));
            && after.core.payments == s.core.payments[Row(id) := s.core.payments[Row(id)].(closing := Refunded)]
            && after.core.holdings == s.core.holdings
            && Shortfall(after, row.asset) == Shortfall(s, row.asset) + row.amount
  {
    assert CoreAfter(s, ApplyTrack(rec)) == RefundRow(s.core, id);
    StepCore(s, ApplyTrack(rec));
    RefundRaises(s.core, id);
    hide Step, Liability, RefundRow;
  }

  /** Retrying an invoice whose first attempt failed loses units although every answer the
      node gives is true: from every sound state with the funds there is a run, through
      recovery alone, that ends short by exactly the payment. */
  lemma RetriedInvoiceDrifts(s: State, row: InFlightRow)
    requires GatewayInv(s) && CanPay(s, row)
    requires row.reference.value in s.core.hashes && s.core.hashes[row.reference.value] == Failed
    ensures var run := RetryRun(s.nextPid, row, s.core.t.nextId);
            && CanRun(s, run)
            && LostUnits(Run(s, run), row, s.core.t.nextId)
            && Shortfall(Run(s, run), row.asset) == Shortfall(s, row.asset) + row.amount
  {
    hide GatewayInv, Enabled, Step, Shortfall, Bal, Held, BusyHash, HashOf, CanRun, Run;
    var pid, id := s.nextPid, s.core.t.nextId;
    var rec := pid + 1;
    StartsPaying(s, row);
    var s1 := Step(s, StartPay(row));
    ListsEarly(s1, row, pid, id);
    var s2 := Step(s1, StartRecovery([(id, row)]));
    AsksEarly(s2, row, rec, id, Failed);
    var s3 := Step(s2, TrackPayment(rec, Some(Failed)));
    ShortfallOf(s1, s3, row.asset);
    NotBusy(s3.core, row);
    GoesOut(s3, row, pid, id);
    var s4 := Step(s3, CallNode(pid));
    ShortfallOf(s3, s4, row.asset);
    RefundsEarly(s4, row, pid, rec, id);
    var s5 := Step(s4, ApplyTrack(rec));
    HeldFrom(s, s5, row.asset);
    PaysAnyway(s5, row, id);
    assert LostUnits(Step(s5, NodePays(Row(id))), row, id);
    hide Started, LostUnits, CanPay;
    FiveSteps(s1, s2, s3, s4, s5, StartRecovery([(id, row)]), TrackPayment(rec, Some(Failed)), CallNode(pid),
              ApplyTrack(rec), NodePays(Row(id)));
    var run := RetryRun(pid, row, id);
    FirstStep(s, run);
    assert run[1..] == [StartRecovery([(id, row)]), TrackPayment(rec, Some(Failed)), CallNode(pid), ApplyTrack(rec), NodePays(Row(id))];
  }

  function FailedRun(pid: nat, row: InFlightRow, id: nat): seq<Action> {
    [StartPay(row), CallNode(pid), NodeDrops(Row(id)), NodeAnswers(pid, false), CloseDebit(pid, "")]
  }

  lemma Drops(s: State, row: InFlightRow, pid: nat, id: nat)
    requires Started(s, row, pid, id) && s.core.payments[Row(id)].fate == Sent && row.kind == LnSend && row.reference.Some?
    ensures Enabled(s, NodeDrops(Row(id)))
    ensures var after := Step(s, NodeDrops(Row(id)));
            && Started(after, row, pid, id) && after.procs == s.procs && after.jobs == s.jobs
            && after.core.payments[Row(id)].fate == Dropped
            && after.core.t == s.core.t && after.core.holdings == s.core.holdings
            && after.core.hashes == s.core.hashes[row.reference.value := Failed]
  {}

  /** A first attempt that fails leaves everything as it was, and the hash failed: the
      premises of a harmful retry are always one failed attempt away. */
  lemma FailedAttemptInvitesRetry(s: State, row: InFlightRow)
    requires GatewayInv(s) && CanPay(s, row) && !BusyHash(s.core, row)
    ensures var run := FailedRun(s.nextPid, row, s.core.t.nextId);
            && CanRun(s, run) &&
            var after := Run(s, run);
            && GatewayInv(after) && CanPay(after, row)
            && row.reference.value in after.core.hashes && after.core.hashes[row.reference.value] == Failed
            && Shortfall(after, row.asset) == Shortfall(s, row.asset)
  {
    hide GatewayInv, Enabled, Step, Shortfall, Held, BusyHash, HashOf, CanRun, Run;
    var pid, id := s.nextPid, s.core.t.nextId;
    StartsPaying(s, row);
    var s1 := Step(s, StartPay(row));
    SameBusy(s.core, s1.core, row);
    GoesOut(s1, row, pid, id);
    var s2 := Step(s1, CallNode(pid));
    ShortfallOf(s1, s2, row.asset);
    Drops(s2, row, pid, id);
    var s3 := Step(s2, NodeDrops(Row(id)));
    ShortfallOf(s2, s3, row.asset);
    GivesUp(s3, row, pid, id);
    var s4 := Step(s3, NodeAnswers(pid, false));
    var s5 := Step(s4, CloseDebit(pid, ""));
    HeldFrom(s, s5, row.asset);
    hide Started;
    FiveSteps(s, s1, s2, s3, s4, StartPay(row), CallNode(pid), NodeDrops(Row(id)), NodeAnswers(pid, false), CloseDebit(pid, ""));
    RunKeeps(s, FailedRun(pid, row, id));
  }

  lemma HeldFrom(s: State, after: State, asset: string)
    ensures after.core.holdings == s.core.holdings ==> Held(after.core, asset) == Held(s.core, asset)
  {}

  // ---- A failure although settled ------------------------------------------------------------

  /** The row was settled by another payment's success; its own handler goes on at `proc`. */
  ghost predicate SettledEarly(s: State, row: InFlightRow, pid: nat, id: nat, proc: Proc, fate: Fate) {
    && pid in s.procs && s.procs[pid] == proc && pid in s.jobs
    && Row(id) in s.core.payments && s.core.payments[Row(id)] == Payment(row, pid, Settled, fate)
    && id !in s.core.t.inFlight
    && HashPaid(s.core, row)
  }

  predicate HashPaid(c: Core, row: InFlightRow) {
    var h := HashOf(row);
    h.Some? && h.value in c.hashes && c.hashes[h.value] == Succeeded
  }

  /** The stale answer settles the row before its own payment was made. */
  lemma SettlesEarly(s: State, row: InFlightRow, pid: nat, rec: nat, id: nat)
    requires Stalled(s, row, pid, id) && HashPaid(s.core, row) && s.core.payments[Row(id)].owner == pid
    requires rec != pid && rec in s.procs && rec in s.jobs && s.procs[rec] == Tracked(id, Some(Succeeded), [])
    ensures Enabled(s, ApplyTrack(rec))
    ensures SettledEarly(Step(s, ApplyTrack(rec)), row, pid, id, CallDue(Row(id), None), Unsent)
  {
    hide Bal, SatsOf;
  }

  /** The node refuses a hash it has paid. */
  lemma CallIsRefused(s: State, row: InFlightRow, pid: nat, id: nat)
    requires SettledEarly(s, row, pid, id, CallDue(Row(id), None), Unsent)
    ensures Enabled(s, CallNode(pid))
    ensures SettledEarly(Step(s, CallNode(pid)), row, pid, id, Calling(Row(id), None), Dropped)
  {
    hide Bal, SatsOf;
  }

  lemma HearsOfRefusal(s: State, row: InFlightRow, pid: nat, id: nat)
    requires SettledEarly(s, row, pid, id, Calling(Row(id), None), Dropped)
    ensures Enabled(s, NodeAnswers(pid, false)) && SoloStep(s, NodeAnswers(pid, false), Row(id), row)
    ensures SettledEarly(Step(s, NodeAnswers(pid, false)), row, pid, id, Refused(Row(id), None), Dropped)
  {
    hide Bal, SatsOf;
  }

  /** There is no row left to refund. */
  lemma FailsUnrefunded(s: State, row: InFlightRow, pid: nat, id: nat)
    requires SettledEarly(s, row, pid, id, Refused(Row(id), None), Dropped)
    ensures Enabled(s, CloseDebit(pid, ""))
    ensures EndsUnpaid(Step(s, CloseDebit(pid, "")), [], pid, Row(id), row)
  {
    var after := Step(s, CloseDebit(pid, ""));
    assert after.core == s.core && after.replies[pid] == Failure;
    EndsNow(after, pid, Row(id), row);
    hide EndsUnpaid;
  }

  function UnpaidTail(rec: nat, pid: nat, row: InFlightRow, id: nat): seq<Action> {
    [StartRecovery([(id, row)]), TrackPayment(rec, Some(Succeeded)), ApplyTrack(rec), CallNode(pid), NodeAnswers(pid, false),
     CloseDebit(pid, "")]
  }

  lemma AfterSettling(s: State, row: InFlightRow, pid: nat, id: nat)
    requires SettledEarly(s, row, pid, id, CallDue(Row(id), None), Unsent)
    ensures EndsUnpaid(s, [CallNode(pid), NodeAnswers(pid, false), CloseDebit(pid, "")], pid, Row(id), row)
  {
    hide Enabled, Step, EndsUnpaid, SettledEarly;
    var d := Row(id);
    CallIsRefused(s, row, pid, id);
    var s1 := Step(s, CallNode(pid));
    HearsOfRefusal(s1, row, pid, id);
    var s2 := Step(s1, NodeAnswers(pid, false));
    FailsUnrefunded(s2, row, pid, id);
    EndsSooner(s2, CloseDebit(pid, ""), [], pid, d, row);
    EndsSooner(s1, NodeAnswers(pid, false), [CloseDebit(pid, "")] + [], pid, d, row);
    EndsSooner(s, CallNode(pid), [NodeAnswers(pid, false)] + ([CloseDebit(pid, "")] + []), pid, d, row);
    assert [CallNode(pid), NodeAnswers(pid, false), CloseDebit(pid, "")]
        == [CallNode(pid)] + ([NodeAnswers(pid, false)] + ([CloseDebit(pid, "")] + []));
  }

  /** A reserved payment whose hash another payment has been paid under can be settled by
      recovery, then refused by the node, and then has nothing left to refund. */
  lemma SettledByAnother(s: State, row: InFlightRow, pid: nat, id: nat)
    requires Stalled(s, row, pid, id) && s.core.payments[Row(id)].owner == pid && HashPaid(s.core, row)
    requires s.nextPid != pid
    ensures EndsUnpaid(s, UnpaidTail(s.nextPid, pid, row, id), pid, Row(id), row)
  {
    hide Enabled, Step, EndsUnpaid, SettledEarly;
    var rec, d := s.nextPid, Row(id);
    PaidReference(s.core, row);
    ListsEarly(s, row, pid, id);
    var s1 := Step(s, StartRecovery([(id, row)]));
    AsksEarly(s1, row, rec, id, Succeeded);
    var s2 := Step(s1, TrackPayment(rec, Some(Succeeded)));
    SettlesEarly(s2, row, pid, rec, id);
    var s3 := Step(s2, ApplyTrack(rec));
    AfterSettling(s3, row, pid, id);
    hide Started, Stalled;
    var rest := [CallNode(pid), NodeAnswers(pid, false), CloseDebit(pid, "")];
    EndsSooner(s2, ApplyTrack(rec), rest, pid, d, row);
    EndsSooner(s1, TrackPayment(rec, Some(Succeeded)), [ApplyTrack(rec)] + rest, pid, d, row);
    EndsSooner(s, StartRecovery([(id, row)]), [TrackPayment(rec, Some(Succeeded))] + ([ApplyTrack(rec)] + rest), pid, d, row);
    assert UnpaidTail(rec, pid, row, id)
        == [StartRecovery([(id, row)])] + ([TrackPayment(rec, Some(Succeeded))] + ([ApplyTrack(rec)] + rest));
  }

  lemma PaidReference(c: Core, row: InFlightRow)
    requires HashPaid(c, row)
    ensures row.kind == LnSend && row.reference.Some?
    ensures row.reference.value in c.hashes && c.hashes[row.reference.value] == Succeeded
  {}

  /** Paying an invoice that was already paid can cost its amount and be reported as a
      failure: from every sound state with the funds there is a run, through recovery, that
      ends with the handler's failure, the debit settled and its own payment dropped. */
  lemma PaidInvoiceFailsUnrefunded(s: State, row: InFlightRow)
    requires Reachable(s) && CanReserve(s, row) && HashPaid(s.core, row)
    ensures var run := [StartPay(row)] + UnpaidTail(s.nextPid + 1, s.nextPid, row, s.core.t.nextId);
            && CanRun(s, run) &&
            var after, d := Run(s, run), Row(s.core.t.nextId);
            && s.nextPid in after.replies && after.replies[s.nextPid] == Failure
            && s.nextPid in after.jobs && Total(after.jobs[s.nextPid]) == -(row.amount as int)
            && d in after.core.payments
            && after.core.payments[d].closing == Settled && after.core.payments[d].fate == Dropped
  {
    hide GatewayInv, TallyInv, Enabled, Step, Reachable, EndsUnpaid, CanRun, Run, HashPaid;
    var pid, id := s.nextPid, s.core.t.nextId;
    ReachableIsTallied(s);
    StartsPaying(s, row);
    SamePaid(s.core, Step(s, StartPay(row)).core, row);
    StartedOwner(s, row);
    SettledByAnother(Step(s, StartPay(row)), row, pid, id);
    var tail := UnpaidTail(pid + 1, pid, row, id);
    UnpaidCosts(s, row, tail);
  }

  lemma SamePaid(c: Core, d: Core, row: InFlightRow)
    requires c.hashes == d.hashes
    ensures HashPaid(c, row) == HashPaid(d, row)
  {}

  lemma StartedOwner(s: State, row: InFlightRow)
    requires GatewayInv(s) && Enabled(s, StartPay(row))
    ensures var c, d := Step(s, StartPay(row)).core, Row(s.core.t.nextId);
            d in c.payments && c.payments[d] == Payment(row, s.nextPid, Open, Unsent)
  {
    hide GatewayInv, Enabled, Step;
    StepCore(s, StartPay(row));
    StartedPayment(s, StartPay(row));
    hide CoreAfter;
  }

  /** A run that ends so has cost the client the amount. */
  lemma UnpaidCosts(s: State, row: InFlightRow, tail: seq<Action>)
    requires GatewayInv(s) && TallyInv(s) && Enabled(s, StartPay(row))
    requires EndsUnpaid(Step(s, StartPay(row)), tail, s.nextPid, Row(s.core.t.nextId), row)
    ensures var run := [StartPay(row)] + tail;
            && CanRun(s, run) && Run(s, run) == Run(Step(s, StartPay(row)), tail)
            && var after, d := Run(s, run), Row(s.core.t.nextId);
            && s.nextPid in after.replies && after.replies[s.nextPid] == Failure
            && s.nextPid in after.jobs && Total(after.jobs[s.nextPid]) == -(row.amount as int)
            && d in after.core.payments
            && after.core.payments[d].closing == Settled && after.core.payments[d].fate == Dropped
  {
    hide GatewayInv, TallyInv, Enabled, Step, SoloRun;
    var s1 := Step(s, StartPay(row));
    StepKeeps(s, StartPay(row));
    StepKeepsTally(s, StartPay(row));
    RunKeepsTally(s1, tail);
    DebitKnown(Run(s1, tail), Row(s.core.t.nextId));
    FirstStep(s, [StartPay(row)] + tail);
    assert ([StartPay(row)] + tail)[1..] == tail;
    hide CanRun, Run;
  }

  // ---- An invoice purged too early -------------------------------------------------------

  /** The purge goes by age alone: an invoice that was settled but not yet reconciled is
      dropped with the stale ones, and no later run credits it. */
  lemma PurgeForfeitsSettledInvoice(s: State, k: Key, cutoff: int, run: seq<Action>)
    requires GatewayInv(s) && Creditable(s, k) && k.LnHash? && s.core.t.pending[k].createdAt < cutoff
    requires CanRun(Step(s, PurgeInvoices(cutoff)), run)
    ensures var after := Run(Step(s, PurgeInvoices(cutoff)), run);
            && k in after.core.claims && after.core.claims[k].stage == Gone
            && CreditsFor(after.core.t.events, k) == [] && k !in after.core.t.pending
  {
    hide GatewayInv, Enabled, Step;
    PurgedExactlyWhenStale(s, k, cutoff);
    var s1 := Step(s, PurgeInvoices(cutoff));
    StepKeeps(s, PurgeInvoices(cutoff));
    ClosedForGood(s1, run);
    RunKeeps(s1, run);
    GoneHasNoCredit(Run(s1, run), k);
  }

  lemma GoneHasNoCredit(s: State, k: Key)
    requires GatewayInv(s) && k in s.core.claims && s.core.claims[k].stage == Gone
    ensures CreditsFor(s.core.t.events, k) == [] && k !in s.core.t.pending
  {
    hide RowsOk, Balanced, ProcsOk, RepliesOk, OwnersOk, Covered, MintsOk, CreditsFor;
    assert CreditsFor(s.core.t.events, k) == PaidEvents(s.core.claims, k);
  }

  lemma PaidHasCredit(s: State, k: Key)
    requires GatewayInv(s) && k in s.core.claims && s.core.claims[k].stage == Paid
    ensures var cl := s.core.claims[k];
            CreditsFor(s.core.t.events, k) == [CreditEvent(k, cl.asset, cl.pubkey, Worth(cl))]
  {
    hide RowsOk, Balanced, ProcsOk, RepliesOk, OwnersOk, Covered, MintsOk, CreditsFor;
    assert CreditsFor(s.core.t.events, k) == PaidEvents(s.core.claims, k);
  }

  /** The key waits for its credit and the node has what it is for. */
  ghost predicate Creditable(s: State, k: Key) {
    k in s.core.t.pending && k in s.core.claims && s.core.claims[k].arrived
  }

  function CreditRun(pid: nat, k: Key): seq<Action> {
    [StartReconcile([k]), AskNode(pid, IsSettled), ApplyAnswer(pid)]
  }

  lemma ListsKey(s: State, k: Key)
    requires Creditable(s, k)
    ensures Enabled(s, StartReconcile([k]))
    ensures var after := Step(s, StartReconcile([k]));
            && after.core == s.core && s.nextPid in after.procs && s.nextPid in after.jobs
            && after.procs[s.nextPid] == Reconciling([k])
  {
    hide Bal, SatsOf;
  }

  lemma AsksKey(s: State, pid: nat, k: Key)
    requires Creditable(s, k) && pid in s.procs && pid in s.jobs && s.procs[pid] == Reconciling([k])
    ensures Enabled(s, AskNode(pid, IsSettled))
    ensures var after := Step(s, AskNode(pid, IsSettled));
            && after.core == s.core && pid in after.procs && pid in after.jobs
            && after.procs[pid] == Answered(k, IsSettled, [])
  {
    hide Bal, SatsOf;
    assert [k][1..] == [];
  }

  lemma CreditsKey(s: State, pid: nat, k: Key)
    requires Creditable(s, k) && pid in s.procs && pid in s.jobs && s.procs[pid] == Answered(k, IsSettled, [])
    ensures Enabled(s, ApplyAnswer(pid))
    ensures var after := Step(s, ApplyAnswer(pid)).core;
            k in after.claims && after.claims[k] == s.core.claims[k].(stage := Paid)
  {
    StepCore(s, ApplyAnswer(pid));
    hide Step, Resolve;
  }

  /** The next reconciliation can credit the claim, once and in full. */
  predicate CanBeCredited(s: State, k: Key, cl: Claim) {
    var run := CreditRun(s.nextPid, k);
    CanRun(s, run) && CreditsFor(Run(s, run).core.t.events, k) == [CreditEvent(k, cl.asset, cl.pubkey, Worth(cl))]
  }

  /** What waits for its credit can have it. */
  lemma CreditableIsCredited(s: State, k: Key)
    requires GatewayInv(s) && Creditable(s, k)
    ensures CanBeCredited(s, k, s.core.claims[k])
  {
    hide GatewayInv, Enabled, Step, CreditsFor;
    var pid := s.nextPid;
    ListsKey(s, k);
    var s1 := Step(s, StartReconcile([k]));
    AsksKey(s1, pid, k);
    var s2 := Step(s1, AskNode(pid, IsSettled));
    CreditsKey(s2, pid, k);
    var s3 := Step(s2, ApplyAnswer(pid));
    ThreeSteps(s, s1, s2, StartReconcile([k]), AskNode(pid, IsSettled), ApplyAnswer(pid));
    RunKeeps(s, CreditRun(pid, k));
    PaidHasCredit(s3, k);
  }

  lemma ThreeSteps(s: State, s1: State, s2: State, a: Action, b: Action, c: Action)
    requires Enabled(s, a) && s1 == Step(s, a)
    requires Enabled(s1, b) && s2 == Step(s1, b)
    requires Enabled(s2, c)
    ensures CanRun(s, [a, b, c]) && Run(s, [a, b, c]) == Step(s2, c)
  {
    hide Enabled, Step;
    FirstStep(s2, [c]);
    FirstStep(s1, [b, c]);
    FirstStep(s, [a, b, c]);
    assert [a, b, c][1..] == [b, c];
    assert [b, c][1..] == [c];
    assert [c][1..] == [];
    hide CanRun, Run;
    assert CanRun(Step(s2, c), []) && Run(Step(s2, c), []) == Step(s2, c);
  }

  lemma PurgedExactlyWhenStale(s: State, k: Key, cutoff: int)
    requires GatewayInv(s) && Creditable(s, k)
    ensures Enabled(s, PurgeInvoices(cutoff))
    ensures var after := Step(s, PurgeInvoices(cutoff)).core;
            if k.LnHash? && s.core.t.pending[k].createdAt < cutoff
            then k in after.claims && after.claims[k].stage == Gone && k !in after.t.pending
            else k in after.t.pending && after.t.pending[k] == s.core.t.pending[k]
                 && k in after.claims && after.claims[k] == s.core.claims[k]
  {
    StepCore(s, PurgeInvoices(cutoff));
    hide GatewayInv, Step;
  }

  /** A settled key that waits for its credit loses it to the purge exactly when it is a
      Lightning invoice older than the cutoff; any other still has its row afterwards, and
      the next reconciliation can credit it in full. */
  lemma PurgeForfeitsExactlyTheStale(s: State, k: Key, cutoff: int)
    requires GatewayInv(s) && Creditable(s, k)
    ensures var after := Step(s, PurgeInvoices(cutoff));
            && k in after.core.claims
            && (after.core.claims[k].stage == Gone <==> k.LnHash? && s.core.t.pending[k].createdAt < cutoff)
            && (after.core.claims[k].stage != Gone ==>
                  k in after.core.t.pending && CanBeCredited(after, k, s.core.claims[k]))
  {
    hide GatewayInv, Enabled, Step, CanBeCredited;
    WaitingIsNotGone(s, k);
    PurgedExactlyWhenStale(s, k, cutoff);
    StepKeeps(s, PurgeInvoices(cutoff));
    if !(k.LnHash? && s.core.t.pending[k].createdAt < cutoff) {
      CreditableIsCredited(Step(s, PurgeInvoices(cutoff)), k);
    }
  }

  lemma WaitingIsNotGone(s: State, k: Key)
    requires GatewayInv(s) && k in s.core.t.pending
    ensures k in s.core.claims && s.core.claims[k].stage == Waiting
  {
    hide RowsOk, CreditsOk, Balanced, ProcsOk, RepliesOk, OwnersOk, Covered, MintsOk;
  }
}
