/** The handlers, written as one piece each in `Routes`, are what the concurrent machine does
    when nothing interleaves: every outcome of a handler is the end of a run of the machine. */
module Uninterrupted {
  import opened Numbers
  import opened Ledger
  import opened LedgerLaws
  import opened GatewayCore
  import opened GatewayCoreLaws
  import opened Gateway
  import opened GatewayLaws
  import opened GatewaySteps
  import opened GatewayShapes
  import opened GatewayTheorems
  import Routes

  // ---- Runs with a given end -------------------------------------------------------------

  /** The run leads to these tables and to this answer for program `pid`. */
  predicate Ends(s: State, run: seq<Action>, pid: nat, t: Tables, reply: Reply) {
    && CanRun(s, run)
    && Run(s, run).core.t == t
    && pid in Run(s, run).replies && Run(s, run).replies[pid] == reply
  }

  lemma EndsNow(s: State, pid: nat, t: Tables, reply: Reply)
    requires s.core.t == t && pid in s.replies && s.replies[pid] == reply
    ensures Ends(s, [], pid, t, reply)
  {}

  lemma EndsSooner(s: State, a: Action, rest: seq<Action>, pid: nat, t: Tables, reply: Reply)
    requires Enabled(s, a) && Ends(Step(s, a), rest, pid, t, reply)
    ensures Ends(s, [a] + rest, pid, t, reply)
  {
    hide Enabled, Step;
    assert ([a] + rest)[1..] == rest;
  }

  // ---- Single steps of a handler ---------------------------------------------------------

  /** Program `pid` stands at `proc` with its debit `d`, and the tables are `t`. */
  ghost predicate At(s: State, origin: State, pid: nat, row: InFlightRow, d: DebitId, t: Tables, proc: Proc, fate: Fate) {
    && s.core.t == t && s.policy == origin.policy
    && pid in s.procs && s.procs[pid] == proc && pid in s.jobs && s.jobs[pid].user == row.pubkey
    && d in s.core.payments && s.core.payments[d].row == row && s.core.payments[d].fate == fate
    && (d.Row? ==> d.id in t.inFlight)
    && (fate != Left ==> s.core.holdings == origin.core.holdings)
    && (fate == Unsent ==> s.core.hashes == origin.core.hashes)
  }

  lemma MarkedRow(t: Tables, row: InFlightRow)
    requires DebitAndMark(t, row).Ok?
    ensures DebitAndMark(t, row).value.1 == t.nextId && t.nextId in DebitAndMark(t, row).value.0.inFlight
  {}

  lemma SendStarts(s: State, row: InFlightRow, fee: nat)
    requires row.kind == Send && DebitAndMark(s.core.t, row).Ok?
    ensures Enabled(s, StartSend(row, fee))
    ensures At(Step(s, StartSend(row, fee)), s, s.nextPid, row, Row(s.core.t.nextId), DebitAndMark(s.core.t, row).value.0,
               FeeDue(Row(s.core.t.nextId), fee), Unsent)
  {
    MarkedRow(s.core.t, row);
    hide Debit, Bal, SatsOf, DebitAndMark;
  }

  lemma PayStarts(s: State, row: InFlightRow)
    requires row.kind == LnSend && row.amount > 0 && DebitAndMark(s.core.t, row).Ok?
    ensures Enabled(s, StartPay(row))
    ensures At(Step(s, StartPay(row)), s, s.nextPid, row, Row(s.core.t.nextId), DebitAndMark(s.core.t, row).value.0,
               CallDue(Row(s.core.t.nextId), None), Unsent)
  {
    MarkedRow(s.core.t, row);
    hide Debit, Bal, SatsOf, DebitAndMark;
  }

  lemma BurnStarts(s: State, row: InFlightRow)
    requires row.kind == Burn && row.amount > 0 && Debit(s.core.t, row.asset, row.pubkey, row.amount).Ok?
    ensures Enabled(s, StartBurn(row))
    ensures At(Step(s, StartBurn(row)), s, s.nextPid, row, BurnOf(s.nextPid),
               Debit(s.core.t, row.asset, row.pubkey, row.amount).value, CallDue(BurnOf(s.nextPid), None), Unsent)
  {
    hide Debit, Bal, SatsOf;
  }

  lemma Charges(s: State, origin: State, pid: nat, row: InFlightRow, id: nat, t: Tables, fee: nat)
    requires At(s, origin, pid, row, Row(id), t, FeeDue(Row(id), fee), Unsent)
    ensures Enabled(s, ChargeStep(pid))
    ensures var (charged, charge) := TryCharge(t, origin.policy, row.pubkey, fee);
            if charged.Ok?
            then At(Step(s, ChargeStep(pid)), origin, pid, row, Row(id), charged.value, CallDue(Row(id), charge), Unsent)
            else At(Step(s, ChargeStep(pid)), origin, pid, row, Row(id), t, FeeRefused(Row(id)), Unsent)
  {
    ChargeBalances(t, origin.policy, row.pubkey, fee);
    hide TryCharge, Bal, SatsOf;
  }

  lemma Unreserves(s: State, origin: State, pid: nat, row: InFlightRow, id: nat, t: Tables)
    requires At(s, origin, pid, row, Row(id), t, FeeRefused(Row(id)), Unsent)
    ensures Enabled(s, Unreserve(pid))
    ensures Ends(Step(s, Unreserve(pid)), [], pid, Refund(t, id).0, Failure)
  {
    var after := Step(s, Unreserve(pid));
    assert after.core.t == Refund(t, id).0 && pid in after.replies && after.replies[pid] == Failure;
    EndsNow(after, pid, Refund(t, id).0, Failure);
    hide Bal, SatsOf, Refund, Ends;
  }

  lemma Calls(s: State, origin: State, pid: nat, row: InFlightRow, d: DebitId, t: Tables, charge: Option<nat>)
    requires At(s, origin, pid, row, d, t, CallDue(d, charge), Unsent)
    ensures Enabled(s, CallNode(pid))
    ensures At(Step(s, CallNode(pid)), origin, pid, row, d, t, Calling(d, charge),
               if BusyHash(origin.core, row) then Dropped else Sent)
  {
    assert BusyHash(s.core, row) == BusyHash(origin.core, row);
    hide Bal, SatsOf, BusyHash, HashOf;
  }

  lemma NodeActs(s: State, origin: State, pid: nat, row: InFlightRow, d: DebitId, t: Tables, charge: Option<nat>, pays: bool)
    requires At(s, origin, pid, row, d, t, Calling(d, charge), Sent)
    requires pays ==> row.amount <= Held(origin.core, row.asset)
    ensures var a := if pays then NodePays(d) else NodeDrops(d);
            && Enabled(s, a)
            && At(Step(s, a), origin, pid, row, d, t, Calling(d, charge), if pays then Left else Dropped)
  {
    hide HashOf;
  }

  lemma Answers(s: State, origin: State, pid: nat, row: InFlightRow, d: DebitId, t: Tables, charge: Option<nat>, ok: bool)
    requires At(s, origin, pid, row, d, t, Calling(d, charge), if ok then Left else Dropped)
    ensures Enabled(s, NodeAnswers(pid, ok))
    ensures At(Step(s, NodeAnswers(pid, ok)), origin, pid, row, d, t,
               if ok then Accepted(d, charge) else Refused(d, charge), if ok then Left else Dropped)
  {
    hide Bal, SatsOf;
  }

  // ---- Closing a debit -------------------------------------------------------------------

  /** The tables once the debit is closed. */
  function Closed(t: Tables, row: InFlightRow, d: DebitId, node: Option<string>): Tables {
    if d.Row? then
      if node.Some? then Settle(t, d.id, if row.kind == Send then node else None).0 else Refund(t, d.id).0
    else if node.Some? then Record(t, BurnEvent(row, node.value))
    else Credit(t, row.asset, row.pubkey, row.amount)
  }

  lemma ClosesWith(s: State, origin: State, pid: nat, row: InFlightRow, d: DebitId, t: Tables, charge: Option<nat>,
                   node: Option<string>)
    requires At(s, origin, pid, row, d, t, if node.Some? then Accepted(d, charge) else Refused(d, charge),
                if node.Some? then Left else Dropped)
    ensures var a := CloseDebit(pid, if node.Some? then node.value else "");
            Enabled(s, a) && CoreAfter(s, a).t == Closed(t, row, d, node)
  {
    hide Bal, SatsOf, Settle, Refund, Record, Credit;
  }

  lemma SettlesDebit(s: State, origin: State, pid: nat, row: InFlightRow, d: DebitId, t: Tables, charge: Option<nat>, txid: string)
    requires At(s, origin, pid, row, d, t, Accepted(d, charge), Left)
    ensures Enabled(s, CloseDebit(pid, txid))
    ensures Ends(Step(s, CloseDebit(pid, txid)), [], pid, Closed(t, row, d, Some(txid)), Success)
  {
    ClosesWith(s, origin, pid, row, d, t, charge, Some(txid));
    StepCore(s, CloseDebit(pid, txid));
    var after := Step(s, CloseDebit(pid, txid));
    assert pid in after.replies && after.replies[pid] == Success by {
      hide CoreAfter, Tally;
    }
    hide Step, CoreAfter, Closed, Ends;
    EndsNow(after, pid, Closed(t, row, d, Some(txid)), Success);
  }

  /** The refused debit is given back; a charge, if any, is still to follow. */
  lemma GivesUnitsBack(s: State, origin: State, pid: nat, row: InFlightRow, d: DebitId, t: Tables, charge: Option<nat>)
    requires At(s, origin, pid, row, d, t, Refused(d, charge), Dropped)
    ensures Enabled(s, CloseDebit(pid, ""))
    ensures var after := Step(s, CloseDebit(pid, ""));
            && after.core.t == Closed(t, row, d, None) && after.policy == origin.policy
            && (charge.None? ==> pid in after.replies && after.replies[pid] == Failure)
            && (charge.Some? ==>
                  pid in after.procs && after.procs[pid] == FeeBack(charge.value)
                  && pid in after.jobs && after.jobs[pid].user == row.pubkey)
  {
    ClosesWith(s, origin, pid, row, d, t, charge, None);
    StepCore(s, CloseDebit(pid, ""));
    hide CoreAfter, Closed, Bal, SatsOf;
  }

  lemma GivesFeeBack(s: State, pid: nat, payer: string, charge: nat)
    requires s.policy.operator.Some? && pid in s.procs && s.procs[pid] == FeeBack(charge)
    requires pid in s.jobs && s.jobs[pid].user == payer
    ensures Enabled(s, ReturnCharge(pid))
    ensures Ends(Step(s, ReturnCharge(pid)), [], pid, RefundFee(s.core.t, payer, s.policy.operator.value, charge), Failure)
  {
    var after, t := Step(s, ReturnCharge(pid)), RefundFee(s.core.t, payer, s.policy.operator.value, charge);
    assert after.core.t == t && pid in after.replies && after.replies[pid] == Failure;
    EndsNow(after, pid, t, Failure);
    hide Bal, SatsOf, RefundFee, Ends;
  }

  /** The charge, if one was taken, goes back to its payer. */
  function FeeReturned(t: Tables, policy: Policy, payer: string, charge: Option<nat>): Tables
    requires charge.Some? ==> policy.operator.Some?
  {
    if charge.Some? then RefundFee(t, payer, policy.operator.value, charge.value) else t
  }

  /** What follows the call, once the node has answered. */
  function Tail(pid: nat, charged: bool, node: Option<string>): seq<Action> {
    if node.Some? then [CloseDebit(pid, node.value)] + []
    else [CloseDebit(pid, "")] + (if charged then [ReturnCharge(pid)] + [] else [])
  }

  lemma Finishes(s: State, origin: State, pid: nat, row: InFlightRow, d: DebitId, t: Tables, charge: Option<nat>,
                 node: Option<string>)
    requires At(s, origin, pid, row, d, t, if node.Some? then Accepted(d, charge) else Refused(d, charge),
                if node.Some? then Left else Dropped)
    requires charge.Some? ==> origin.policy.operator.Some?
    ensures var closed := Closed(t, row, d, node);
            if node.Some? then Ends(s, Tail(pid, charge.Some?, node), pid, closed, Success)
            else Ends(s, Tail(pid, charge.Some?, node), pid, FeeReturned(closed, origin.policy, row.pubkey, charge), Failure)
  {
    hide Enabled, Step, Closed, RefundFee, Ends, At;
    var closed := Closed(t, row, d, node);
    if node.Some? {
      SettlesDebit(s, origin, pid, row, d, t, charge, node.value);
      EndsSooner(s, CloseDebit(pid, node.value), [], pid, closed, Success);
    } else {
      GivesUnitsBack(s, origin, pid, row, d, t, charge);
      var s1 := Step(s, CloseDebit(pid, ""));
      if charge.Some? {
        var last := RefundFee(closed, row.pubkey, origin.policy.operator.value, charge.value);
        GivesFeeBack(s1, pid, row.pubkey, charge.value);
        EndsSooner(s1, ReturnCharge(pid), [], pid, last, Failure);
        EndsSooner(s, CloseDebit(pid, ""), [ReturnCharge(pid)] + [], pid, last, Failure);
      } else {
        EndsNow(s1, pid, closed, Failure);
        EndsSooner(s, CloseDebit(pid, ""), [], pid, closed, Failure);
      }
    }
  }

  // ---- The call --------------------------------------------------------------------------

  /** From the reservation on: the call, what the node does with it unless it refuses the
      hash, its answer, and what follows. */
  function CallActions(pid: nat, d: DebitId, busy: bool, charged: bool, node: Option<string>): seq<Action> {
    [CallNode(pid)] + ActActions(pid, d, busy, charged, node)
  }

  function ActActions(pid: nat, d: DebitId, busy: bool, charged: bool, node: Option<string>): seq<Action> {
    if busy then AnswerActions(pid, charged, node)
    else [if node.Some? then NodePays(d) else NodeDrops(d)] + AnswerActions(pid, charged, node)
  }

  function AnswerActions(pid: nat, charged: bool, node: Option<string>): seq<Action> {
    [NodeAnswers(pid, node.Some?)] + Tail(pid, charged, node)
  }

  function After(t: Tables, policy: Policy, row: InFlightRow, d: DebitId, charge: Option<nat>, node: Option<string>): Tables
    requires charge.Some? ==> policy.operator.Some?
  {
    if node.Some? then Closed(t, row, d, node) else FeeReturned(Closed(t, row, d, node), policy, row.pubkey, charge)
  }

  function ReplyFor(node: Option<string>): Reply {
    if node.Some? then Success else Failure
  }

  lemma AnswersThrough(s: State, origin: State, pid: nat, row: InFlightRow, d: DebitId, t: Tables, charge: Option<nat>,
                       node: Option<string>)
    requires At(s, origin, pid, row, d, t, Calling(d, charge), if node.Some? then Left else Dropped)
    requires charge.Some? ==> origin.policy.operator.Some?
    ensures Ends(s, AnswerActions(pid, charge.Some?, node), pid, After(t, origin.policy, row, d, charge, node), ReplyFor(node))
  {
    hide Enabled, Step, Closed, RefundFee, Ends, At, Tail;
    Answers(s, origin, pid, row, d, t, charge, node.Some?);
    Finishes(Step(s, NodeAnswers(pid, node.Some?)), origin, pid, row, d, t, charge, node);
    EndsSooner(s, NodeAnswers(pid, node.Some?), Tail(pid, charge.Some?, node), pid,
               After(t, origin.policy, row, d, charge, node), ReplyFor(node));
  }

  lemma CallsThrough(s: State, origin: State, pid: nat, row: InFlightRow, d: DebitId, t: Tables, charge: Option<nat>,
                     node: Option<string>)
    requires At(s, origin, pid, row, d, t, CallDue(d, charge), Unsent)
    requires charge.Some? ==> origin.policy.operator.Some?
    requires node.Some? ==> row.amount <= Held(origin.core, row.asset) && !BusyHash(origin.core, row)
    ensures Ends(s, CallActions(pid, d, BusyHash(origin.core, row), charge.Some?, node), pid,
                 After(t, origin.policy, row, d, charge, node), ReplyFor(node))
  {
    hide Enabled, Step, Ends, At, After, AnswerActions, BusyHash, Held;
    var busy, last := BusyHash(origin.core, row), After(t, origin.policy, row, d, charge, node);
    Calls(s, origin, pid, row, d, t, charge);
    var s1 := Step(s, CallNode(pid));
    if busy {
      AnswersThrough(s1, origin, pid, row, d, t, charge, node);
    } else {
      var a := if node.Some? then NodePays(d) else NodeDrops(d);
      NodeActs(s1, origin, pid, row, d, t, charge, node.Some?);
      AnswersThrough(Step(s1, a), origin, pid, row, d, t, charge, node);
      EndsSooner(s1, a, AnswerActions(pid, charge.Some?, node), pid, last, ReplyFor(node));
    }
    EndsSooner(s, CallNode(pid), ActActions(pid, d, busy, charge.Some?, node), pid, last, ReplyFor(node));
  }

  lemma NoHashNoBusy(c: Core, row: InFlightRow)
    requires row.kind != LnSend
    ensures !BusyHash(c, row)
  {}

  // ---- Whole handlers ----------------------------------------------------------------------

  /** The actions of one uninterrupted send. */
  function SendActions(pid: nat, row: InFlightRow, id: nat, fee: nat, refused: bool, charged: bool, node: Option<string>): seq<Action> {
    [StartSend(row, fee)] + ([ChargeStep(pid)] +
      if refused then [Unreserve(pid)] + [] else CallActions(pid, Row(id), false, charged, node))
  }

  lemma ChargedByOperator(t: Tables, policy: Policy, payer: string, fee: nat)
    ensures TryCharge(t, policy, payer, fee).1.Some? ==> policy.operator.Some?
  {}

  lemma ChargesThrough(s: State, origin: State, pid: nat, row: InFlightRow, id: nat, t: Tables, fee: nat, node: Option<string>)
    requires At(s, origin, pid, row, Row(id), t, FeeDue(Row(id), fee), Unsent) && row.kind == Send
    requires node.Some? ==> row.amount <= Held(origin.core, row.asset)
    ensures var (charged, charge) := TryCharge(t, origin.policy, row.pubkey, fee);
            if charged.Err? then Ends(s, [ChargeStep(pid)] + ([Unreserve(pid)] + []), pid, Refund(t, id).0, Failure)
            else && (charge.Some? ==> origin.policy.operator.Some?)
                 && Ends(s, [ChargeStep(pid)] + CallActions(pid, Row(id), false, charge.Some?, node), pid,
                         After(charged.value, origin.policy, row, Row(id), charge, node), ReplyFor(node))
  {
    hide Enabled, Step, Ends, At, After, CallActions, BusyHash, Held, TryCharge, Refund;
    var (charged, charge) := TryCharge(t, origin.policy, row.pubkey, fee);
    ChargedByOperator(t, origin.policy, row.pubkey, fee);
    NoHashNoBusy(origin.core, row);
    Charges(s, origin, pid, row, id, t, fee);
    var s1 := Step(s, ChargeStep(pid));
    if charged.Err? {
      Unreserves(s1, origin, pid, row, id, t);
      EndsSooner(s1, Unreserve(pid), [], pid, Refund(t, id).0, Failure);
      EndsSooner(s, ChargeStep(pid), [Unreserve(pid)] + [], pid, Refund(t, id).0, Failure);
    } else {
      CallsThrough(s1, origin, pid, row, Row(id), charged.value, charge, node);
      EndsSooner(s, ChargeStep(pid), CallActions(pid, Row(id), false, charge.Some?, node), pid,
                 After(charged.value, origin.policy, row, Row(id), charge, node), ReplyFor(node));
    }
  }

  /** Every outcome of the send handler is reached by the machine, with the same tables and
      the same reply, by running that handler alone. */
  lemma SendIsARun(s: State, row: InFlightRow, fee: nat, node: Option<string>)
    requires row.kind == Send && DebitAndMark(s.core.t, row).Ok?
    requires node.Some? ==> row.amount <= Held(s.core, row.asset)
    ensures var (charged, charge) := TryCharge(DebitAndMark(s.core.t, row).value.0, s.policy, row.pubkey, fee);
            var (after, reply) := Routes.SendResult(s.core.t, s.policy, row, fee, node);
            Ends(s, SendActions(s.nextPid, row, s.core.t.nextId, fee, charged.Err?, charge.Some?, node), s.nextPid, after, reply)
  {
    hide Enabled, Step, Ends, At, CallActions, Held, TryCharge, DebitAndMark, Refund, Settle, RefundFee;
    var pid, id := s.nextPid, s.core.t.nextId;
    SendStarts(s, row, fee);
    MarkedRow(s.core.t, row);
    var marked := DebitAndMark(s.core.t, row).value.0;
    var (charged, charge) := TryCharge(marked, s.policy, row.pubkey, fee);
    var (after, reply) := Routes.SendResult(s.core.t, s.policy, row, fee, node);
    ChargesThrough(Step(s, StartSend(row, fee)), s, pid, row, id, marked, fee, node);
    EndsSooner(s, StartSend(row, fee), SendActions(pid, row, id, fee, charged.Err?, charge.Some?, node)[1..], pid, after, reply);
    assert SendActions(pid, row, id, fee, charged.Err?, charge.Some?, node)
        == [StartSend(row, fee)] + SendActions(pid, row, id, fee, charged.Err?, charge.Some?, node)[1..];
  }

  /** So is every outcome of the Lightning payment handler, a hash the node refuses included. */
  lemma PayIsARun(s: State, row: InFlightRow, succeeded: bool)
    requires row.kind == LnSend && row.amount > 0 && DebitAndMark(s.core.t, row).Ok?
    requires succeeded ==> row.amount <= Held(s.core, row.asset) && !BusyHash(s.core, row)
    ensures var pid, node := s.nextPid, if succeeded then Some("") else None;
            var (after, reply) := Routes.PayResult(s.core.t, row, succeeded);
            Ends(s, [StartPay(row)] + CallActions(pid, Row(s.core.t.nextId), BusyHash(s.core, row), false, node), pid, after, reply)
  {
    hide Enabled, Step, Ends, At, CallActions, Held, BusyHash, DebitAndMark, Refund, Settle;
    var pid, id, node := s.nextPid, s.core.t.nextId, if succeeded then Some("") else None;
    PayStarts(s, row);
    MarkedRow(s.core.t, row);
    var marked := DebitAndMark(s.core.t, row).value.0;
    var (after, reply) := Routes.PayResult(s.core.t, row, succeeded);
    CallsThrough(Step(s, StartPay(row)), s, pid, row, Row(id), marked, None, node);
    EndsSooner(s, StartPay(row), CallActions(pid, Row(id), BusyHash(s.core, row), false, node), pid, after, reply);
  }

  /** And of the burn handler. */
  lemma BurnIsARun(s: State, row: InFlightRow, node: Option<string>)
    requires row.kind == Burn && row.amount > 0 && Debit(s.core.t, row.asset, row.pubkey, row.amount).Ok?
    requires node.Some? ==> row.amount <= Held(s.core, row.asset)
    ensures var pid := s.nextPid;
            var (after, reply) := Routes.BurnResult(s.core.t, row, node);
            Ends(s, [StartBurn(row)] + CallActions(pid, BurnOf(pid), false, false, node), pid, after, reply)
  {
    hide Enabled, Step, Ends, At, CallActions, Held, BusyHash, Debit, Credit, Record;
    var pid := s.nextPid;
    NoHashNoBusy(s.core, row);
    BurnStarts(s, row);
    var debited := Debit(s.core.t, row.asset, row.pubkey, row.amount).value;
    var (after, reply) := Routes.BurnResult(s.core.t, row, node);
    CallsThrough(Step(s, StartBurn(row)), s, pid, row, BurnOf(pid), debited, None, node);
    EndsSooner(s, StartBurn(row), CallActions(pid, BurnOf(pid), false, false, node), pid, after, reply);
  }

  // ---- Minting -------------------------------------------------------------------------------

  /** Program `pid` mints for `user` and stands at `proc`. */
  ghost predicate Minting(s: State, origin: State, pid: nat, user: string, t: Tables, proc: Proc) {
    && s.core.t == t && s.policy == origin.policy && s.core.claims == origin.core.claims
    && pid in s.procs && s.procs[pid] == proc && pid in s.jobs && s.jobs[pid].user == user
  }

  lemma MintStarts(s: State, user: string, units: U64, fee: nat)
    ensures Enabled(s, StartMint(user, units, fee))
    ensures Minting(Step(s, StartMint(user, units, fee)), s, s.nextPid, user, s.core.t, MintFeeDue(units, fee))
  {}

  lemma MintCharges(s: State, origin: State, pid: nat, user: string, t: Tables, units: U64, fee: nat)
    requires Minting(s, origin, pid, user, t, MintFeeDue(units, fee))
    ensures Enabled(s, ChargeStep(pid))
    ensures var (charged, charge) := TryCharge(t, origin.policy, user, fee);
            if charged.Ok? then Minting(Step(s, ChargeStep(pid)), origin, pid, user, charged.value, MintDue(units, charge))
            else Ends(Step(s, ChargeStep(pid)), [], pid, t, Failure)
  {
    var after := Step(s, ChargeStep(pid));
    if TryCharge(t, origin.policy, user, fee).0.Err? {
      assert after.core.t == t && pid in after.replies && after.replies[pid] == Failure;
      EndsNow(after, pid, t, Failure);
    }
    hide TryCharge, Bal, SatsOf, Ends;
  }

  lemma MintRefused(s: State, origin: State, pid: nat, user: string, t: Tables, units: U64, charge: Option<nat>)
    requires Minting(s, origin, pid, user, t, MintDue(units, charge))
    ensures Enabled(s, MintFails(pid))
    ensures var after := Step(s, MintFails(pid));
            if charge.Some? then Minting(after, origin, pid, user, t, FeeBack(charge.value))
            else Ends(after, [], pid, t, Failure)
  {
    var after := Step(s, MintFails(pid));
    if charge.None? {
      EndsNow(after, pid, t, Failure);
    }
    hide Bal, SatsOf, Ends;
  }

  /** The node made the batch, the handler holds its id. */
  lemma Mints(s: State, origin: State, pid: nat, user: string, t: Tables, units: U64, charge: Option<nat>, k: Key, asset: string)
    requires Minting(s, origin, pid, user, t, MintDue(units, charge)) && k.BatchKey? && k !in origin.core.claims
    ensures Enabled(s, NodeMints(pid, k, asset))
    ensures var after := Step(s, NodeMints(pid, k, asset));
            && after.core.t == t && pid in after.procs && after.procs[pid] == KeyIssued(k, charge) && pid in after.jobs
            && k in after.core.claims && after.core.claims[k].pubkey == user && after.core.claims[k].amount == units
  {
    hide Bal, SatsOf;
  }

  lemma Stores(s: State, pid: nat, user: string, t: Tables, units: U64, charge: Option<nat>, k: Key, now: int)
    requires s.core.t == t && pid in s.procs && s.procs[pid] == KeyIssued(k, charge) && pid in s.jobs && k.BatchKey?
    requires k in s.core.claims && s.core.claims[k].pubkey == user && s.core.claims[k].amount == units && k !in t.pending
    ensures Enabled(s, StoreKey(pid, now))
    ensures AddPendingMint(t, k.batch, user, AsI64(units), now).Ok?
    ensures Ends(Step(s, StoreKey(pid, now)), [], pid, AddPendingMint(t, k.batch, user, AsI64(units), now).value, Success)
  {
    var after, last := Step(s, StoreKey(pid, now)), AddPendingMint(t, k.batch, user, AsI64(units), now).value;
    assert after.core.t == last && pid in after.replies && after.replies[pid] == Success;
    EndsNow(after, pid, last, Success);
    hide Bal, SatsOf, Ends;
  }

  /** The actions of one uninterrupted mint. */
  function MintActions(pid: nat, user: string, units: U64, fee: nat, refused: bool, charged: bool, node: Option<string>,
                       asset: string, now: int): seq<Action> {
    [StartMint(user, units, fee)] + ([ChargeStep(pid)] +
      if refused then [] else MintTail(pid, charged, node, asset, now))
  }

  function MintTail(pid: nat, charged: bool, node: Option<string>, asset: string, now: int): seq<Action> {
    if node.Some? then [NodeMints(pid, BatchKey(node.value), asset)] + ([StoreKey(pid, now)] + [])
    else [MintFails(pid)] + (if charged then [ReturnCharge(pid)] + [] else [])
  }

  lemma MintsThrough(s: State, origin: State, pid: nat, user: string, t: Tables, units: U64, charge: Option<nat>,
                     node: Option<string>, asset: string, now: int)
    requires Minting(s, origin, pid, user, t, MintDue(units, charge)) && (charge.Some? ==> origin.policy.operator.Some?)
    requires node.Some? ==> BatchKey(node.value) !in origin.core.claims && BatchKey(node.value) !in t.pending
    ensures var run := MintTail(pid, charge.Some?, node, asset, now);
            if node.Some?
            then AddPendingMint(t, node.value, user, AsI64(units), now).Ok?
                 && Ends(s, run, pid, AddPendingMint(t, node.value, user, AsI64(units), now).value, Success)
            else Ends(s, run, pid, FeeReturned(t, origin.policy, user, charge), Failure)
  {
    var batch := if node.Some? then node.value else "";
    hide Enabled, Step, Ends, RefundFee, AddPendingMint;
    if node.Some? {
      Mints(s, origin, pid, user, t, units, charge, BatchKey(batch), asset);
      var s1 := Step(s, NodeMints(pid, BatchKey(batch), asset));
      Stores(s1, pid, user, t, units, charge, BatchKey(batch), now);
      var last := AddPendingMint(t, batch, user, AsI64(units), now).value;
      EndsSooner(s1, StoreKey(pid, now), [], pid, last, Success);
      EndsSooner(s, NodeMints(pid, BatchKey(batch), asset), [StoreKey(pid, now)] + [], pid, last, Success);
    } else {
      MintRefused(s, origin, pid, user, t, units, charge);
      var s1, last := Step(s, MintFails(pid)), FeeReturned(t, origin.policy, user, charge);
      if charge.Some? {
        GivesFeeBack(s1, pid, user, charge.value);
        EndsSooner(s1, ReturnCharge(pid), [], pid, last, Failure);
        EndsSooner(s, MintFails(pid), [ReturnCharge(pid)] + [], pid, last, Failure);
      } else {
        EndsSooner(s, MintFails(pid), [], pid, last, Failure);
      }
    }
  }

  lemma FreshBatchIsFree(s: State, batch: string)
    requires GatewayInv(s) && BatchKey(batch) !in s.core.claims
    ensures BatchKey(batch) !in s.core.t.pending
  {
    hide RowsOk, CreditsOk, MintsOk, Balanced, ProcsOk, RepliesOk, OwnersOk, Covered;
  }

  lemma ChargingKeepsPending(t: Tables, policy: Policy, payer: string, fee: nat)
    ensures var charged := TryCharge(t, policy, payer, fee).0;
            charged.Ok? ==> charged.value.pending == t.pending
  {
    if Collector(policy, payer).Some? && ChargeFee(t, payer, Collector(policy, payer).value, fee).Ok? {
      ChargeShape(t, payer, Collector(policy, payer).value, fee);
    }
    hide ChargeFee;
  }

  /** And of the mint handler, for every batch the node issues for the first time. */
  lemma MintIsARun(s: State, user: string, units: U64, fee: nat, node: Option<string>, asset: string, now: int)
    requires GatewayInv(s) && units > 0 && (node.Some? ==> BatchKey(node.value) !in s.core.claims)
    ensures var (charged, charge) := TryCharge(s.core.t, s.policy, user, fee);
            var (after, reply) := Routes.MintResult(s.core.t, s.policy, user, units, fee, node, now);
            Ends(s, MintActions(s.nextPid, user, units, fee, charged.Err?, charge.Some?, node, asset, now), s.nextPid, after, reply)
  {
    hide GatewayInv, Enabled, Step, Ends, Minting, TryCharge, RefundFee, AddPendingMint, MintTail;
    var pid := s.nextPid;
    var (charged, charge) := TryCharge(s.core.t, s.policy, user, fee);
    var (after, reply) := Routes.MintResult(s.core.t, s.policy, user, units, fee, node, now);
    var tail := MintTail(pid, charge.Some?, node, asset, now);
    MintStarts(s, user, units, fee);
    var s1 := Step(s, StartMint(user, units, fee));
    MintCharges(s1, s, pid, user, s.core.t, units, fee);
    ChargedByOperator(s.core.t, s.policy, user, fee);
    ChargingKeepsPending(s.core.t, s.policy, user, fee);
    if charged.Ok? {
      if node.Some? {
        FreshBatchIsFree(s, node.value);
      }
      MintsThrough(Step(s1, ChargeStep(pid)), s, pid, user, charged.value, units, charge, node, asset, now);
    }
    var rest := if charged.Err? then [] else tail;
    EndsSooner(s1, ChargeStep(pid), rest, pid, after, reply);
    EndsSooner(s, StartMint(user, units, fee), [ChargeStep(pid)] + rest, pid, after, reply);
  }

  // ---- Transfers and keys ------------------------------------------------------------------------

  /** A transfer takes one step, possible exactly when the handler makes it: the sender has the
      amount, it is positive, and it goes to somebody else. It moves that and nothing more. */
  lemma TransferIsAStep(s: State, asset: string, from: string, to_: string, amount: nat, a: string, u: string)
    ensures Enabled(s, MoveUnits(asset, from, to_, amount)) <==> amount > 0 && to_ != from && amount <= Bal(s.core.t, asset, from)
    ensures Enabled(s, MoveUnits(asset, from, to_, amount)) ==>
            var t, after := s.core.t, Step(s, MoveUnits(asset, from, to_, amount));
            && after == s.(core := after.core) && after.core == s.core.(t := after.core.t)
            && after.core.t == t.(balances := after.core.t.balances,
                                  events := t.events + [LedgerEvent(from, asset, TransferOut, amount, Some(to_), None)]
                                                     + [LedgerEvent(to_, asset, TransferIn, amount, Some(from), None)])
            && Bal(after.core.t, a, u) == Bal(t, a, u) - (if a == asset && u == from then amount else 0)
                                          + (if a == asset && u == to_ then amount else 0)
  {
    TransferShape(s.core.t, asset, from, to_, amount);
    DebitMoves(s.core.t, asset, from, amount, a, u);
    if Debit(s.core.t, asset, from, amount).Ok? {
      TransferMoves(s.core.t, asset, from, to_, amount, a, u);
    }
    hide Transfer, Debit, Credit, Liability, Bal;
  }

  /** A request for an address or an invoice ends with the one row it asks for, under the key the
      node issued, for its own user, asset and amount. */
  lemma KeyIsARun(s: State, key: Key, asset: string, user: string, units: U64, now: int)
    requires GatewayInv(s) && !key.BatchKey? && key !in s.core.claims && units > 0
    ensures var row := PendingRow(asset, user, if units <= I64_MAX then units else units - 0x1_0000_0000_0000_0000, now);
            Ends(s, [IssueKey(key, asset, user, units)] + ([StoreKey(s.nextPid, now)] + []), s.nextPid,
                 s.core.t.(pending := s.core.t.pending[key := row]), Success)
  {
    var pid, row := s.nextPid, PendingRow(asset, user, AsI64(units), now);
    var last := s.core.t.(pending := s.core.t.pending[key := row]);
    FreshKeyIsFree(s, key);
    var s1 := Step(s, IssueKey(key, asset, user, units));
    KeyIssues(s, key, asset, user, units);
    KeyStores(s1, s.core.t, pid, key, asset, user, units, now);
    hide GatewayInv, Enabled, Step, Ends;
    EndsSooner(s1, StoreKey(pid, now), [], pid, last, Success);
    EndsSooner(s, IssueKey(key, asset, user, units), [StoreKey(pid, now)] + [], pid, last, Success);
  }

  lemma FreshKeyIsFree(s: State, key: Key)
    requires GatewayInv(s) && key !in s.core.claims
    ensures key !in s.core.t.pending
  {
    hide RowsOk, CreditsOk, MintsOk, Balanced, ProcsOk, RepliesOk, OwnersOk, Covered;
  }

  lemma KeyIssues(s: State, key: Key, asset: string, user: string, units: U64)
    requires !key.BatchKey? && key !in s.core.claims && units > 0
    ensures Enabled(s, IssueKey(key, asset, user, units))
    ensures var after, pid := Step(s, IssueKey(key, asset, user, units)), s.nextPid;
            && after.core.t == s.core.t && pid in after.procs && after.procs[pid] == KeyIssued(key, None) && pid in after.jobs
            && key in after.core.claims
            && var cl := after.core.claims[key]; cl.pubkey == user && cl.asset == asset && cl.amount == units
  {
    hide Bal, SatsOf;
  }

  lemma KeyStores(s: State, t: Tables, pid: nat, key: Key, asset: string, user: string, units: U64, now: int)
    requires s.core.t == t && pid in s.procs && s.procs[pid] == KeyIssued(key, None) && pid in s.jobs
    requires !key.BatchKey? && key !in t.pending && key in s.core.claims
    requires var cl := s.core.claims[key]; cl.pubkey == user && cl.asset == asset && cl.amount == units
    ensures Enabled(s, StoreKey(pid, now))
    ensures Ends(Step(s, StoreKey(pid, now)), [], pid,
                 t.(pending := t.pending[key := PendingRow(asset, user, AsI64(units), now)]), Success)
  {
    var after, last := Step(s, StoreKey(pid, now)), t.(pending := t.pending[key := PendingRow(asset, user, AsI64(units), now)]);
    assert after.core.t == last && pid in after.replies && after.replies[pid] == Success;
    EndsNow(after, pid, last, Success);
    hide Bal, SatsOf, Ends;
  }
}
