/** The recovery and invoice loops, written as one piece each in `Reconcile`, are what the
    concurrent machine does when nothing interleaves and the node answers truly. */
module UninterruptedLoops {
  import opened Numbers
  import opened Ledger
  import opened LedgerLaws
  import opened GatewayCore
  import opened Gateway
  import opened GatewayLaws
  import opened Uninterrupted
  import R = Reconcile

  // ---- Recovery ----------------------------------------------------------------------------

  function AsHashStatus(status: R.PaymentStatus): HashStatus {
    match status
    case Succeeded => HashStatus.Succeeded
    case Failed => HashStatus.Failed
    case Pending => InTransit
  }

  /** What the loop is told about a row: the fate of its payment hash, if the node knows one. */
  function Told(row: InFlightRow, track: map<string, R.PaymentStatus>): Option<HashStatus> {
    if HashOf(row).Some? && HashOf(row).value in track then Some(AsHashStatus(track[HashOf(row).value])) else None
  }

  /** The answers agree with the node's own record. */
  predicate TrueTrack(track: map<string, R.PaymentStatus>, hashes: map<string, HashStatus>) {
    forall h :: h in track ==> h in hashes && hashes[h] == AsHashStatus(track[h])
  }

  /** The rows with ids from `i` up to `n`, oldest first. */
  function RowsFrom(rows: map<nat, InFlightRow>, i: nat, n: nat): seq<TrackedRow>
    requires i <= n
    decreases n - i
  {
    if i == n then []
    else (if i in rows then [(i, rows[i])] else []) + RowsFrom(rows, i + 1, n)
  }

  lemma {:induction false} RowsAreListed(rows: map<nat, InFlightRow>, i: nat, n: nat)
    requires i <= n
    ensures forall k :: 0 <= k < |RowsFrom(rows, i, n)| ==>
              RowsFrom(rows, i, n)[k].0 in rows && rows[RowsFrom(rows, i, n)[k].0] == RowsFrom(rows, i, n)[k].1
    decreases n - i
  {
    if i < n {
      RowsAreListed(rows, i + 1, n);
    }
  }

  function RecoverActions(pid: nat, rows: seq<TrackedRow>, track: map<string, R.PaymentStatus>): seq<Action> {
    if rows == [] then [EndLoop(pid)] + []
    else [TrackPayment(pid, Told(rows[0].1, track))] + ([ApplyTrack(pid)] + RecoverActions(pid, rows[1..], track))
  }

  /** Program `pid` is a loop standing at `proc`, and every row of the table has its payment. */
  ghost predicate Looping(s: State, pid: nat, t: Tables, hashes: map<string, HashStatus>, proc: Proc) {
    && s.core.t == t && s.core.hashes == hashes
    && pid in s.procs && s.procs[pid] == proc && pid in s.jobs
    && forall id :: id in t.inFlight ==> Row(id) in s.core.payments
  }

  lemma RecoveryStarts(s: State, rows: seq<TrackedRow>)
    requires CoreInv(s.core)
    requires forall i :: 0 <= i < |rows| ==> rows[i].0 in s.core.t.inFlight && s.core.t.inFlight[rows[i].0] == rows[i].1
    ensures Enabled(s, StartRecovery(rows))
    ensures Looping(Step(s, StartRecovery(rows)), s.nextPid, s.core.t, s.core.hashes, Recovering(rows))
  {
    hide ClaimsOk, CreditsOk, MintsOk, Balanced, Bal, SatsOf;
  }

  lemma Tracks(s: State, pid: nat, t: Tables, hashes: map<string, HashStatus>, rows: seq<TrackedRow>,
               track: map<string, R.PaymentStatus>)
    requires Looping(s, pid, t, hashes, Recovering(rows)) && rows != [] && TrueTrack(track, hashes)
    ensures Enabled(s, TrackPayment(pid, Told(rows[0].1, track)))
    ensures Looping(Step(s, TrackPayment(pid, Told(rows[0].1, track))), pid, t, hashes,
                    Tracked(rows[0].0, Told(rows[0].1, track), rows[1..]))
  {
    hide Bal, SatsOf;
  }

  lemma RecoverOneUnfolds(t: Tables, id: nat, row: InFlightRow, track: map<string, R.PaymentStatus>)
    requires id in t.inFlight && t.inFlight[id] == row
    ensures R.RecoverOne(t, id, track) ==
            match Told(row, track)
            case Some(Succeeded) => Settle(t, id, None).0
            case Some(Failed) => Refund(t, id).0
            case _ => t
  {
    hide Settle, Refund;
  }

  lemma ClosingKeepsRows(t: Tables, id: nat)
    ensures forall other :: other in Settle(t, id, None).0.inFlight || other in Refund(t, id).0.inFlight ==> other in t.inFlight
  {}

  lemma Applies(s: State, pid: nat, t: Tables, hashes: map<string, HashStatus>, id: nat, row: InFlightRow,
                rest: seq<TrackedRow>, track: map<string, R.PaymentStatus>)
    requires Looping(s, pid, t, hashes, Tracked(id, Told(row, track), rest))
    requires id in t.inFlight && t.inFlight[id] == row
    ensures Enabled(s, ApplyTrack(pid))
    ensures Looping(Step(s, ApplyTrack(pid)), pid, R.RecoverOne(t, id, track), hashes, Recovering(rest))
  {
    RecoverOneUnfolds(t, id, row, track);
    ClosingKeepsRows(t, id);
    ClosesInCore(s.core, id);
    TrackedStep(s, pid, id, Told(row, track), rest);
    hide Enabled, Step, R.RecoverOne, SettleRow, RefundRow, Settle, Refund, Told;
  }

  lemma TrackedStep(s: State, pid: nat, id: nat, outcome: Option<HashStatus>, rest: seq<TrackedRow>)
    requires pid in s.procs && s.procs[pid] == Tracked(id, outcome, rest) && pid in s.jobs
    ensures Enabled(s, ApplyTrack(pid))
    ensures var after := Step(s, ApplyTrack(pid));
            && after.procs == s.procs[pid := Recovering(rest)] && pid in after.jobs
            && after.core == (match outcome
                              case Some(Succeeded) => SettleRow(s.core, id, None)
                              case Some(Failed) => RefundRow(s.core, id)
                              case _ => s.core)
  {
    hide SettleRow, RefundRow, Bal, SatsOf;
  }

  lemma ClosesInCore(c: Core, id: nat)
    requires id in c.t.inFlight && Row(id) in c.payments
    ensures var after := SettleRow(c, id, None);
            after.t == Settle(c.t, id, None).0 && after.hashes == c.hashes && after.payments.Keys == c.payments.Keys
    ensures var after := RefundRow(c, id);
            after.t == Refund(c.t, id).0 && after.hashes == c.hashes && after.payments.Keys == c.payments.Keys
  {
    hide Settle, Refund;
  }

  lemma LoopEnds(s: State, pid: nat, t: Tables)
    requires s.core.t == t && pid in s.procs && pid in s.jobs
    requires s.procs[pid] == Recovering([]) || s.procs[pid] == Reconciling([])
    ensures Ends(s, [EndLoop(pid)] + [], pid, t, Success)
  {
    var after := Step(s, EndLoop(pid));
    assert after.core.t == t && pid in after.replies && after.replies[pid] == Success;
    EndsNow(after, pid, t, Success);
    EndsSooner(s, EndLoop(pid), [], pid, t, Success);
    hide Bal, SatsOf, Ends;
  }

  /** Rows a pass has not reached are as it found them. */
  lemma NotYetRecovered(t: Tables, i: nat, track: map<string, R.PaymentStatus>)
    ensures i in R.Recovered(t, i, track).inFlight <==> i in t.inFlight
    ensures i in t.inFlight ==> R.Recovered(t, i, track).inFlight[i] == t.inFlight[i]
  {
    R.RecoveredRows(t, i, track);
    hide R.Recovered;
  }

  lemma {:induction false} RecoversThrough(s: State, pid: nat, t: Tables, hashes: map<string, HashStatus>, i: nat, n: nat,
                                           track: map<string, R.PaymentStatus>)
    requires i <= n && TrueTrack(track, hashes)
    requires Looping(s, pid, R.Recovered(t, i, track), hashes, Recovering(RowsFrom(t.inFlight, i, n)))
    ensures Ends(s, RecoverActions(pid, RowsFrom(t.inFlight, i, n), track), pid, R.Recovered(t, n, track), Success)
    decreases n - i
  {
    hide Enabled, Step, Ends, Told, TrueTrack, R.Recovered, R.RecoverOne;
    var rows, now := RowsFrom(t.inFlight, i, n), R.Recovered(t, i, track);
    if i == n {
      LoopEnds(s, pid, now);
    } else {
      NotYetRecovered(t, i, track);
      R.RecoveredStep(t, i, track);
      var rest, last := RowsFrom(t.inFlight, i + 1, n), R.Recovered(t, n, track);
      if i in t.inFlight {
        assert rows == [(i, t.inFlight[i])] + rest && rows[1..] == rest;
        var told, later := TrackPayment(pid, Told(rows[0].1, track)), RecoverActions(pid, rest, track);
        Tracks(s, pid, now, hashes, rows, track);
        var s1 := Step(s, told);
        Applies(s1, pid, now, hashes, i, rows[0].1, rest, track);
        RecoversThrough(Step(s1, ApplyTrack(pid)), pid, t, hashes, i + 1, n, track);
        EndsSooner(s1, ApplyTrack(pid), later, pid, last, Success);
        EndsSooner(s, told, [ApplyTrack(pid)] + later, pid, last, Success);
      } else {
        assert rows == rest;
        SkipsMissing(now, i, track);
        RecoversThrough(s, pid, t, hashes, i + 1, n, track);
      }
    }
  }

  lemma SkipsMissing(t: Tables, id: nat, track: map<string, R.PaymentStatus>)
    requires id !in t.inFlight
    ensures R.RecoverOne(t, id, track) == t
  {}

  /** A recovery pass over all rows is a run of the machine with the same tables at its end. */
  lemma RecoverIsARun(s: State, track: map<string, R.PaymentStatus>)
    requires CoreInv(s.core) && TrueTrack(track, s.core.hashes)
    ensures var n := s.core.t.nextId;
            var rows := RowsFrom(s.core.t.inFlight, 0, n);
            Ends(s, [StartRecovery(rows)] + RecoverActions(s.nextPid, rows, track), s.nextPid,
                 R.Recovered(s.core.t, n, track), Success)
  {
    hide Enabled, Step, Ends, TrueTrack, CoreInv, RecoverActions;
    var n := s.core.t.nextId;
    var rows := RowsFrom(s.core.t.inFlight, 0, n);
    RowsAreListed(s.core.t.inFlight, 0, n);
    RecoveryStarts(s, rows);
    R.NoneRecovered(s.core.t, track);
    RecoversThrough(Step(s, StartRecovery(rows)), s.nextPid, s.core.t, s.core.hashes, 0, n, track);
    EndsSooner(s, StartRecovery(rows), RecoverActions(s.nextPid, rows, track), s.nextPid,
               R.Recovered(s.core.t, n, track), Success);
  }

  // ---- Invoices ------------------------------------------------------------------------------

  function VerdictOn(k: Key, lookup: map<Key, R.InvoiceState>): Verdict {
    if k !in lookup then Verdict.Undecided
    else match lookup[k]
      case InvoiceSettled => IsSettled
      case InvoiceCanceled => IsCanceled
      case InvoiceOpen => Verdict.Undecided
  }

  /** What the lookups say did happen to the invoice. */
  predicate TrueLookup(k: Key, lookup: map<Key, R.InvoiceState>, claims: map<Key, Claim>) {
    && k in claims
    && (VerdictOn(k, lookup) == IsSettled ==> claims[k].arrived)
    && (VerdictOn(k, lookup) == IsCanceled ==> claims[k].cancelled)
  }

  ghost predicate TrueLookups(keys: seq<Key>, lookup: map<Key, R.InvoiceState>, claims: map<Key, Claim>) {
    forall i :: 0 <= i < |keys| ==> TrueLookup(keys[i], lookup, claims)
  }

  function ReconcileActions(pid: nat, keys: seq<Key>, lookup: map<Key, R.InvoiceState>): seq<Action> {
    if keys == [] then [EndLoop(pid)] + []
    else [AskNode(pid, VerdictOn(keys[0], lookup))] + ([ApplyAnswer(pid)] + ReconcileActions(pid, keys[1..], lookup))
  }

  /** Program `pid` is a loop standing at `proc` whose remaining keys are told the truth about. */
  ghost predicate Sweeping(s: State, pid: nat, t: Tables, keys: seq<Key>, lookup: map<Key, R.InvoiceState>, proc: Proc) {
    && s.core.t == t && pid in s.procs && s.procs[pid] == proc && pid in s.jobs
    && TrueLookups(keys, lookup, s.core.claims)
  }

  lemma Asks(s: State, pid: nat, t: Tables, keys: seq<Key>, lookup: map<Key, R.InvoiceState>)
    requires Sweeping(s, pid, t, keys, lookup, Reconciling(keys)) && keys != []
    ensures Enabled(s, AskNode(pid, VerdictOn(keys[0], lookup)))
    ensures Sweeping(Step(s, AskNode(pid, VerdictOn(keys[0], lookup))), pid, t, keys, lookup,
                     Answered(keys[0], VerdictOn(keys[0], lookup), keys[1..]))
  {
    assert TrueLookup(keys[0], lookup, s.core.claims);
    hide Bal, SatsOf, VerdictOn;
  }

  lemma ReconcileOneUnfolds(t: Tables, k: Key, lookup: map<Key, R.InvoiceState>, asset: string)
    requires k in t.pending && (k.LnHash? || k.SatsHash?)
    ensures R.ReconcileOne(t, k, lookup) ==
            match VerdictOn(k, lookup)
            case IsSettled => Resolve(t, k, asset).0
            case IsCanceled => DropPending(t, k).0
            case Undecided => t
  {
    hide Credit, CreditSats, Record;
  }

  /** Paying or dropping one claim leaves what happened to all of them. */
  lemma StillTrue(c: Core, after: Core, k: Key, stage: Stage, keys: seq<Key>, lookup: map<Key, R.InvoiceState>)
    requires k in c.claims && after.claims == c.claims[k := c.claims[k].(stage := stage)]
    requires keys != [] && TrueLookups(keys, lookup, c.claims)
    ensures TrueLookups(keys[1..], lookup, after.claims)
  {
    hide VerdictOn;
    forall i | 0 <= i < |keys[1..]|
      ensures TrueLookup(keys[1..][i], lookup, after.claims)
    {
      assert TrueLookup(keys[i + 1], lookup, c.claims);
    }
  }

  lemma RestIsTrue(keys: seq<Key>, lookup: map<Key, R.InvoiceState>, claims: map<Key, Claim>)
    requires keys != [] && TrueLookups(keys, lookup, claims)
    ensures TrueLookups(keys[1..], lookup, claims) && keys[0] in claims
  {
    assert TrueLookup(keys[0], lookup, claims);
    hide TrueLookup;
    assert forall i :: 0 <= i < |keys[1..]| ==> keys[1..][i] == keys[i + 1];
  }

  lemma AppliesAnswer(s: State, pid: nat, t: Tables, keys: seq<Key>, lookup: map<Key, R.InvoiceState>)
    requires keys != [] && keys[0] in t.pending && (keys[0].LnHash? || keys[0].SatsHash?)
    requires Sweeping(s, pid, t, keys, lookup, Answered(keys[0], VerdictOn(keys[0], lookup), keys[1..]))
    ensures Enabled(s, ApplyAnswer(pid))
    ensures Sweeping(Step(s, ApplyAnswer(pid)), pid, R.ReconcileOne(t, keys[0], lookup), keys[1..], lookup,
                     Reconciling(keys[1..]))
  {
    var k, verdict := keys[0], VerdictOn(keys[0], lookup);
    RestIsTrue(keys, lookup, s.core.claims);
    ReconcileOneUnfolds(t, k, lookup, s.core.claims[k].asset);
    var after := Step(s, ApplyAnswer(pid));
    if verdict != Verdict.Undecided {
      StillTrue(s.core, after.core, k, if verdict == IsSettled then Paid else Gone, keys, lookup);
    }
    hide Bal, SatsOf, Resolve, DropPending, R.ReconcileOne, VerdictOn, TrueLookups;
  }

  lemma StillToReconcile(t: Tables, keys: seq<Key>, lookup: map<Key, R.InvoiceState>, i: nat)
    requires R.Invoices(t, keys) && i < |keys|
    ensures R.Invoices(t, keys[..i])
    ensures keys[i] in R.Reconciled(t, keys[..i], lookup).pending && (keys[i].LnHash? || keys[i].SatsHash?)
    ensures R.Reconciled(t, keys[..i + 1], lookup) == R.ReconcileOne(R.Reconciled(t, keys[..i], lookup), keys[i], lookup)
  {
    R.ReconcileMeaning(t, keys[..i], lookup, "", "");
    assert keys[..i + 1][..i] == keys[..i];
    hide R.ReconcileOne, Unexplained, R.PassCredits;
    assert keys[i] !in keys[..i];
  }

  lemma {:induction false} ReconcilesThrough(s: State, pid: nat, t: Tables, keys: seq<Key>, i: nat, lookup: map<Key, R.InvoiceState>)
    requires R.Invoices(t, keys) && i <= |keys|
    requires Sweeping(s, pid, R.Reconciled(t, keys[..i], lookup), keys[i..], lookup, Reconciling(keys[i..]))
    ensures Ends(s, ReconcileActions(pid, keys[i..], lookup), pid, R.Reconciled(t, keys, lookup), Success)
    decreases |keys| - i
  {
    hide Enabled, Step, Ends, VerdictOn, TrueLookups, R.Reconciled, R.ReconcileOne, R.Invoices;
    var now, left := R.Reconciled(t, keys[..i], lookup), keys[i..];
    if i == |keys| {
      assert keys[..i] == keys && left == [];
      LoopEnds(s, pid, now);
    } else {
      var rest, last := keys[i + 1..], R.Reconciled(t, keys, lookup);
      assert left[0] == keys[i] && left[1..] == rest;
      StillToReconcile(t, keys, lookup, i);
      Asks(s, pid, now, left, lookup);
      var asked := AskNode(pid, VerdictOn(left[0], lookup));
      var s1 := Step(s, asked);
      AppliesAnswer(s1, pid, now, left, lookup);
      ReconcilesThrough(Step(s1, ApplyAnswer(pid)), pid, t, keys, i + 1, lookup);
      EndsSooner(s1, ApplyAnswer(pid), ReconcileActions(pid, rest, lookup), pid, last, Success);
      EndsSooner(s, asked, [ApplyAnswer(pid)] + ReconcileActions(pid, rest, lookup), pid, last, Success);
    }
  }

  lemma SweepStarts(s: State, keys: seq<Key>, lookup: map<Key, R.InvoiceState>)
    requires R.Invoices(s.core.t, keys) && TrueLookups(keys, lookup, s.core.claims)
    ensures Enabled(s, StartReconcile(keys))
    ensures Sweeping(Step(s, StartReconcile(keys)), s.nextPid, s.core.t, keys, lookup, Reconciling(keys))
  {
    hide TrueLookups, Bal, SatsOf;
  }

  /** So is a pass over any listed invoices. */
  lemma ReconcileIsARun(s: State, keys: seq<Key>, lookup: map<Key, R.InvoiceState>)
    requires R.Invoices(s.core.t, keys) && TrueLookups(keys, lookup, s.core.claims)
    ensures Ends(s, [StartReconcile(keys)] + ReconcileActions(s.nextPid, keys, lookup), s.nextPid,
                 R.Reconciled(s.core.t, keys, lookup), Success)
  {
    hide Enabled, Step, Ends, TrueLookups, ReconcileActions, R.ReconcileOne;
    SweepStarts(s, keys, lookup);
    assert keys[..0] == [] && keys[0..] == keys;
    assert R.Reconciled(s.core.t, keys[..0], lookup) == s.core.t;
    ReconcilesThrough(Step(s, StartReconcile(keys)), s.nextPid, s.core.t, keys, 0, lookup);
    EndsSooner(s, StartReconcile(keys), ReconcileActions(s.nextPid, keys, lookup), s.nextPid,
               R.Reconciled(s.core.t, keys, lookup), Success);
  }
}
