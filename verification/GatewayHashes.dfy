/** What the node's record of Lightning hashes says about the payments made: in every
    reachable state a hash in transit or succeeded is one payment's, and says its fate. */
module GatewayHashes {
  import opened Numbers
  import opened Ledger
  import opened LedgerLaws
  import opened GatewayCore
  import opened GatewayCoreLaws
  import opened Gateway
  import opened GatewayLaws
  import opened GatewaySteps
  import opened GatewayShapes
  import opened GatewayTheorems

  /** The node took the payment and has not failed it. */
  predicate Taken(p: Payment) {
    p.fate == Sent || p.fate == Left
  }

  predicate Tells(p: Payment, hashes: map<string, HashStatus>) {
    var h := HashOf(p.row);
    h.Some? && Taken(p) ==> h.value in hashes && hashes[h.value] == if p.fate == Sent then InTransit else Succeeded
  }

  predicate SameHash(p: Payment, q: Payment) {
    HashOf(p.row).Some? && HashOf(p.row) == HashOf(q.row)
  }

  predicate TakenUnder(ps: map<DebitId, Payment>, d: DebitId, h: string) {
    d in ps && HashOf(ps[d].row) == Some(h) && Taken(ps[d])
  }

  ghost predicate HashesTell(ps: map<DebitId, Payment>, hashes: map<string, HashStatus>) {
    && (forall d :: d in ps ==> Tells(ps[d], hashes))
    && (forall d, e :: d in ps && e in ps && Taken(ps[d]) && Taken(ps[e]) && SameHash(ps[d], ps[e]) ==> d == e)
    && (forall h :: h in hashes && hashes[h] != Failed ==> exists d :: TakenUnder(ps, d, h))
  }

  // ---- Changes to one payment -----------------------------------------------------------

  /** A payment that is not taken before or after changes nothing the hashes tell. */
  lemma UntakenChange(ps: map<DebitId, Payment>, hashes: map<string, HashStatus>, d: DebitId, p: Payment)
    requires HashesTell(ps, hashes) && !Taken(p) && (d in ps ==> !Taken(ps[d]))
    ensures HashesTell(ps[d := p], hashes)
  {
    var qs := ps[d := p];
    forall h | h in hashes && hashes[h] != Failed
      ensures exists e :: TakenUnder(qs, e, h)
    {
      var e :| TakenUnder(ps, e, h);
      assert TakenUnder(qs, e, h);
    }
  }

  lemma ClosingChange(ps: map<DebitId, Payment>, hashes: map<string, HashStatus>, d: DebitId, closing: Closing)
    requires HashesTell(ps, hashes) && d in ps
    ensures HashesTell(ps[d := ps[d].(closing := closing)], hashes)
  {
    var qs := ps[d := ps[d].(closing := closing)];
    forall h | h in hashes && hashes[h] != Failed
      ensures exists e :: TakenUnder(qs, e, h)
    {
      var e :| TakenUnder(ps, e, h);
      assert TakenUnder(qs, e, h);
    }
  }

  function StatusFor(fate: Fate): HashStatus {
    match fate
    case Left => Succeeded
    case Dropped => Failed
    case _ => InTransit
  }

  function HashesAfter(hashes: map<string, HashStatus>, row: InFlightRow, fate: Fate): map<string, HashStatus> {
    if HashOf(row).Some? then hashes[HashOf(row).value := StatusFor(fate)] else hashes
  }

  /** Nobody else is taken under a hash that is free, or under the hash of a payment that is. */
  lemma OthersTell(ps: map<DebitId, Payment>, hashes: map<string, HashStatus>, d: DebitId, fate: Fate, e: DebitId)
    requires HashesTell(ps, hashes) && d in ps && e in ps && d != e
    requires Taken(ps[d]) || FreeHash(hashes, ps[d].row)
    ensures Tells(ps[e], HashesAfter(hashes, ps[d].row, fate))
    ensures Taken(ps[e]) ==> !SameHash(ps[d], ps[e])
  {
    assert Tells(ps[e], hashes);
    assert Taken(ps[d]) && Taken(ps[e]) ==> !SameHash(ps[d], ps[e]);
    hide HashesTell, HashOf;
  }

  predicate FreeHash(hashes: map<string, HashStatus>, row: InFlightRow) {
    var h := HashOf(row);
    h.Some? && h.value in hashes ==> hashes[h.value] == Failed
  }

  /** A fate set together with the hash's status, for a payment the node takes or took. */
  lemma FateChange(ps: map<DebitId, Payment>, hashes: map<string, HashStatus>, d: DebitId, fate: Fate)
    requires HashesTell(ps, hashes) && d in ps && fate != Unsent
    requires Taken(ps[d]) || FreeHash(hashes, ps[d].row)
    ensures HashesTell(ps[d := ps[d].(fate := fate)], HashesAfter(hashes, ps[d].row, fate))
  {
    var qs, after := ps[d := ps[d].(fate := fate)], HashesAfter(hashes, ps[d].row, fate);
    forall e | e in ps && e != d
      ensures Tells(ps[e], after) && (Taken(ps[e]) ==> !SameHash(ps[d], ps[e]))
    {
      OthersTell(ps, hashes, d, fate, e);
    }
    forall h | h in after && after[h] != Failed
      ensures exists e :: TakenUnder(qs, e, h)
    {
      if HashOf(ps[d].row) == Some(h) {
        assert TakenUnder(qs, d, h);
      } else {
        var e :| TakenUnder(ps, e, h);
        assert TakenUnder(qs, e, h);
      }
    }
    hide HashOf;
  }

  // ---- Steps ----------------------------------------------------------------------------

  lemma StartTells(s: State, a: Action)
    requires GatewayInv(s) && HashesTell(s.core.payments, s.core.hashes) && Enabled(s, a)
    requires a.StartSend? || a.StartPay? || a.StartBurn?
    ensures HashesTell(CoreAfter(s, a).payments, CoreAfter(s, a).hashes)
  {
    hide GatewayInv, HashesTell, DebitAndMark, Debit;
    StartedPayment(s, a);
    var d := if a.StartBurn? then BurnOf(s.nextPid) else Row(s.core.t.nextId);
    UntakenChange(s.core.payments, s.core.hashes, d, Payment(a.row, s.nextPid, Open, Unsent));
  }

  lemma CallShape(s: State, pid: nat)
    requires Enabled(s, CallNode(pid))
    ensures var c, d := CoreAfter(s, CallNode(pid)), s.procs[pid].d;
            var p := s.core.payments[d];
            if BusyHash(s.core, p.row) then c.payments == s.core.payments[d := p.(fate := Dropped)] && c.hashes == s.core.hashes
            else c.payments == s.core.payments[d := p.(fate := Sent)] && c.hashes == HashesAfter(s.core.hashes, p.row, Sent)
  {
    hide BusyHash;
  }

  lemma CallTells(s: State, pid: nat)
    requires GatewayInv(s) && HashesTell(s.core.payments, s.core.hashes) && Enabled(s, CallNode(pid))
    ensures HashesTell(CoreAfter(s, CallNode(pid)).payments, CoreAfter(s, CallNode(pid)).hashes)
  {
    hide GatewayInv, HashesTell, MadeDebit, CoreAfter;
    KnownReserving(s, pid);
    CallShape(s, pid);
    var d := s.procs[pid].d;
    var p := s.core.payments[d];
    if BusyHash(s.core, p.row) {
      UntakenChange(s.core.payments, s.core.hashes, d, p.(fate := Dropped));
    } else {
      FateChange(s.core.payments, s.core.hashes, d, Sent);
    }
  }

  lemma NodeTells(s: State, a: Action)
    requires HashesTell(s.core.payments, s.core.hashes) && Enabled(s, a) && (a.NodePays? || a.NodeDrops?)
    ensures HashesTell(CoreAfter(s, a).payments, CoreAfter(s, a).hashes)
  {
    hide HashesTell;
    FateChange(s.core.payments, s.core.hashes, a.d, if a.NodePays? then Left else Dropped);
  }

  lemma StepTells(s: State, a: Action)
    requires GatewayInv(s) && HashesTell(s.core.payments, s.core.hashes) && Enabled(s, a)
    ensures HashesTell(Step(s, a).core.payments, Step(s, a).core.hashes)
  {
    StepCore(s, a);
    hide GatewayInv, Enabled, Step, CoreAfter, HashesTell;
    if !TouchesPayments(a) {
      OthersKeepPayments(s, a);
    } else if a.StartSend? || a.StartPay? || a.StartBurn? {
      StartTells(s, a);
    } else if a.CallNode? {
      CallTells(s, a.pid);
    } else if a.NodePays? || a.NodeDrops? {
      NodeTells(s, a);
    } else {
      ClosingShape(s, a);
      var qs := CoreAfter(s, a).payments;
      if qs != s.core.payments {
        var d, closing :| d in s.core.payments && closing != Open &&
          qs == s.core.payments[d := s.core.payments[d].(closing := closing)];
        ClosingChange(s.core.payments, s.core.hashes, d, closing);
      }
    }
  }

  lemma {:induction false} RunTells(s: State, run: seq<Action>)
    requires GatewayInv(s) && HashesTell(s.core.payments, s.core.hashes) && CanRun(s, run)
    ensures GatewayInv(Run(s, run)) && HashesTell(Run(s, run).core.payments, Run(s, run).core.hashes)
    decreases |run|
  {
    if run != [] {
      hide GatewayInv, Enabled, Step, HashesTell;
      StepKeeps(s, run[0]);
      StepTells(s, run[0]);
      RunTells(Step(s, run[0]), run[1..]);
    }
  }

  /** The node pays a hash once: whenever its record says a hash is in transit or has
      succeeded, exactly one payment under it was taken and not failed, and it is on its
      way or has left accordingly; under any other hash there is none. */
  lemma OnePaymentPerHash(s: State, h: string)
    requires Reachable(s)
    ensures h in s.core.hashes && s.core.hashes[h] != Failed <==> exists d :: TakenUnder(s.core.payments, d, h)
    ensures forall d, e :: TakenUnder(s.core.payments, d, h) && TakenUnder(s.core.payments, e, h) ==> d == e
    ensures forall d :: TakenUnder(s.core.payments, d, h) ==>
              (s.core.hashes[h] == Succeeded <==> s.core.payments[d].fate == Left)
  {
    hide GatewayInv, Reachable;
    ReachableTells(s);
    assert forall d :: TakenUnder(s.core.payments, d, h) ==> Tells(s.core.payments[d], s.core.hashes);
    assert forall d, e :: TakenUnder(s.core.payments, d, h) && TakenUnder(s.core.payments, e, h) ==>
      SameHash(s.core.payments[d], s.core.payments[e]);
  }

  lemma ReachableTells(s: State)
    requires Reachable(s)
    ensures GatewayInv(s) && HashesTell(s.core.payments, s.core.hashes)
  {
    hide GatewayInv, Enabled, Step;
    var run :| CanRun(Init(s.policy), run) && Run(Init(s.policy), run) == s;
    InitInv(s.policy);
    RunTells(Init(s.policy), run);
  }
}
