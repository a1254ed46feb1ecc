/** Every kernel step keeps the whole account: rows, claims, single credits, the
    journal of each user, the node's books and the sats total. */
module GatewayCoreLaws {
  import opened Numbers
  import opened MapSum
  import opened Ledger
  import opened LedgerLaws
  import opened GatewayCore

  // ---- Sums under one change ---------------------------------------------------------

  lemma PaymentUpdate(ps: map<DebitId, Payment>, d: DebitId, p: Payment, a: string, u: string)
    ensures Outstanding(ps[d := p], a) == Outstanding(ps, a) - WeightOf(ps, d, a) + WeightOf(ps[d := p], d, a)
    ensures OpenBurns(ps[d := p], a, u) == OpenBurns(ps, a, u) - BurnOpen(ps, d, a, u) + BurnOpen(ps[d := p], d, a, u)
  {
    hide Outstanding, OpenBurns, WeightOf, BurnOpen;
    WeightUpdate(ps, d, p, a);
    BurnUpdate(ps, d, p, a, u);
  }

  lemma WeightUpdate(ps: map<DebitId, Payment>, d: DebitId, p: Payment, a: string)
    ensures Outstanding(ps[d := p], a) == Outstanding(ps, a) - WeightOf(ps, d, a) + WeightOf(ps[d := p], d, a)
  {
    var qs := ps[d := p];
    assert Weights(qs, a) == Weights(ps, a)[d := WeightOf(qs, d, a)];
    SumUpdate(Weights(ps, a), d, WeightOf(qs, d, a));
  }

  lemma BurnUpdate(ps: map<DebitId, Payment>, d: DebitId, p: Payment, a: string, u: string)
    ensures OpenBurns(ps[d := p], a, u) == OpenBurns(ps, a, u) - BurnOpen(ps, d, a, u) + BurnOpen(ps[d := p], d, a, u)
  {
    var qs := ps[d := p];
    assert BurnsOpen(qs, a, u) == BurnsOpen(ps, a, u)[d := BurnOpen(qs, d, a, u)];
    SumUpdate(BurnsOpen(ps, a, u), d, BurnOpen(qs, d, a, u));
  }

  lemma ClaimUpdate(cs: map<Key, Claim>, k: Key, cl: Claim, a: string)
    ensures Uncredited(cs[k := cl], a) == Uncredited(cs, a) - ClaimWeight(cs, k, a) + ClaimWeight(cs[k := cl], k, a)
    ensures Deposits(cs[k := cl]) == Deposits(cs) - DepositOf(cs, k) + DepositOf(cs[k := cl], k)
  {
    var ds := cs[k := cl];
    assert ClaimWeights(ds, a) == ClaimWeights(cs, a)[k := ClaimWeight(ds, k, a)];
    SumUpdate(ClaimWeights(cs, a), k, ClaimWeight(ds, k, a));
    assert DepositsOf(ds) == DepositsOf(cs)[k := DepositOf(ds, k)];
    SumUpdate(DepositsOf(cs), k, DepositOf(ds, k));
  }

  lemma CreditsAppend(events: seq<LedgerEvent>, e: LedgerEvent, k: Key)
    ensures CreditsFor(events + [e], k) == CreditsFor(events, k) + (if Credits(e, k) then [e] else [])
  {
    assert (events + [e])[..|events|] == events;
  }

  predicate CreditsNothing(e: LedgerEvent) {
    e.kind != Mint && e.kind != Receive && e.kind != LnReceive && e.kind != Deposit
  }

  /** An event of another kind credits no key. */
  lemma OtherEventsCreditNothing(cs: map<Key, Claim>, events: seq<LedgerEvent>, e: LedgerEvent)
    requires CreditsOk(cs, events) && CreditsNothing(e)
    ensures CreditsOk(cs, events + [e])
  {
    forall k: Key
      ensures CreditsFor(events + [e], k) == PaidEvents(cs, k)
    {
      CreditsAppend(events, e, k);
      assert !Credits(e, k);
      assert CreditsFor(events, k) == PaidEvents(cs, k);
      hide CreditsFor, PaidEvents;
    }
    hide CreditsFor, PaidEvents;
  }

  // ---- The gaps, one asset and user at a time ---------------------------------------------

  ghost predicate SameGaps(c: Core, d: Core, a: string, u: string) {
    JournalGap(d, a, u) == JournalGap(c, a, u) && BooksGap(d, a) == BooksGap(c, a) && SatsGap(d) == SatsGap(c)
  }

  lemma StayBalanced(c: Core, d: Core)
    requires Balanced(c) && forall a: string, u: string :: SameGaps(c, d, a, u)
    ensures Balanced(d)
  {
    hide JournalGap, BooksGap, SatsGap;
    forall a: string, u: string
      ensures JournalGap(d, a, u) == 0
    {
      assert SameGaps(c, d, a, u);
    }
    forall a: string
      ensures BooksGap(d, a) == 0
    {
      assert SameGaps(c, d, a, "");
    }
    assert SameGaps(c, d, "", "");
  }

  lemma MarkRowGaps(c: Core, row: InFlightRow, owner: nat, a: string, u: string)
    requires DebitAndMark(c.t, row).Ok? && c.t.nextId !in c.t.inFlight && Row(c.t.nextId) !in c.payments
    ensures SameGaps(c, MarkRow(c, row, owner), a, u)
  {
    hide Sum, HoldingsOf, Weights, BurnsOpen, ClaimWeights, DepositsOf, RowAmounts, HistorySum;
    MarkConserves(c.t, row, a, u);
    PaymentUpdate(c.payments, Row(c.t.nextId), Payment(row, owner, Open, Unsent), a, u);
    var after := MarkRow(c, row, owner);
    assert JournalGap(after, a, u) == JournalGap(c, a, u);
    assert SatsGap(after) == SatsGap(c);
    assert BooksGap(after, a) == BooksGap(c, a);
  }

  lemma SettleRowGaps(c: Core, id: nat, reference: Option<string>, a: string, u: string)
    requires RowsOk(c.payments, c.t.inFlight, c.t.nextId)
    ensures SameGaps(c, SettleRow(c, id, reference), a, u)
  {
    hide Sum, HoldingsOf, Weights, BurnsOpen, ClaimWeights, DepositsOf, RowAmounts, HistorySum;
    if id in c.t.inFlight {
      SettleConserves(c.t, id, reference, a, u);
      PaymentUpdate(c.payments, Row(id), c.payments[Row(id)].(closing := Settled), a, u);
    }
  }

  lemma RefundRowGaps(c: Core, id: nat, a: string, u: string)
    requires RowsOk(c.payments, c.t.inFlight, c.t.nextId)
    ensures SameGaps(c, RefundRow(c, id), a, u)
  {
    hide Sum, HoldingsOf, Weights, BurnsOpen, ClaimWeights, DepositsOf, RowAmounts, HistorySum;
    if id in c.t.inFlight {
      RefundConserves(c.t, id, a, u);
      PaymentUpdate(c.payments, Row(id), c.payments[Row(id)].(closing := Refunded), a, u);
    }
  }

  lemma OpenBurnGaps(c: Core, pid: nat, row: InFlightRow, a: string, u: string)
    requires Debit(c.t, row.asset, row.pubkey, row.amount).Ok? && BurnOf(pid) !in c.payments
    ensures SameGaps(c, OpenBurn(c, pid, row), a, u)
  {
    hide Sum, HoldingsOf, Weights, BurnsOpen, ClaimWeights, DepositsOf, RowAmounts, HistorySum, Debit;
    DebitMoves(c.t, row.asset, row.pubkey, row.amount, a, u);
    PaymentUpdate(c.payments, BurnOf(pid), Payment(row, pid, Open, Unsent), a, u);
  }

  lemma RecordBurnGaps(c: Core, d: DebitId, txid: string, a: string, u: string)
    requires d in c.payments && d.BurnOf? && c.payments[d].closing == Open
    ensures SameGaps(c, RecordBurn(c, d, txid), a, u)
  {
    hide Sum, HoldingsOf, Weights, BurnsOpen, ClaimWeights, DepositsOf, RowAmounts, HistorySum;
    HistoryAppend(c.t.events, BurnEvent(c.payments[d].row, txid), a, u);
    PaymentUpdate(c.payments, d, c.payments[d].(closing := Settled), a, u);
  }

  lemma RefundBurnGaps(c: Core, d: DebitId, a: string, u: string)
    requires d in c.payments && d.BurnOf? && c.payments[d].closing == Open
    ensures SameGaps(c, RefundBurn(c, d), a, u)
  {
    hide Sum, HoldingsOf, Weights, BurnsOpen, ClaimWeights, DepositsOf, RowAmounts, HistorySum, Credit;
    var row := c.payments[d].row;
    CreditMoves(c.t, row.asset, row.pubkey, row.amount, a, u);
    PaymentUpdate(c.payments, d, c.payments[d].(closing := Refunded), a, u);
  }

  /** A change of fate that sends no value away moves nothing. */
  lemma SetFateGaps(c: Core, d: DebitId, fate: Fate, a: string, u: string)
    requires d in c.payments && fate != Left && c.payments[d].fate != Left
    ensures SameGaps(c, SetFate(c, d, fate), a, u)
  {
    hide Sum, HoldingsOf, Weights, BurnsOpen, ClaimWeights, DepositsOf, RowAmounts, HistorySum;
    PaymentUpdate(c.payments, d, c.payments[d].(fate := fate), a, u);
  }

  lemma PayOutGaps(c: Core, d: DebitId, a: string, u: string)
    requires d in c.payments && c.payments[d].fate != Left
    requires c.payments[d].row.amount <= Held(c, c.payments[d].row.asset)
    ensures SameGaps(c, PayOut(c, d), a, u)
  {
    hide Sum, HoldingsOf, Weights, BurnsOpen, ClaimWeights, DepositsOf, RowAmounts, HistorySum;
    PaymentUpdate(c.payments, d, c.payments[d].(fate := Left), a, u);
  }

  lemma ArriveGaps(c: Core, k: Key, a: string, u: string)
    requires k in c.claims && !c.claims[k].arrived
    ensures SameGaps(c, Arrive(c, k), a, u)
  {
    hide Sum, HoldingsOf, Weights, BurnsOpen, ClaimWeights, DepositsOf, RowAmounts, HistorySum, Credited, AsI64;
    ClaimUpdate(c.claims, k, c.claims[k].(arrived := true), a);
  }

  lemma PayClaimGaps(c: Core, k: Key, a: string, u: string)
    requires ClaimsOk(c.claims, c.t.pending) && k in c.t.pending
    ensures SameGaps(c, PayClaim(c, k), a, u)
  {
    hide Sum, HoldingsOf, Weights, BurnsOpen, ClaimWeights, DepositsOf, RowAmounts, HistorySum, Resolve, Credited;
    var minted := c.claims[k].asset;
    ResolveConserves(c.t, k, minted, a, u);
    ResolveShape(c.t, k, minted);
    assert RowMatches(k, c.t.pending[k], c.claims[k]);
    ClaimUpdate(c.claims, k, c.claims[k].(stage := Paid), a);
  }

  /** Purging touches waiting claims only, and those weigh the same when gone. */
  lemma PurgedWeighs(cs: map<Key, Claim>, stale: set<Key>, a: string)
    requires forall k :: k in stale ==> k in cs && cs[k].stage == Waiting
    ensures Uncredited(Purged(cs, stale), a) == Uncredited(cs, a) && Deposits(Purged(cs, stale)) == Deposits(cs)
  {
    hide Sum, Worth;
    assert ClaimWeights(Purged(cs, stale), a) == ClaimWeights(cs, a);
    assert DepositsOf(Purged(cs, stale)) == DepositsOf(cs);
  }

  /** The pending tables hold no money. */
  lemma SameMoney(t: Tables, after: Tables, a: string, u: string)
    requires after == t.(pending := after.pending)
    ensures Liability(after, a) == Liability(t, a) && TotalSats(after) == TotalSats(t) && Unexplained(after, a, u) == Unexplained(t, a, u)
  {
    hide Sum, HoldingsOf, HistorySum, Reserved;
  }

  lemma PurgeGaps(c: Core, cutoff: int, a: string, u: string)
    requires ClaimsOk(c.claims, c.t.pending)
    ensures SameGaps(c, PurgeClaims(c, cutoff), a, u)
  {
    hide ClaimsOk, Liability, TotalSats, Outstanding, OpenBurns, Uncredited, Deposits, Unexplained, Purged, StaleLn, Held, Spare;
    StaleAreWaiting(c, cutoff);
    PurgedWeighs(c.claims, StaleLn(c.t, cutoff), a);
    SameMoney(c.t, PurgeStaleLn(c.t, cutoff), a, u);
    SameUnits(c, PurgeClaims(c, cutoff), a);
  }

  lemma StaleAreWaiting(c: Core, cutoff: int)
    requires ClaimsOk(c.claims, c.t.pending)
    ensures forall k :: k in StaleLn(c.t, cutoff) ==> k in c.claims && c.claims[k].stage == Waiting
  {}

  lemma SameUnits(c: Core, d: Core, a: string)
    requires d.holdings == c.holdings && d.surplus == c.surplus
    ensures Held(d, a) == Held(c, a) && Spare(d, a) == Spare(c, a)
  {}

  // ---- The shapes, one table at a time ------------------------------------------------------

  lemma RowsMark(ps: map<DebitId, Payment>, rows: map<nat, InFlightRow>, nextId: nat, p: Payment)
    requires RowsOk(ps, rows, nextId) && PaysOut(p.row) && p.closing == Open
    ensures nextId !in rows && Row(nextId) !in ps
    ensures RowsOk(ps[Row(nextId) := p], rows[nextId := p.row], nextId + 1)
  {}

  lemma RowsClose(ps: map<DebitId, Payment>, rows: map<nat, InFlightRow>, nextId: nat, id: nat, closing: Closing)
    requires RowsOk(ps, rows, nextId) && id in rows && closing != Open
    ensures Row(id) in ps && ps[Row(id)].row == rows[id] && ps[Row(id)].closing == Open && PaysOut(rows[id])
    ensures RowsOk(ps[Row(id) := ps[Row(id)].(closing := closing)], rows - {id}, nextId)
  {}

  lemma RowsPut(ps: map<DebitId, Payment>, rows: map<nat, InFlightRow>, nextId: nat, d: DebitId, p: Payment)
    requires RowsOk(ps, rows, nextId)
    requires if d.Row? then d in ps && p.row == ps[d].row && p.closing == ps[d].closing else p.row.kind == Burn
    ensures RowsOk(ps[d := p], rows, nextId)
  {}

  lemma PutEvolves(ps: map<DebitId, Payment>, d: DebitId, p: Payment, actor: Option<nat>)
    requires d in ps ==> PaymentEvolves(ps[d], p, actor)
    ensures PaymentsEvolve(ps, ps[d := p], actor)
    ensures PaymentsEvolve(ps, ps, actor)
  {}

  lemma NoneEvolve(c: Core, actor: Option<nat>)
    ensures PaymentsEvolve(c.payments, c.payments, actor) && ClaimsEvolve(c.claims, c.claims, actor)
  {}

  lemma PutClaimEvolves(cs: map<Key, Claim>, k: Key, cl: Claim, actor: Option<nat>)
    requires k in cs ==> ClaimEvolves(cs[k], cl, actor)
    ensures ClaimsEvolve(cs, cs[k := cl], actor)
  {}

  /** A waiting claim keeps its row, any other has none. */
  lemma PutClaimShape(cs: map<Key, Claim>, pending: map<Key, PendingRow>, k: Key, cl: Claim)
    requires ClaimsOk(cs, pending) && (cl.stage == Paid ==> cl.arrived)
    ensures (k in cs && cl == cs[k].(arrived := cl.arrived, cancelled := cl.cancelled)) ==> ClaimsOk(cs[k := cl], pending)
    ensures cl.stage != Waiting ==> ClaimsOk(cs[k := cl], pending - {k})
    ensures forall row :: cl.stage == Waiting && RowMatches(k, row, cl) ==> ClaimsOk(cs[k := cl], pending[k := row])
    ensures k in pending ==> k in cs && cs[k].stage == Waiting && RowMatches(k, pending[k], cs[k])
    ensures k !in cs || cs[k].stage != Waiting ==> k !in pending && pending - {k} == pending
  {}

  // ---- Every kernel step keeps the invariant and undoes nothing -----------------------------

  /** A step from `c` to `d` taken by `actor` keeps the account and goes only forward. */
  ghost predicate Forward(c: Core, d: Core, actor: Option<nat>) {
    CoreInv(d) && PaymentsEvolve(c.payments, d.payments, actor) && ClaimsEvolve(c.claims, d.claims, actor)
  }

  lemma MarkRowKeeps(c: Core, row: InFlightRow, owner: nat, actor: Option<nat>)
    requires CoreInv(c) && PaysOut(row) && DebitAndMark(c.t, row).Ok?
    ensures Forward(c, MarkRow(c, row, owner), actor)
    ensures MarkRow(c, row, owner).t.sats == c.t.sats
  {
    hide RowsOk, ClaimsOk, CreditsOk, MintsOk, PaymentsEvolve, ClaimsEvolve, Balanced, SameGaps;
    var after := MarkRow(c, row, owner);
    var p := Payment(row, owner, Open, Unsent);
    RowsMark(c.payments, c.t.inFlight, c.t.nextId, p);
    PutEvolves(c.payments, Row(c.t.nextId), p, actor);
    NoneEvolve(c, actor);
    forall a: string, u: string
      ensures SameGaps(c, after, a, u)
    {
      MarkRowGaps(c, row, owner, a, u);
    }
    StayBalanced(c, after);
  }

  lemma SettleRowKeeps(c: Core, id: nat, reference: Option<string>, actor: Option<nat>)
    requires CoreInv(c)
    requires Row(id) !in c.payments || c.payments[Row(id)].row.kind == LnSend || Some(c.payments[Row(id)].owner) == actor
    ensures Forward(c, SettleRow(c, id, reference), actor)
    ensures SettleRow(c, id, reference).t.sats == c.t.sats
  {
    hide RowsOk, ClaimsOk, CreditsOk, MintsOk, PaymentsEvolve, ClaimsEvolve, Balanced, SameGaps;
    NoneEvolve(c, actor);
    if id in c.t.inFlight {
      var after := SettleRow(c, id, reference);
      RowsClose(c.payments, c.t.inFlight, c.t.nextId, id, Settled);
      PutEvolves(c.payments, Row(id), c.payments[Row(id)].(closing := Settled), actor);
      OtherEventsCreditNothing(c.claims, c.t.events, SettleEvent(c.t.inFlight[id], reference));
      forall a: string, u: string
        ensures SameGaps(c, after, a, u)
      {
        SettleRowGaps(c, id, reference, a, u);
      }
      StayBalanced(c, after);
    }
  }

  lemma RefundRowKeeps(c: Core, id: nat, actor: Option<nat>)
    requires CoreInv(c)
    requires Row(id) !in c.payments || c.payments[Row(id)].row.kind == LnSend || Some(c.payments[Row(id)].owner) == actor
    ensures Forward(c, RefundRow(c, id), actor)
    ensures RefundRow(c, id).t.sats == c.t.sats
  {
    hide RowsOk, ClaimsOk, CreditsOk, MintsOk, PaymentsEvolve, ClaimsEvolve, Balanced, SameGaps;
    NoneEvolve(c, actor);
    if id in c.t.inFlight {
      var after := RefundRow(c, id);
      RowsClose(c.payments, c.t.inFlight, c.t.nextId, id, Refunded);
      PutEvolves(c.payments, Row(id), c.payments[Row(id)].(closing := Refunded), actor);
      forall a: string, u: string
        ensures SameGaps(c, after, a, u)
      {
        RefundRowGaps(c, id, a, u);
      }
      StayBalanced(c, after);
    }
  }

  lemma OpenBurnKeeps(c: Core, pid: nat, row: InFlightRow, actor: Option<nat>)
    requires CoreInv(c) && row.kind == Burn && BurnOf(pid) !in c.payments
    requires Debit(c.t, row.asset, row.pubkey, row.amount).Ok?
    ensures Forward(c, OpenBurn(c, pid, row), actor)
    ensures OpenBurn(c, pid, row).t.sats == c.t.sats
  {
    hide RowsOk, ClaimsOk, CreditsOk, MintsOk, PaymentsEvolve, ClaimsEvolve, Balanced, SameGaps;
    var after := OpenBurn(c, pid, row);
    var p := Payment(row, pid, Open, Unsent);
    NoneEvolve(c, actor);
    RowsPut(c.payments, c.t.inFlight, c.t.nextId, BurnOf(pid), p);
    PutEvolves(c.payments, BurnOf(pid), p, actor);
    forall a: string, u: string
      ensures SameGaps(c, after, a, u)
    {
      OpenBurnGaps(c, pid, row, a, u);
    }
    StayBalanced(c, after);
  }

  lemma RecordBurnKeeps(c: Core, d: DebitId, txid: string, actor: Option<nat>)
    requires CoreInv(c) && d in c.payments && d.BurnOf? && c.payments[d].closing == Open
    requires c.payments[d].row.kind == Burn && Some(c.payments[d].owner) == actor
    ensures Forward(c, RecordBurn(c, d, txid), actor)
    ensures RecordBurn(c, d, txid).t.sats == c.t.sats
  {
    hide RowsOk, ClaimsOk, CreditsOk, MintsOk, PaymentsEvolve, ClaimsEvolve, Balanced, SameGaps;
    var after := RecordBurn(c, d, txid);
    var p := c.payments[d].(closing := Settled);
    NoneEvolve(c, actor);
    RowsPut(c.payments, c.t.inFlight, c.t.nextId, d, p);
    PutEvolves(c.payments, d, p, actor);
    OtherEventsCreditNothing(c.claims, c.t.events, BurnEvent(c.payments[d].row, txid));
    forall a: string, u: string
      ensures SameGaps(c, after, a, u)
    {
      RecordBurnGaps(c, d, txid, a, u);
    }
    StayBalanced(c, after);
  }

  lemma RefundBurnKeeps(c: Core, d: DebitId, actor: Option<nat>)
    requires CoreInv(c) && d in c.payments && d.BurnOf? && c.payments[d].closing == Open
    requires c.payments[d].row.kind == Burn && Some(c.payments[d].owner) == actor
    ensures Forward(c, RefundBurn(c, d), actor)
    ensures RefundBurn(c, d).t.sats == c.t.sats
  {
    hide RowsOk, ClaimsOk, CreditsOk, MintsOk, PaymentsEvolve, ClaimsEvolve, Balanced, SameGaps;
    var after := RefundBurn(c, d);
    var p := c.payments[d].(closing := Refunded);
    NoneEvolve(c, actor);
    RowsPut(c.payments, c.t.inFlight, c.t.nextId, d, p);
    PutEvolves(c.payments, d, p, actor);
    forall a: string, u: string
      ensures SameGaps(c, after, a, u)
    {
      RefundBurnGaps(c, d, a, u);
    }
    StayBalanced(c, after);
  }

  lemma FateShape(c: Core, d: DebitId, fate: Fate, actor: Option<nat>)
    requires CoreInv(c) && d in c.payments
    requires PaymentEvolves(c.payments[d], c.payments[d].(fate := fate), actor)
    ensures Shape(SetFate(c, d, fate))
    ensures PaymentsEvolve(c.payments, SetFate(c, d, fate).payments, actor) && ClaimsEvolve(c.claims, c.claims, actor)
  {
    hide ClaimsOk, CreditsOk, MintsOk, PaymentsEvolve, ClaimsEvolve, Balanced;
    var p := c.payments[d].(fate := fate);
    RowsPut(c.payments, c.t.inFlight, c.t.nextId, d, p);
    PutEvolves(c.payments, d, p, actor);
    NoneEvolve(c, actor);
    hide RowsOk;
  }

  lemma SetFateKeeps(c: Core, d: DebitId, fate: Fate, actor: Option<nat>)
    requires CoreInv(c) && d in c.payments && (fate == Sent || fate == Dropped)
    requires match c.payments[d].fate
             case Unsent => Some(c.payments[d].owner) == actor
             case Sent => fate == Dropped
             case _ => false
    ensures Forward(c, SetFate(c, d, fate), actor)
    ensures SetFate(c, d, fate).t.sats == c.t.sats
  {
    hide RowsOk, ClaimsOk, CreditsOk, MintsOk, PaymentsEvolve, ClaimsEvolve, Balanced, SameGaps;
    var after := SetFate(c, d, fate);
    FateShape(c, d, fate, actor);
    forall a: string, u: string
      ensures SameGaps(c, after, a, u)
    {
      SetFateGaps(c, d, fate, a, u);
    }
    StayBalanced(c, after);
  }

  lemma PayOutKeeps(c: Core, d: DebitId, actor: Option<nat>)
    requires CoreInv(c) && d in c.payments && c.payments[d].fate == Sent
    requires c.payments[d].row.amount <= Held(c, c.payments[d].row.asset)
    ensures Forward(c, PayOut(c, d), actor)
    ensures PayOut(c, d).t.sats == c.t.sats
  {
    hide RowsOk, ClaimsOk, CreditsOk, MintsOk, PaymentsEvolve, ClaimsEvolve, Balanced, SameGaps;
    var after := PayOut(c, d);
    FateShape(c, d, Left, actor);
    forall a: string, u: string
      ensures SameGaps(c, after, a, u)
    {
      PayOutGaps(c, d, a, u);
    }
    StayBalanced(c, after);
  }

  /** A record of a key that changes what has been credited for it nowhere. */
  lemma PutClaimKeepsCredits(cs: map<Key, Claim>, k: Key, cl: Claim, events: seq<LedgerEvent>)
    requires CreditsOk(cs, events) && PaidEvents(cs[k := cl], k) == PaidEvents(cs, k)
    ensures CreditsOk(cs[k := cl], events)
  {
    hide CreditsFor;
    forall j: Key
      ensures CreditsFor(events, j) == PaidEvents(cs[k := cl], j)
    {
      assert CreditsFor(events, j) == PaidEvents(cs, j);
    }
  }

  lemma PutClaimKeepsMints(cs: map<Key, Claim>, k: Key, cl: Claim, mints: map<string, (string, string)>)
    requires MintsOk(cs, mints)
    requires if k in cs then cl.asset == cs[k].asset && cl.pubkey == cs[k].pubkey && (cl.stage == Paid <==> cs[k].stage == Paid)
             else cl.stage != Paid
    ensures MintsOk(cs[k := cl], mints)
  {
    var ds := cs[k := cl];
    forall batch: string
      ensures MintRecorded(ds, mints, batch)
    {
      assert MintRecorded(cs, mints, batch);
    }
  }

  /** The pending tables hold no money, so a claim that weighs the same moves nothing. */
  lemma ReclaimGaps(c: Core, k: Key, cl: Claim, pending: map<Key, PendingRow>, a: string, u: string)
    requires ClaimWeight(c.claims[k := cl], k, a) == ClaimWeight(c.claims, k, a)
    requires DepositOf(c.claims[k := cl], k) == DepositOf(c.claims, k)
    ensures SameGaps(c, PutClaim(WithTables(c, c.t.(pending := pending)), k, cl), a, u)
  {
    hide Sum, HoldingsOf, Weights, BurnsOpen, ClaimWeights, DepositsOf, RowAmounts, HistorySum, ClaimWeight, DepositOf;
    ClaimUpdate(c.claims, k, cl, a);
  }

  /** Moving a claim that has not been paid between stages, together with its row. */
  lemma ReclaimKeeps(c: Core, k: Key, cl: Claim, pending: map<Key, PendingRow>, actor: Option<nat>)
    requires CoreInv(c) && ClaimsOk(c.claims[k := cl], pending)
    requires if k in c.claims
             then ClaimEvolves(c.claims[k], cl, actor) && cl.arrived == c.claims[k].arrived &&
                  (cl.stage == Paid <==> c.claims[k].stage == Paid)
             else cl.stage == Issued && !cl.arrived
    ensures Forward(c, PutClaim(WithTables(c, c.t.(pending := pending)), k, cl), actor)
  {
    hide RowsOk, ClaimsOk, CreditsOk, MintsOk, PaymentsEvolve, ClaimsEvolve, Balanced, SameGaps;
    var after := PutClaim(WithTables(c, c.t.(pending := pending)), k, cl);
    NoneEvolve(c, actor);
    PutClaimEvolves(c.claims, k, cl, actor);
    PutClaimKeepsCredits(c.claims, k, cl, c.t.events);
    PutClaimKeepsMints(c.claims, k, cl, c.t.mints);
    forall a: string, u: string
      ensures SameGaps(c, after, a, u)
    {
      ReclaimGaps(c, k, cl, pending, a, u);
    }
    StayBalanced(c, after);
  }

  lemma IssueKeeps(c: Core, k: Key, cl: Claim, actor: Option<nat>)
    requires CoreInv(c) && k !in c.claims && cl.stage == Stage.Issued && !cl.arrived
    ensures Forward(c, PutClaim(c, k, cl), actor)
  {
    hide RowsOk, ClaimsOk, CreditsOk, MintsOk, PaymentsEvolve, ClaimsEvolve, Balanced;
    PutClaimShape(c.claims, c.t.pending, k, cl);
    ReclaimKeeps(c, k, cl, c.t.pending, actor);
    assert WithTables(c, c.t.(pending := c.t.pending)) == c;
  }

  lemma CancelKeeps(c: Core, k: Key, actor: Option<nat>)
    requires CoreInv(c) && k in c.claims
    ensures Forward(c, PutClaim(c, k, c.claims[k].(cancelled := true)), actor)
  {
    var cl := c.claims[k].(cancelled := true);
    assert cl.stage == Paid ==> cl.arrived;
    hide RowsOk, ClaimsOk, CreditsOk, MintsOk, PaymentsEvolve, ClaimsEvolve, Balanced;
    PutClaimShape(c.claims, c.t.pending, k, cl);
    ReclaimKeeps(c, k, cl, c.t.pending, actor);
    assert WithTables(c, c.t.(pending := c.t.pending)) == c;
  }

  lemma AwaitKeeps(c: Core, k: Key, createdAt: int, actor: Option<nat>)
    requires CoreInv(c) && k in c.claims && c.claims[k].stage == Stage.Issued && Some(c.claims[k].owner) == actor
    ensures Forward(c, Await(c, k, createdAt), actor)
    ensures Await(c, k, createdAt).t == c.t.(pending := c.t.pending[k := WaitingRow(k, c.claims[k], createdAt)])
  {
    hide RowsOk, ClaimsOk, CreditsOk, MintsOk, PaymentsEvolve, ClaimsEvolve, Balanced;
    var cl := c.claims[k].(stage := Waiting);
    var row := WaitingRow(k, c.claims[k], createdAt);
    PutClaimShape(c.claims, c.t.pending, k, cl);
    assert RowMatches(k, row, cl);
    ReclaimKeeps(c, k, cl, c.t.pending[k := row], actor);
  }

  lemma DropClaimKeeps(c: Core, k: Key, actor: Option<nat>)
    requires CoreInv(c)
    ensures Forward(c, DropClaim(c, k), actor)
    ensures DropClaim(c, k).t.sats == c.t.sats
  {
    hide RowsOk, ClaimsOk, CreditsOk, MintsOk, PaymentsEvolve, ClaimsEvolve, Balanced;
    NoneEvolve(c, actor);
    if k in c.t.pending && k in c.claims {
      var cl := c.claims[k].(stage := Gone);
      PutClaimShape(c.claims, c.t.pending, k, cl);
      ReclaimKeeps(c, k, cl, c.t.pending - {k}, actor);
    }
  }

  lemma ArriveKeeps(c: Core, k: Key, actor: Option<nat>)
    requires CoreInv(c) && k in c.claims && !c.claims[k].arrived
    ensures Forward(c, Arrive(c, k), actor)
    ensures Arrive(c, k).t == c.t
  {
    assert c.claims[k].stage != Paid;
    hide RowsOk, ClaimsOk, CreditsOk, MintsOk, PaymentsEvolve, ClaimsEvolve, Balanced, SameGaps;
    var after := Arrive(c, k);
    var cl := c.claims[k].(arrived := true);
    NoneEvolve(c, actor);
    PutClaimShape(c.claims, c.t.pending, k, cl);
    PutClaimEvolves(c.claims, k, cl, actor);
    PutClaimKeepsCredits(c.claims, k, cl, c.t.events);
    PutClaimKeepsMints(c.claims, k, cl, c.t.mints);
    forall a: string, u: string
      ensures SameGaps(c, after, a, u)
    {
      ArriveGaps(c, k, a, u);
    }
    StayBalanced(c, after);
  }

  lemma PayClaimKeeps(c: Core, k: Key, actor: Option<nat>)
    requires CoreInv(c) && (k in c.claims ==> c.claims[k].arrived)
    ensures Forward(c, PayClaim(c, k), actor)
  {
    hide RowsOk, ClaimsOk, CreditsOk, MintsOk, PaymentsEvolve, ClaimsEvolve, Balanced, SameGaps, Resolve;
    NoneEvolve(c, actor);
    if k in c.t.pending && k in c.claims {
      var after := PayClaim(c, k);
      var cl := c.claims[k].(stage := Paid);
      ResolveShape(c.t, k, c.claims[k].asset);
      PutClaimShape(c.claims, c.t.pending, k, cl);
      PutClaimEvolves(c.claims, k, cl, actor);
      PayClaimCredits(c, k);
      PayClaimMints(c, k);
      forall a: string, u: string
        ensures SameGaps(c, after, a, u)
      {
        PayClaimGaps(c, k, a, u);
      }
      StayBalanced(c, after);
    }
  }

  /** Crediting a batch records its mint. */
  lemma PayClaimMints(c: Core, k: Key)
    requires ClaimsOk(c.claims, c.t.pending) && MintsOk(c.claims, c.t.mints) && k in c.t.pending
    ensures MintsOk(PayClaim(c, k).claims, PayClaim(c, k).t.mints)
  {
    var after, cl := PayClaim(c, k), c.claims[k];
    ResolveShape(c.t, k, cl.asset);
    assert RowMatches(k, c.t.pending[k], cl);
    forall batch: string
      ensures MintRecorded(after.claims, after.t.mints, batch)
    {
      assert MintRecorded(c.claims, c.t.mints, batch);
    }
    hide MintRecorded;
  }

  lemma PayClaimCredits(c: Core, k: Key)
    requires ClaimsOk(c.claims, c.t.pending) && CreditsOk(c.claims, c.t.events) && k in c.t.pending
    ensures CreditsOk(PayClaim(c, k).claims, PayClaim(c, k).t.events)
  {
    var after := PayClaim(c, k);
    var cl := c.claims[k];
    var e := CreditEvent(k, cl.asset, cl.pubkey, Worth(cl));
    ResolveShape(c.t, k, cl.asset);
    assert RowMatches(k, c.t.pending[k], cl);
    assert after.t.events == c.t.events + [e];
    assert after.claims == c.claims[k := cl.(stage := Paid)];
    hide CreditsFor, Resolve, PayClaim, RowMatches;
    forall j: Key
      ensures CreditsFor(after.t.events, j) == PaidEvents(after.claims, j)
    {
      CreditsAppend(c.t.events, e, j);
      assert CreditsFor(c.t.events, j) == PaidEvents(c.claims, j);
      OwnEvent(k, cl, j);
    }
  }

  lemma OwnEvent(k: Key, cl: Claim, j: Key)
    ensures Credits(CreditEvent(k, cl.asset, cl.pubkey, Worth(cl)), j) <==> j == k
  {}

  lemma PurgeShape(c: Core, cutoff: int, actor: Option<nat>)
    requires ClaimsOk(c.claims, c.t.pending) && CreditsOk(c.claims, c.t.events) && MintsOk(c.claims, c.t.mints)
    ensures var after := PurgeClaims(c, cutoff);
            && ClaimsOk(after.claims, after.t.pending) && CreditsOk(after.claims, after.t.events)
            && MintsOk(after.claims, after.t.mints) && ClaimsEvolve(c.claims, after.claims, actor)
  {
    hide CreditsFor, CreditsOk, MintsOk;
    PurgeCredits(c, cutoff);
    PurgeMints(c, cutoff);
  }

  lemma PurgeCredits(c: Core, cutoff: int)
    requires ClaimsOk(c.claims, c.t.pending) && CreditsOk(c.claims, c.t.events)
    ensures CreditsOk(PurgeClaims(c, cutoff).claims, c.t.events)
  {
    hide CreditsFor;
    var after := PurgeClaims(c, cutoff);
    forall j: Key
      ensures CreditsFor(c.t.events, j) == PaidEvents(after.claims, j)
    {
      assert CreditsFor(c.t.events, j) == PaidEvents(c.claims, j);
    }
  }

  lemma PurgeMints(c: Core, cutoff: int)
    requires ClaimsOk(c.claims, c.t.pending) && MintsOk(c.claims, c.t.mints)
    ensures MintsOk(PurgeClaims(c, cutoff).claims, c.t.mints)
  {
    var after := PurgeClaims(c, cutoff);
    forall batch: string
      ensures MintRecorded(after.claims, c.t.mints, batch)
    {
      assert MintRecorded(c.claims, c.t.mints, batch);
    }
  }

  lemma PurgeClaimsKeeps(c: Core, cutoff: int, actor: Option<nat>)
    requires CoreInv(c)
    ensures Forward(c, PurgeClaims(c, cutoff), actor)
    ensures PurgeClaims(c, cutoff).t.sats == c.t.sats
  {
    hide RowsOk, ClaimsOk, CreditsOk, MintsOk, PaymentsEvolve, ClaimsEvolve, Balanced, SameGaps;
    var after := PurgeClaims(c, cutoff);
    NoneEvolve(c, actor);
    PurgeShape(c, cutoff, actor);
    forall a: string, u: string
      ensures SameGaps(c, after, a, u)
    {
      PurgeGaps(c, cutoff, a, u);
    }
    StayBalanced(c, after);
  }

  lemma OwnUnitsGaps(c: Core, asset: string, held: nat, spare: nat, a: string, u: string)
    requires var n: int := held; n - spare == Held(c, asset) - Spare(c, asset)
    ensures SameGaps(c, c.(holdings := c.holdings[asset := held], surplus := c.surplus[asset := spare]), a, u)
  {
    hide Sum, HoldingsOf, Weights, BurnsOpen, ClaimWeights, DepositsOf, RowAmounts, HistorySum;
  }

  /** The operator's own units are nobody's claim. */
  lemma OwnUnitsKeep(c: Core, asset: string, held: nat, spare: nat, actor: Option<nat>)
    requires CoreInv(c)
    requires var n: int := held; n - spare == Held(c, asset) - Spare(c, asset)
    ensures Forward(c, c.(holdings := c.holdings[asset := held], surplus := c.surplus[asset := spare]), actor)
  {
    hide RowsOk, ClaimsOk, CreditsOk, MintsOk, PaymentsEvolve, ClaimsEvolve, Balanced, SameGaps;
    var after := c.(holdings := c.holdings[asset := held], surplus := c.surplus[asset := spare]);
    NoneEvolve(c, actor);
    forall a: string, u: string
      ensures SameGaps(c, after, a, u)
    {
      OwnUnitsGaps(c, asset, held, spare, a, u);
    }
    StayBalanced(c, after);
  }

  lemma TransferGaps(c: Core, asset: string, from: string, to_: string, amount: nat, a: string, u: string)
    requires Transfer(c.t, asset, from, to_, amount).Ok?
    ensures SameGaps(c, WithTables(c, Transfer(c.t, asset, from, to_, amount).value), a, u)
  {
    hide Sum, HoldingsOf, Weights, BurnsOpen, ClaimWeights, DepositsOf, RowAmounts, HistorySum, Transfer, Unexplained;
    TransferConserves(c.t, asset, from, to_, amount, a, u);
  }

  lemma TransferKeeps(c: Core, asset: string, from: string, to_: string, amount: nat, actor: Option<nat>)
    requires CoreInv(c) && Transfer(c.t, asset, from, to_, amount).Ok?
    ensures Forward(c, WithTables(c, Transfer(c.t, asset, from, to_, amount).value), actor)
    ensures Transfer(c.t, asset, from, to_, amount).value.sats == c.t.sats
  {
    hide RowsOk, ClaimsOk, CreditsOk, MintsOk, PaymentsEvolve, ClaimsEvolve, Balanced, SameGaps, Transfer;
    var after := WithTables(c, Transfer(c.t, asset, from, to_, amount).value);
    NoneEvolve(c, actor);
    TransferShape(c.t, asset, from, to_, amount);
    TransferConserves(c.t, asset, from, to_, amount, "", "");
    var out := LedgerEvent(from, asset, TransferOut, amount, Some(to_), None);
    OtherEventsCreditNothing(c.claims, c.t.events, out);
    OtherEventsCreditNothing(c.claims, c.t.events + [out], LedgerEvent(to_, asset, TransferIn, amount, Some(from), None));
    forall a: string, u: string
      ensures SameGaps(c, after, a, u)
    {
      TransferGaps(c, asset, from, to_, amount, a, u);
    }
    StayBalanced(c, after);
  }

  lemma ChargeShape(t: Tables, payer: string, operator: string, amount: nat)
    requires ChargeFee(t, payer, operator, amount).Ok?
    ensures var after := ChargeFee(t, payer, operator, amount).value;
            after == t.(sats := after.sats,
                        events := t.events + [LedgerEvent(payer, SATS, Fee, amount, Some(operator), None)]
                                           + [LedgerEvent(operator, SATS, FeeEarned, amount, Some(payer), None)])
  {}

  lemma ChargeGaps(c: Core, payer: string, operator: string, amount: nat, a: string, u: string)
    requires payer != operator && ChargeFee(c.t, payer, operator, amount).Ok?
    ensures SameGaps(c, WithTables(c, ChargeFee(c.t, payer, operator, amount).value), a, u)
  {
    hide Sum, HoldingsOf, Weights, BurnsOpen, ClaimWeights, DepositsOf, RowAmounts, HistorySum, ChargeFee, Unexplained;
    ChargeConserves(c.t, payer, operator, amount, a, u);
  }

  lemma ChargeKeeps(c: Core, payer: string, operator: string, amount: nat, actor: Option<nat>)
    requires CoreInv(c) && payer != operator && ChargeFee(c.t, payer, operator, amount).Ok?
    ensures Forward(c, WithTables(c, ChargeFee(c.t, payer, operator, amount).value), actor)
  {
    hide RowsOk, ClaimsOk, CreditsOk, MintsOk, PaymentsEvolve, ClaimsEvolve, Balanced, SameGaps, ChargeFee;
    var after := WithTables(c, ChargeFee(c.t, payer, operator, amount).value);
    NoneEvolve(c, actor);
    ChargeShape(c.t, payer, operator, amount);
    var fee := LedgerEvent(payer, SATS, Fee, amount, Some(operator), None);
    OtherEventsCreditNothing(c.claims, c.t.events, fee);
    OtherEventsCreditNothing(c.claims, c.t.events + [fee], LedgerEvent(operator, SATS, FeeEarned, amount, Some(payer), None));
    forall a: string, u: string
      ensures SameGaps(c, after, a, u)
    {
      ChargeGaps(c, payer, operator, amount, a, u);
    }
    StayBalanced(c, after);
  }

  lemma ReturnFeeGaps(c: Core, payer: string, operator: string, amount: nat, a: string, u: string)
    requires payer != operator && amount <= SatsOf(c.t, operator)
    ensures SameGaps(c, WithTables(c, RefundFee(c.t, payer, operator, amount)), a, u)
  {
    hide Sum, HoldingsOf, Weights, BurnsOpen, ClaimWeights, DepositsOf, RowAmounts, HistorySum, RefundFee, Unexplained;
    RefundFeeMoves(c.t, payer, operator, amount, a, u);
  }

  /** A fee comes back without creating a sat as long as the operator still has it. */
  lemma ReturnFeeKeeps(c: Core, payer: string, operator: string, amount: nat, actor: Option<nat>)
    requires CoreInv(c) && payer != operator && amount <= SatsOf(c.t, operator)
    ensures Forward(c, WithTables(c, RefundFee(c.t, payer, operator, amount)), actor)
  {
    hide RowsOk, ClaimsOk, CreditsOk, MintsOk, PaymentsEvolve, ClaimsEvolve, Balanced, SameGaps, RefundFee;
    var after := WithTables(c, RefundFee(c.t, payer, operator, amount));
    NoneEvolve(c, actor);
    RefundFeeMoves(c.t, payer, operator, amount, "", "");
    forall a: string, u: string
      ensures SameGaps(c, after, a, u)
    {
      ReturnFeeGaps(c, payer, operator, amount, a, u);
    }
    StayBalanced(c, after);
  }
}
