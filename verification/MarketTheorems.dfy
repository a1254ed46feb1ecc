/** The market's headline guarantees, for every reachable market. */
module MarketTheorems {
  import opened Numbers
  import opened Curve
  import opened CurveLaws
  import opened MapSum
  import opened MarketModel
  import opened MarketRuns

  /** A market that some creation followed by some operations can produce. */
  ghost predicate Reachable(m: MarketState) {
    exists spec, ts, ops ::
      Create(spec, ts).Ok? && m == Run(Create(spec, ts).value, ops)
  }

  lemma ReachableIsSound(m: MarketState)
    requires Reachable(m)
    ensures Inv(m)
  {
    var spec, ts, ops :| Create(spec, ts).Ok? && m == Run(Create(spec, ts).value, ops);
    ReachableMarketsAreSound(spec, ts, ops);
  }

  // ---- Exit --------------------------------------------------------------------

  /** The documented solvency, in the rounded form the source states it. */
  lemma ReserveBacksSupply(m: MarketState)
    requires Reachable(m)
    ensures var r := ReserveAt(m.params, m.supply);
            r.Ok? ==> m.reserve >= r.value
  {
    ReachableIsSound(m);
    ReserveMeaning(m.params, m.supply);
    var d := 2 * m.params.denom;
    FloorAtMost(Area(m.params, m.supply), d, m.reserve);
  }

  /** A refund is never more than the reserve, whatever part of the supply is sold. */
  lemma RefundWithinReserve(m: MarketState, amount: U64)
    requires Inv(m) && 0 < amount <= m.supply
    ensures (Area(m.params, m.supply) - Area(m.params, m.supply - amount)) >= 0
    ensures (Area(m.params, m.supply) - Area(m.params, m.supply - amount)) / (2 * m.params.denom) <= m.reserve
  {
    AreaMonotone(m.params, m.supply - amount, m.supply);
    FloorAtMost(Area(m.params, m.supply) - Area(m.params, m.supply - amount), 2 * m.params.denom, m.reserve);
  }

  /** A holder's sell is decided by the curve alone. */
  lemma SellFollowsRefund(m: MarketState, user: string, amount: U64, ts: U64)
    requires m.status != Paused && 0 < amount <= BalanceOf(m.balances, user) && amount <= m.supply
    ensures var r := RefundToSell(m.params, m.supply, amount);
            && (r.Err? ==> SellStep(m, user, amount, ts) == Err(CurveFailure(r.error)))
            && (r.Ok? && r.value <= m.reserve ==> SellStep(m, user, amount, ts).Ok?)
  {
    hide RefundToSell;
  }

  lemma RefundSucceedsBelow128(m: MarketState, amount: U64)
    requires Inv(m) && m.reserve <= U64_MAX && 0 < amount <= m.supply
    ensures var r := RefundToSell(m.params, m.supply, amount);
            if Area(m.params, m.supply) - Area(m.params, m.supply - amount) <= U128_MAX
            then r.Ok? && r.value <= m.reserve else r == Err(Overflow)
  {
    RefundWithinReserve(m, amount);
    hide Inv, RefundToSell, Area;
    RefundMeaning(m.params, m.supply, amount);
  }

  lemma SellDecidedByArea(m: MarketState, user: string, amount: U64, ts: U64)
    requires Inv(m) && m.reserve <= U64_MAX
    requires m.status != Paused && 0 < amount <= BalanceOf(m.balances, user)
    ensures amount <= m.supply
    ensures SellStep(m, user, amount, ts).Ok? <==>
            Area(m.params, m.supply) - Area(m.params, m.supply - amount) <= U128_MAX
    ensures SellStep(m, user, amount, ts).Err? ==>
            SellStep(m, user, amount, ts).error == CurveFailure(Overflow)
  {
    HolderWithinSupply(m, user);
    hide Inv, SellStep, RefundToSell, Area;
    RefundSucceedsBelow128(m, amount);
    SellFollowsRefund(m, user, amount, ts);
  }

  /** The product the program computes to price the last `amount` units of a supply. */
  function SoldProduct(c: CurveParams, supply: nat, amount: nat): int
    requires amount <= supply
  {
    amount * (2 * c.p0 + c.k * (supply - amount + supply))
  }

  lemma SoldProductIsArea(c: CurveParams, supply: nat, amount: nat)
    requires amount <= supply
    ensures SoldProduct(c, supply, amount) == Area(c, supply) - Area(c, supply - amount)
  {
    AreaOfSale(c, supply, amount);
    hide Area;
  }

  /** Exit guarantee. In a reachable market that is not paused, a holder's sell fails
      only by 128-bit overflow of the area sold, and does so exactly then; with
      `denom` up to 2^63 it never fails. `reserve` is the value of a 64-bit field. */
  lemma ExitGuarantee(m: MarketState, user: string, amount: U64, ts: U64)
    requires Reachable(m) && m.reserve <= U64_MAX
    requires m.status != Paused && 0 < amount <= BalanceOf(m.balances, user)
    ensures amount <= m.supply
    ensures SellStep(m, user, amount, ts).Ok? <==>
            SoldProduct(m.params, m.supply, amount) <= U128_MAX
    ensures SellStep(m, user, amount, ts).Err? ==>
            SellStep(m, user, amount, ts).error == CurveFailure(Overflow)
    ensures m.params.denom <= 0x8000_0000_0000_0000 ==> SellStep(m, user, amount, ts).Ok?
  {
    ReachableIsSound(m);
    hide Inv, Reachable, SellStep, Area, SoldProduct;
    SellDecidedByArea(m, user, amount, ts);
    SoldProductIsArea(m.params, m.supply, amount);
    SmallDenominator(m, amount);
  }

  lemma SmallDenominator(m: MarketState, amount: U64)
    requires Inv(m) && m.reserve <= U64_MAX && amount <= m.supply
    ensures m.params.denom <= 0x8000_0000_0000_0000 ==> SoldProduct(m.params, m.supply, amount) <= U128_MAX
  {
    hide Inv, Area, SoldProduct;
    SoldProductIsArea(m.params, m.supply, amount);
    if m.params.denom <= 0x8000_0000_0000_0000 {
      AreaWithin128(m, m.supply - amount);
    }
  }

  lemma AreaWithin128(m: MarketState, part: nat)
    requires Inv(m) && m.reserve <= U64_MAX && m.params.denom <= 0x8000_0000_0000_0000
    ensures Area(m.params, m.supply) - Area(m.params, part) <= U128_MAX
  {
    hide Area;
    ProductWithin(m.reserve, 2 * m.params.denom);
  }

  lemma ProductWithin(a: nat, b: nat)
    requires a <= U64_MAX && b <= U64_MAX + 1
    ensures a * b <= U128_MAX
  {
    MulNonNegative(a, U64_MAX + 1 - b);
    MulAdd(b, U64_MAX + 1 - b, a);
  }

  /** Beyond that denominator the guarantee really breaks: two buys of about half the
      supply go through, and selling everything at once then overflows. */
  lemma LargeDenominatorCanBlockExit(spec: MarketSpec, user: string, half: U64, ts: U64)
    requires spec.params == CurveParams(U64_MAX, 0, U64_MAX, U64_MAX, 0)
    requires spec.feeBp == 0 && spec.seed == 0 && half == 0x8000_0000_0000_0000
    ensures Create(spec, ts).Ok?
    ensures var m := Run(Create(spec, ts).value, [DoBuy(user, half, ts), DoBuy(user, half - 1, ts)]);
            && m.status == Trading && m.reserve == U64_MAX
            && BalanceOf(m.balances, user) == m.supply == U64_MAX
            && SellStep(m, user, m.supply, ts) == Err(CurveFailure(Overflow))
  {
    var m0 := Empty(spec, ts);
    var first, second := DoBuy(user, half, ts), DoBuy(user, half - 1, ts);
    FlatBuy(m0, user, half, ts);
    FlatBuy(Apply(m0, first), user, half - 1, ts);
    RunTwo(m0, first, second);
    FlatRefundOverflow(m0.params, U64_MAX);
    FlatSellAll(Run(m0, [first, second]), user, U64_MAX, ts);
  }

  lemma RunTwo(m: MarketState, first: Op, second: Op)
    ensures Run(m, [first, second]) == Apply(Apply(m, first), second)
  {
    var ops := [first, second];
    assert ops[1..] == [second];
    assert Run(Apply(m, first), [second]) == Run(Apply(Apply(m, first), second), [second][1..]);
  }

  lemma FlatRefundOverflow(c: ValidCurve, all: U64)
    requires c.k == 0 && c.p0 == U64_MAX == all
    ensures RefundToSell(c, all, all) == Err(Overflow)
  {
    RefundMeaning(c, all, all);
    FlatArea(c, all);
    assert 2 * U64_MAX * U64_MAX > U128_MAX;
  }

  lemma FlatSellAll(m: MarketState, user: string, all: U64, ts: U64)
    requires RefundToSell(m.params, all, all) == Err(Overflow)
    requires m.status == Trading && BalanceOf(m.balances, user) == m.supply == all && all > 0
    ensures SellStep(m, user, all, ts) == Err(CurveFailure(Overflow))
  {}

  lemma FlatArea(c: CurveParams, s: nat)
    requires c.k == 0
    ensures Area(c, s) == 2 * c.p0 * s
    ensures Area(c, 0) == 0
  {}

  /** On a flat curve of one sat per token every amount costs itself, up to the 128-bit range. */
  lemma FlatCost(c: ValidCurve, s: U64, a: U64)
    requires c.k == 0 && c.p0 == c.denom && a > 0 && s + a <= c.cap
    ensures CostToBuy(c, s, a) == if 2 * c.p0 * a <= U128_MAX then Ok(a) else Err(Overflow)
  {
    CostMeaning(c, s, a);
    FlatArea(c, s);
    FlatArea(c, s + a);
    var d := 2 * c.denom;
    MulAdd(s, a, d);
    CeilAtMost(d * a, d, a);
    CeilAtMost(d * a, d, a - 1);
    MulCancel(a - 1, a, d);
  }

  lemma FlatBuy(m: MarketState, user: string, budget: U64, ts: U64)
    requires m.params == CurveParams(U64_MAX, 0, U64_MAX, U64_MAX, m.params.migration)
    requires m.feeBp == 0 && m.status == Trading
    requires 0 < budget <= 0x8000_0000_0000_0000 && m.supply + budget <= U64_MAX
    requires !IsMigratable(m.params, m.supply + budget)
    ensures BuyStep(m, user, budget, ts).Ok?
    ensures var after := BuyStep(m, user, budget, ts).value.0;
            && after.params == m.params && after.feeBp == 0 && after.status == Trading
            && after.supply == m.supply + budget
            && after.reserve == m.reserve + budget
            && BalanceOf(after.balances, user) == BalanceOf(m.balances, user) + budget
  {
    CurveBudgetBracket(0, budget);
    FlatCost(m.params, m.supply, budget);
    assert Affordable(m.params, m.supply, budget, budget);
    var t := MaxAffordable(m.params, m.supply, budget, m.params.cap - m.supply);
    FlatCost(m.params, m.supply, t);
    assert t == budget;
  }

  // ---- No money pump -------------------------------------------------------------

  lemma {:induction false} RunKeepsDust(m: MarketState, ops: seq<Op>)
    requires Inv(m)
    ensures Run(m, ops).params == m.params
    ensures Dust(m) <= Dust(Run(m, ops))
    decreases |ops|
  {
    if ops != [] {
      ApplyKeepsInvariant(m, ops[0]);
      match ops[0] {
        case DoBuy(user, budget, ts) =>
          if BuyStep(m, user, budget, ts).Ok? { BuyDust(m, user, budget, ts); }
        case DoSell(user, amount, ts) =>
          if SellStep(m, user, amount, ts).Ok? { SellDust(m, user, amount, ts); }
        case DoWithdraw(user, amount) =>
        case DoSetPaused(paused) =>
      }
      RunKeepsDust(Apply(m, ops[0]), ops[1..]);
    }
  }

  /** A replayed log balances: what was paid in, less what was paid out, is in its totals. */
  lemma {:induction false} ReplayBalances(trades: seq<Trade>)
    ensures var j := Replay(trades);
            j.paidIn - j.paidOut == j.reserve + j.fees
    decreases |trades|
  {
    if trades != [] {
      ReplayBalances(trades[..|trades| - 1]);
    }
  }

  /** What traders ever paid into a market, less what they took out of it, is exactly what it
      holds: its reserve and its creator's fees. */
  lemma PaymentsAreHeld(m: MarketState)
    requires Reachable(m)
    ensures Replay(m.trades).paidIn - Replay(m.trades).paidOut == m.reserve + m.fees
  {
    ReachableIsSound(m);
    ReplayBalances(m.trades);
  }

  // ---- Balances and supply ---------------------------------------------------------

  /** The balances sum to the supply exactly as long as nothing was withdrawn. */
  lemma BalancesAreSupplyExactlyWhen(m: MarketState)
    requires Reachable(m)
    ensures Sum(m.balances) == m.supply <==> m.withdrawn == 0
  {
    ReachableIsSound(m);
  }

  lemma {:induction false} WithdrawnStays(m: MarketState, ops: seq<Op>)
    ensures Run(m, ops).withdrawn >= m.withdrawn
    decreases |ops|
  {
    if ops != [] {
      WithdrawnStays(Apply(m, ops[0]), ops[1..]);
    }
  }

  lemma {:induction false} RunAppend(m: MarketState, ops: seq<Op>, more: seq<Op>)
    ensures Run(m, ops + more) == Run(Run(m, ops), more)
    decreases |ops|
  {
    hide Apply;
    if ops == [] {
      assert ops + more == more;
    } else {
      RunAppend(Apply(m, ops[0]), ops[1..], more);
      assert (ops + more)[1..] == ops[1..] + more;
    }
  }

  lemma ReachableThenRun(m: MarketState, ops: seq<Op>)
    requires Reachable(m)
    ensures Reachable(Run(m, ops))
  {
    var spec, ts, before :| Create(spec, ts).Ok? && m == Run(Create(spec, ts).value, before);
    RunAppend(Create(spec, ts).value, before, ops);
  }

  /** After any withdrawal the balances stay below the supply for good. */
  lemma WithdrawalLeavesTheSum(m: MarketState, user: string, amount: U64, ops: seq<Op>)
    requires Reachable(m) && WithdrawStep(m, user, amount).Ok?
    ensures var after := Run(WithdrawStep(m, user, amount).value, ops);
            Reachable(after) && Sum(after.balances) < after.supply
  {
    var left := WithdrawStep(m, user, amount).value;
    assert Apply(m, DoWithdraw(user, amount)) == left;
    assert Run(m, [DoWithdraw(user, amount)]) == Run(left, [DoWithdraw(user, amount)][1..]);
    hide Reachable;
    ReachableThenRun(m, [DoWithdraw(user, amount)]);
    ReachableThenRun(left, ops);
    ReachableIsSound(Run(left, ops));
    WithdrawnStays(left, ops);
  }

  /** And such a market is one buy and one withdrawal away. */
  lemma WithdrawalWitness(spec: MarketSpec, user: string, budget: U64, ts: U64)
    requires spec.params == CurveParams(U64_MAX, 0, U64_MAX, U64_MAX, 0)
    requires spec.feeBp == 0 && spec.seed == 0 && 0 < budget <= 0x8000_0000_0000_0000
    ensures Create(spec, ts).Ok?
    ensures var m := Run(Create(spec, ts).value, [DoBuy(user, budget, ts), DoWithdraw(user, budget)]);
            Reachable(m) && m.supply == m.withdrawn == budget && Sum(m.balances) == 0
  {
    var m0 := Empty(spec, ts);
    FlatBuy(m0, user, budget, ts);
    var buy, out := DoBuy(user, budget, ts), DoWithdraw(user, budget);
    RunTwo(m0, buy, out);
    var m := Run(m0, [buy, out]);
    assert m0 == Create(spec, ts).value;
    assert Reachable(m);
    ReachableIsSound(m);
  }

  /** No run between two states of equal supply takes sats out of the reserve, and over
      such a run traders pay in at least as much as they take out. */
  lemma NoMoneyPump(m: MarketState, ops: seq<Op>)
    requires Reachable(m) && Run(m, ops).supply == m.supply
    ensures var after := Run(m, ops);
            && after.reserve >= m.reserve
            && var before, later := Replay(m.trades), Replay(after.trades);
               later.paidIn - before.paidIn - (later.paidOut - before.paidOut) >= after.fees - m.fees
  {
    ReachableIsSound(m);
    RunKeepsDust(m, ops);
    RunKeepsInvariant(m, ops);
    var after := Run(m, ops);
    MulCancel(m.reserve, after.reserve, 2 * m.params.denom);
    ReplayBalances(m.trades);
    ReplayBalances(after.trades);
  }

  /** The reserve exceeds the exact area by less than one sat per trade, so a fully
      unwound market holds at most one sat per trade but the last. */
  lemma DustIsBounded(m: MarketState)
    requires Reachable(m) && m.trades != []
    ensures 0 <= Dust(m) < |m.trades| * (2 * m.params.denom)
    ensures m.supply == 0 ==> m.reserve <= |m.trades| - 1
  {
    hide Inv, Reachable, Dust;
    ReachableIsSound(m);
    DustBracket(m);
    if m.supply == 0 {
      EmptyDust(m);
      MulCancel(m.reserve, |m.trades|, 2 * m.params.denom);
    }
  }

  lemma DustBracket(m: MarketState)
    requires Inv(m) && m.trades != []
    ensures 0 <= Dust(m) < |m.trades| * (2 * m.params.denom)
  {
    hide LedgerOk, JournalOk, StatusOk, Dust;
  }

  lemma EmptyDust(m: MarketState)
    requires m.supply == 0
    ensures Dust(m) == m.reserve * (2 * m.params.denom)
  {
    assert Area(m.params, 0) == 0;
    hide Area;
  }

  /** Buys of two sats each, then one sell of everything. */
  function TightRun(user: string, buys: nat, ts: U64): seq<Op> {
    if buys == 0 then [] else [DoBuy(user, 2, ts)] + TightRun(user, buys - 1, ts)
  }

  ghost predicate TightState(m: MarketState, user: string, bought: nat) {
    && m.params.k == 0 && m.params.p0 == m.params.denom + 1 && m.params.migration == 0
    && m.feeBp == 0 && m.status == Trading
    && m.supply == bought == BalanceOf(m.balances, user)
    && m.reserve == 2 * bought && |m.trades| == bought
  }

  lemma TightBuy(m: MarketState, user: string, bought: nat, budget: U64, ts: U64)
    requires TightState(m, user, bought) && bought < m.params.cap && m.params.denom > 1 && budget == 2
    ensures TightState(Apply(m, DoBuy(user, budget, ts)), user, bought + 1)
    ensures Apply(m, DoBuy(user, budget, ts)).params == m.params
  {
    CurveBudgetBracket(0, budget);
    TightCost(m.params, m.supply, 1);
    assert Affordable(m.params, m.supply, 1, budget);
    var t := MaxAffordable(m.params, m.supply, budget, m.params.cap - m.supply);
    TightCost(m.params, m.supply, t);
  }

  /** At a price just above one sat, `a` tokens cost more than `a` sats. */
  lemma TightCost(c: ValidCurve, s: U64, a: U64)
    requires c.k == 0 && c.p0 == c.denom + 1 && c.denom > 1 && a > 0 && s + a <= c.cap
    ensures CostToBuy(c, s, a).Ok? ==> CostToBuy(c, s, a).value > a
    ensures a == 1 ==> CostToBuy(c, s, a) == Ok(2)
  {
    CostMeaning(c, s, a);
    var d := 2 * c.denom;
    FlatArea(c, s);
    FlatArea(c, s + a);
    MulAdd(s, a, 2 * c.p0);
    MulAdd(d, 2, a);
    CeilAtMost(2 * c.p0 * a, d, a);
    if a == 1 {
      CeilAtMost(2 * c.p0, d, 2);
    }
  }

  lemma {:induction false} TightBuys(m: MarketState, user: string, bought: nat, more: nat, ts: U64)
    requires TightState(m, user, bought) && bought + more <= m.params.cap && m.params.denom > 1
    ensures TightState(Run(m, TightRun(user, more, ts)), user, bought + more)
    ensures Run(m, TightRun(user, more, ts)).params == m.params
    decreases more
  {
    hide TightState, Apply;
    if more > 0 {
      var ops := TightRun(user, more, ts);
      assert ops[0] == DoBuy(user, 2, ts) && ops[1..] == TightRun(user, more - 1, ts);
      TightBuy(m, user, bought, 2, ts);
      TightBuys(Apply(m, ops[0]), user, bought + 1, more - 1, ts);
    }
  }

  /** The bound is reached: for every `n` there is a market whose `n` trades leave
      exactly `n - 1` sats behind an empty supply. */
  lemma DustBoundIsReached(spec: MarketSpec, user: string, n: nat, ts: U64)
    requires 2 <= n <= spec.params.denom < 0x8000_0000_0000_0000 && n <= spec.params.cap
    requires spec.params.k == 0 && spec.params.p0 == spec.params.denom + 1 && spec.params.migration == 0
    requires spec.feeBp == 0 && spec.seed == 0
    ensures Create(spec, ts).Ok?
    ensures var bought := Run(Create(spec, ts).value, TightRun(user, n - 1, ts));
            var after := Apply(bought, DoSell(user, n - 1, ts));
            after.supply == 0 && |after.trades| == n && after.reserve == n - 1
  {
    var m0 := Empty(spec, ts);
    TightBuys(m0, user, 0, n - 1, ts);
    TightSell(Run(m0, TightRun(user, n - 1, ts)), user, n - 1, ts);
  }

  lemma TightSell(m: MarketState, user: string, bought: nat, ts: U64)
    requires TightState(m, user, bought) && 0 < bought < m.params.denom < 0x8000_0000_0000_0000
    ensures var after := Apply(m, DoSell(user, bought, ts));
            after.supply == 0 && |after.trades| == bought + 1 && after.reserve == bought
  {
    var d := 2 * m.params.denom;
    RefundMeaning(m.params, bought, bought);
    FlatArea(m.params, bought);
    TightRefund(d, bought);
    SquareBound(d);
    assert RefundToSell(m.params, bought, bought) == Ok(bought);
    FeeWithin(m.feeBp, bought);
  }

  lemma TightRefund(d: nat, a: nat)
    requires d > 0 && 2 * a < d
    ensures 0 <= (d + 2) * a
    ensures (d + 2) * a / d == a
    ensures (d + 2) * a <= (d + 2) * d
  {
    MulAdd(d, 2, a);
    FloorAtLeast((d + 2) * a, d, a);
    FloorAtMost((d + 2) * a, d, a);
    MulNonNegative(d + 2, d - a);
    MulAdd(a, d - a, d + 2);
  }

  lemma SquareBound(d: nat)
    requires d <= 0xFFFF_FFFF_FFFF_FFFE
    ensures (d + 2) * d <= U128_MAX
  {
    MulNonNegative(d + 2, 0xFFFF_FFFF_FFFF_FFFE - d);
    MulAdd(d, 0xFFFF_FFFF_FFFF_FFFE - d, d + 2);
  }

  /** When the 64-bit reserve field is wide enough: while the area under the whole
      curve plus one sat per trade fits it, no buy can wrap it. */
  lemma ReserveStaysInRange(m: MarketState)
    requires Reachable(m)
    ensures m.reserve <= Area(m.params, m.params.cap) / (2 * m.params.denom) + |m.trades|
  {
    ReachableIsSound(m);
    AreaMonotone(m.params, m.supply, m.params.cap);
    ReserveRange(m.reserve, Area(m.params, m.supply), Area(m.params, m.params.cap), |m.trades|, 2 * m.params.denom);
  }

  lemma ReserveRange(reserve: nat, area: nat, whole: nat, n: nat, d: nat)
    requires d > 0 && area <= whole
    requires reserve * d - area < n * d || reserve == 0
    ensures whole / d >= 0 && reserve <= whole / d + n
  {
    FloorBracket(whole, d);
    MulAdd(whole / d, n, d);
    MulAdd(whole / d + n, 1, d);
    MulCancel(reserve, whole / d + n + 1, d);
  }

  // ---- Migration -----------------------------------------------------------------

  /** A market that has not migrated may not: no trade leaves it past its target. */
  lemma UnmigratedIsBelowTarget(m: MarketState)
    requires Reachable(m) && m.status != Migrated
    ensures !IsMigratable(m.params, m.supply) && ProgressBp(m.params, m.supply) < 10_000
  {
    ReachableIsSound(m);
    FullProgressIsMigratable(m.params, m.supply);
  }

  /** Migration is final, closes buys for good, and supply only falls after it. */
  lemma {:induction false} MigrationIsFinal(m: MarketState, ops: seq<Op>)
    requires m.status == Migrated
    ensures var after := Run(m, ops);
            after.status == Migrated && after.supply <= m.supply && |after.trades| >= |m.trades|
    ensures forall i :: |m.trades| <= i < |Run(m, ops).trades| ==> Run(m, ops).trades[i].side == Sell
    ensures m.trades <= Run(m, ops).trades
    decreases |ops|
  {
    if ops != [] {
      MigrationIsFinal(Apply(m, ops[0]), ops[1..]);
    }
  }

  /** A sell can migrate a market only when the area before it was too large to price:
      the source treats an overflowing reserve as "not migratable". */
  lemma SellMigratesOnlyOutOfOverflow(m: MarketState, user: string, amount: U64, ts: U64)
    requires Reachable(m) && m.status == Trading && SellStep(m, user, amount, ts).Ok?
    ensures SellStep(m, user, amount, ts).value.0.status == Migrated ==>
            ReserveAt(m.params, m.supply) == Err(Overflow)
  {
    ReachableIsSound(m);
    PreviewSellMeaning(m, user, amount);
    var after := SellStep(m, user, amount, ts).value.0;
    ReserveMeaning(m.params, m.supply);
    if after.status == Migrated && ReserveAt(m.params, m.supply).Ok? {
      MigratableUpward(m.params, after.supply, m.supply);
    }
  }

  /** On the flat curve of one sat per token with the largest denominator, the reserve of a
      supply is that supply, and beyond 2^63 tokens it cannot be priced. */
  lemma FlatReserve(c: ValidCurve, s: U64)
    requires c == CurveParams(U64_MAX, 0, U64_MAX, U64_MAX, c.migration)
    ensures ReserveAt(c, s) == if s <= 0x8000_0000_0000_0000 then Ok(s) else Err(Overflow)
  {
    var d := 2 * c.denom;
    ReserveMeaning(c, s);
    FlatArea(c, s);
    assert Area(c, s) == s * d;
    FloorAtLeast(s * d, d, s);
    FloorAtMost(s * d, d, s);
    if s <= 0x8000_0000_0000_0000 {
      MulNonNegative(0x8000_0000_0000_0000 - s, d);
      MulAdd(s, 0x8000_0000_0000_0000 - s, d);
    } else {
      MulNonNegative(s - 0x8000_0000_0000_0001, d);
      MulAdd(0x8000_0000_0000_0001, s - 0x8000_0000_0000_0001, d);
    }
  }

  /** A reachable market that a sell does migrate: two buys carry it past every supply that
      can be priced without its migrating, and the sell brings it back to its target. */
  lemma SellCanMigrate(spec: MarketSpec, user: string, half: U64, ts: U64)
    requires half == 0x8000_0000_0000_0000 && spec.params == CurveParams(U64_MAX, 0, U64_MAX, U64_MAX, half)
    requires spec.feeBp == 0 && spec.seed == 0
    ensures Create(spec, ts).Ok?
    ensures var m := Run(Create(spec, ts).value, [DoBuy(user, half - 1, ts), DoBuy(user, half, ts)]);
            && Reachable(m) && m.status == Trading && m.supply == U64_MAX
            && SellStep(m, user, half - 1, ts).Ok?
            && SellStep(m, user, half - 1, ts).value.0.status == Migrated
  {
    var m0, c := Empty(spec, ts), spec.params;
    var first, second := DoBuy(user, half - 1, ts), DoBuy(user, half, ts);
    FlatReserve(c, half - 1);
    FlatReserve(c, U64_MAX);
    FlatReserve(c, half);
    hide ReserveAt;
    FlatBuy(m0, user, half - 1, ts);
    FlatBuy(Apply(m0, first), user, half, ts);
    RunTwo(m0, first, second);
    var m := Run(m0, [first, second]);
    assert m0 == Create(spec, ts).value;
    assert Reachable(m);
    FlatSell(m, user, half, ts);
  }

  lemma FlatRefund(c: ValidCurve, all: U64, a: U64, d: nat)
    requires c == CurveParams(U64_MAX, 0, U64_MAX, U64_MAX, c.migration) && d == 2 * c.denom
    requires all == U64_MAX && 0 < a < 0x8000_0000_0000_0000
    ensures RefundToSell(c, all, a) == Ok(a)
  {
    FlatArea(c, all);
    FlatArea(c, all - a);
    assert Area(c, all) - Area(c, all - a) == a * d;
    RefundMeaning(c, all, a);
    hide Area, RefundToSell;
    FloorAtLeast(a * d, d, a);
    FloorAtMost(a * d, d, a);
  }

  /** A sell that leaves a priceable supply at its target migrates the market. */
  lemma FlatSell(m: MarketState, user: string, half: U64, ts: U64)
    requires half == 0x8000_0000_0000_0000 && m.params == CurveParams(U64_MAX, 0, U64_MAX, U64_MAX, half)
    requires m.feeBp == 0 && m.status == Trading && m.supply == m.reserve == U64_MAX == BalanceOf(m.balances, user)
    requires ReserveAt(m.params, half) == Ok(half)
    ensures SellStep(m, user, half - 1, ts).Ok?
    ensures SellStep(m, user, half - 1, ts).value.0.status == Migrated
  {
    FlatRefund(m.params, U64_MAX, half - 1, 2 * m.params.denom);
    hide RefundToSell, ReserveAt;
    SellFollowsRefund(m, user, half - 1, ts);
    PreviewSellMeaning(m, user, half - 1);
  }
}
