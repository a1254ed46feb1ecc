/** Exactly when an event id can be accepted a second time, on any clock, with the runs that
    show both ways it happens. */
module ReplayRuns {
  import opened Numbers
  import opened Security
  import opened Auth
  import opened AuthLaws

  /** Call `k` is verified and within its rate, so that it comes to the replay guard. */
  predicate ReachesGuard(cfg: RateConfig, skew: U64, s: AuthState, calls: seq<Call>, k: nat)
    requires k < |calls|
  {
    var c, before := calls[k], RunAuth(cfg, skew, s, calls[..k]);
    Verify(c, skew).Ok? && AllowStep(cfg, before.buckets, Verify(c, skew).value.pubkey, c.instant).1
  }

  /** Call `k` sweeps the replay map at a time past `expiry`. */
  predicate SweepsOut(cfg: RateConfig, skew: U64, s: AuthState, calls: seq<Call>, k: nat, expiry: U64)
    requires k < |calls|
  {
    && ReachesGuard(cfg, skew, s, calls, k)
    && |RunAuth(cfg, skew, s, calls[..k]).replay| > REPLAY_PRUNE_THRESHOLD
    && expiry <= calls[k].now
  }

  predicate IsFor(c: Call, e: Event) {
    c.header.Signed? && c.header.event.id == e.id
  }

  ghost predicate SweptBetween(cfg: RateConfig, skew: U64, s: AuthState, calls: seq<Call>, i: nat, m: nat, expiry: U64)
    requires m <= |calls|
  {
    exists k :: i < k < m && SweepsOut(cfg, skew, s, calls, k, expiry)
  }

  lemma SweptBetweenStep(cfg: RateConfig, skew: U64, s: AuthState, calls: seq<Call>, i: nat, m: nat, expiry: U64)
    requires i < m < |calls|
    ensures SweptBetween(cfg, skew, s, calls, i, m + 1, expiry) <==>
            SweptBetween(cfg, skew, s, calls, i, m, expiry) || SweepsOut(cfg, skew, s, calls, m, expiry)
  {
    hide SweepsOut;
  }

  /** Before call `m` the guard still holds what it stored for `e` at call `i`, unless a call
      in between swept it out. */
  ghost predicate HeldUnlessSwept(cfg: RateConfig, skew: U64, s: AuthState, calls: seq<Call>, e: Event, i: nat, m: nat)
    requires i < m <= |calls|
  {
    var spent, expiry := RunAuth(cfg, skew, s, calls[..m]).replay, Expiry(e.createdAt, skew);
    if SweptBetween(cfg, skew, s, calls, i, m, expiry) then e.id !in spent
    else e.id in spent && spent[e.id] == expiry
  }

  lemma RunStep(cfg: RateConfig, skew: U64, s: AuthState, calls: seq<Call>, m: nat)
    requires m < |calls|
    ensures RunAuth(cfg, skew, s, calls[..m + 1]) == AuthStep(cfg, skew, RunAuth(cfg, skew, s, calls[..m]), calls[m]).0
  {
    assert calls[..m + 1][..m] == calls[..m];
    hide AuthStep;
  }

  /** One call keeps an entry it does not sweep, and brings back none it does not accept. */
  lemma StepHolds(cfg: RateConfig, skew: U64, s: AuthState, calls: seq<Call>, e: Event, m: nat)
    requires m < |calls|
    requires Accepted(cfg, skew, s, calls, m) ==> !IsFor(calls[m], e)
    ensures var spent, after := RunAuth(cfg, skew, s, calls[..m]).replay, RunAuth(cfg, skew, s, calls[..m + 1]).replay;
            var expiry := Expiry(e.createdAt, skew);
            && (e.id !in spent ==> e.id !in after)
            && (e.id in spent && spent[e.id] == expiry ==>
                  if SweepsOut(cfg, skew, s, calls, m, expiry) then e.id !in after
                  else e.id in after && after[e.id] == expiry)
  {
    RunStep(cfg, skew, s, calls, m);
    hide RunAuth, AllowStep;
  }

  lemma AcceptedIsStored(cfg: RateConfig, skew: U64, s: AuthState, calls: seq<Call>, i: nat)
    requires i < |calls| && Accepted(cfg, skew, s, calls, i)
    ensures calls[i].header.Signed?
    ensures var e, spent := calls[i].header.event, RunAuth(cfg, skew, s, calls[..i + 1]).replay;
            e.id in spent && spent[e.id] == Expiry(e.createdAt, skew)
  {
    RunStep(cfg, skew, s, calls, i);
    hide RunAuth, AllowStep;
  }

  lemma HeldAtFirst(cfg: RateConfig, skew: U64, s: AuthState, calls: seq<Call>, i: nat)
    requires i < |calls| && Accepted(cfg, skew, s, calls, i) && calls[i].header.Signed?
    ensures HeldUnlessSwept(cfg, skew, s, calls, calls[i].header.event, i, i + 1)
  {
    hide RunAuth, Accepted, SweepsOut;
    AcceptedIsStored(cfg, skew, s, calls, i);
  }

  lemma HeldOneMore(cfg: RateConfig, skew: U64, s: AuthState, calls: seq<Call>, e: Event, i: nat, m: nat)
    requires i < m < |calls| && HeldUnlessSwept(cfg, skew, s, calls, e, i, m)
    requires Accepted(cfg, skew, s, calls, m) ==> !IsFor(calls[m], e)
    ensures HeldUnlessSwept(cfg, skew, s, calls, e, i, m + 1)
  {
    hide RunAuth, Accepted, SweepsOut, SweptBetween, Expiry;
    StepHolds(cfg, skew, s, calls, e, m);
    SweptBetweenStep(cfg, skew, s, calls, i, m, Expiry(e.createdAt, skew));
  }

  /** The event is not accepted again between the two calls. */
  ghost predicate NotAgain(cfg: RateConfig, skew: U64, s: AuthState, calls: seq<Call>, e: Event, i: nat, m: nat)
    requires m <= |calls|
  {
    forall k :: i < k < m && Accepted(cfg, skew, s, calls, k) ==> !IsFor(calls[k], e)
  }

  lemma {:induction false} StaysHeld(cfg: RateConfig, skew: U64, s: AuthState, calls: seq<Call>, e: Event, i: nat, m: nat)
    requires i < m <= |calls| && Accepted(cfg, skew, s, calls, i)
    requires calls[i].header.Signed? && calls[i].header.event == e && NotAgain(cfg, skew, s, calls, e, i, m)
    ensures HeldUnlessSwept(cfg, skew, s, calls, e, i, m)
    decreases m
  {
    hide Accepted, HeldUnlessSwept, IsFor;
    if m == i + 1 {
      HeldAtFirst(cfg, skew, s, calls, i);
    } else {
      StaysHeld(cfg, skew, s, calls, e, i, m - 1);
      HeldOneMore(cfg, skew, s, calls, e, i, m - 1);
    }
  }

  /** Whether the guard accepts, given what it holds. */
  lemma GuardAccepts(cfg: RateConfig, skew: U64, s: AuthState, calls: seq<Call>, e: Event, j: nat)
    requires j < |calls| && IsFor(calls[j], e) && calls[j].header.event.createdAt == e.createdAt
    ensures var spent, expiry := RunAuth(cfg, skew, s, calls[..j]).replay, Expiry(e.createdAt, skew);
            && (e.id !in spent ==> (Accepted(cfg, skew, s, calls, j) <==> ReachesGuard(cfg, skew, s, calls, j)))
            && (e.id in spent && spent[e.id] == expiry ==>
                  (Accepted(cfg, skew, s, calls, j) <==> ReachesGuard(cfg, skew, s, calls, j) && expiry <= calls[j].now))
  {
    hide RunAuth, AllowStep;
  }

  lemma ReachedIsFresh(cfg: RateConfig, skew: U64, s: AuthState, calls: seq<Call>, j: nat)
    requires j < |calls| && ReachesGuard(cfg, skew, s, calls, j)
    ensures calls[j].header.Signed? && Fresh(calls[j].header.event.createdAt, calls[j].now, skew)
  {
    hide RunAuth, AllowStep;
  }

  /** On any clock: an event accepted at call `i`, and not again since, is accepted at call `j`
      exactly when it is verified and within the rate there and either the clock stands at
      its last second, or a call in between swept the entry out, which only a clock that has
      stepped back since then can do. */
  lemma AcceptedAgainExactlyWhen(cfg: RateConfig, skew: U64, s: AuthState, calls: seq<Call>, e: Event, i: nat, j: nat)
    requires i < j < |calls| && IdsBindTimestamps(calls) && Accepted(cfg, skew, s, calls, i)
    requires calls[i].header.Signed? && calls[i].header.event == e && IsFor(calls[j], e)
    requires NotAgain(cfg, skew, s, calls, e, i, j)
    ensures var expiry := Expiry(e.createdAt, skew);
            Accepted(cfg, skew, s, calls, j) <==>
              ReachesGuard(cfg, skew, s, calls, j)
              && (calls[j].now == U64_MAX || SweptBetween(cfg, skew, s, calls, i, j, expiry))
  {
    StaysHeld(cfg, skew, s, calls, e, i, j);
    assert calls[j].header.event.createdAt == e.createdAt;
    hide RunAuth, AllowStep, Accepted, ReachesGuard, SweptBetween, IdsBindTimestamps, NotAgain;
    GuardAccepts(cfg, skew, s, calls, e, j);
    if ReachesGuard(cfg, skew, s, calls, j) {
      ReachedIsFresh(cfg, skew, s, calls, j);
      if calls[j].now < U64_MAX {
        ExpiryOutlastsFreshness(e.createdAt, skew, calls[j].now);
      }
    }
  }

  /** A call at which the event is still fresh and an earlier one that swept it out show the
      clock stepping back. */
  lemma SweptThenFresh(cfg: RateConfig, skew: U64, s: AuthState, calls: seq<Call>, e: Event, k: nat, j: nat)
    requires k < j < |calls| && SweepsOut(cfg, skew, s, calls, k, Expiry(e.createdAt, skew))
    requires calls[j].now < U64_MAX && Fresh(e.createdAt, calls[j].now, skew)
    ensures calls[j].now < calls[k].now
  {
    ExpiryOutlastsFreshness(e.createdAt, skew, calls[j].now);
    hide RunAuth, AllowStep;
  }

  // ---- Runs that reopen a replay ----------------------------------------------------------

  /** A limiter that is switched off. */
  const NO_LIMIT: RateConfig := RateConfig(0.0, 0.0, 0.0)

  const NOTHING_SPENT: AuthState := AuthState(map[], map[])

  /** A well-formed call signed at `createdAt` and made at `now`. */
  function SignedCall(id: string, createdAt: U64, now: U64): Call {
    Call(Signed(Event(id, "", NIP98_KIND, createdAt, [["u", ""], ["method", ""]]), true), "", _ => true, "", now, 0.0)
  }

  lemma SignedIsVerified(id: string, createdAt: U64, now: U64, skew: U64)
    requires Fresh(createdAt, now, skew)
    ensures Verify(SignedCall(id, createdAt, now), skew) == Ok(SignedCall(id, createdAt, now).header.event)
  {
    var tags := [["u", ""], ["method", ""]];
    assert tags[..1] == [["u", ""]];
    assert LastTag(tags, "method") == Some("");
    assert LastTag([["u", ""]], "u") == Some("");
    assert LastTag(tags, "u") == Some("");
    assert LastTag([["u", ""]], "payload") == LastTag([], "payload");
  }

  /** With no limit set a fresh call does what the guard does. */
  lemma SignedStep(skew: U64, s: AuthState, id: string, createdAt: U64, now: U64)
    requires Fresh(createdAt, now, skew)
    ensures var (replay, unspent) := CheckStep(s.replay, id, Expiry(createdAt, skew), now);
            AuthStep(NO_LIMIT, skew, s, SignedCall(id, createdAt, now))
            == (AuthState(replay, s.buckets), if unspent then Ok("") else Err(Replayed))
  {
    SignedIsVerified(id, createdAt, now, skew);
    hide Verify, CheckStep;
  }

  /** The first id, and ids told apart by length. */
  function Id(n: nat): string {
    seq(n, _ => 'x')
  }

  function FirstCalls(t: U64, n: nat): seq<Call> {
    seq(n, i requires 0 <= i => SignedCall(Id(i), t, t))
  }

  lemma {:induction false} FirstCallsFill(skew: U64, t: U64, n: nat)
    requires n <= REPLAY_PRUNE_THRESHOLD + 1 && t + skew < U64_MAX
    ensures var spent := RunAuth(NO_LIMIT, skew, NOTHING_SPENT, FirstCalls(t, n)).replay;
            && |spent| == n
            && (forall id :: id in spent ==> |id| < n && spent[id] == t + skew + 1)
            && (n > 0 ==> Id(0) in spent)
    decreases n
  {
    var calls := FirstCalls(t, n);
    if n > 0 {
      var m := n - 1;
      assert calls[..m] == FirstCalls(t, m);
      FirstCallsFill(skew, t, m);
      var before := RunAuth(NO_LIMIT, skew, NOTHING_SPENT, calls[..m]);
      assert calls[m] == SignedCall(Id(m), t, t);
      SignedStep(skew, before, Id(m), t, t);
      FillsOneMore(before.replay, t, t + skew + 1, m);
      hide AuthStep, CheckStep, FirstCalls, Id;
    }
  }

  lemma FillsOneMore(spent: Spent, t: U64, expiry: U64, m: nat)
    requires |spent| == m <= REPLAY_PRUNE_THRESHOLD && (forall id :: id in spent ==> |id| < m && spent[id] == expiry)
    requires m > 0 ==> Id(0) in spent
    ensures var after := CheckStep(spent, Id(m), expiry, t).0;
            && |after| == m + 1 && Id(0) in after
            && (forall id :: id in after ==> |id| < m + 1 && after[id] == expiry)
  {
    assert |Id(m)| == m && Id(m) !in spent;
    assert CheckStep(spent, Id(m), expiry, t).0 == spent[Id(m) := expiry];
  }

  predicate SameEvent(c: Call, d: Call) {
    c.header.Signed? && d.header == c.header
  }

  /** Enough first calls, one past their expiry, and the first again at its old time. */
  function SteppingBack(t: U64, late: U64): seq<Call> {
    FirstCalls(t, REPLAY_PRUNE_THRESHOLD + 1)
    + [SignedCall(Id(REPLAY_PRUNE_THRESHOLD + 1), late, late), SignedCall(Id(0), t, t)]
  }

  lemma SteppingBackParts(t: U64, late: U64)
    ensures var n, calls := REPLAY_PRUNE_THRESHOLD + 1, SteppingBack(t, late);
            && |calls| == n + 2
            && calls[..n] == FirstCalls(t, n) && calls[..n + 1][..n] == calls[..n]
            && calls[0] == SignedCall(Id(0), t, t) && calls[n] == SignedCall(Id(n), late, late) && calls[n + 1] == calls[0]
  {}

  lemma FirstIsAccepted(skew: U64, t: U64, calls: seq<Call>)
    requires calls != [] && calls[0] == SignedCall(Id(0), t, t)
    ensures Accepted(NO_LIMIT, skew, NOTHING_SPENT, calls, 0)
  {
    SignedStep(skew, NOTHING_SPENT, Id(0), t, t);
    assert calls[..0] == [];
    hide AuthStep;
  }

  lemma GuardIsEmptied(spent: Spent, id: string, expiry: U64, late: U64)
    requires |spent| > REPLAY_PRUNE_THRESHOLD && forall known :: known in spent ==> spent[known] == late
    ensures CheckStep(spent, id, expiry, late) == (map[id := expiry], true)
  {
    assert PruneSpent(spent, late) == map[];
  }

  /** With the guard so filled, one call past the expiry empties it. */
  lemma SweptByLateCall(skew: U64, t: U64, late: U64, n: nat, calls: seq<Call>)
    requires t + skew + 1 == late && n == REPLAY_PRUNE_THRESHOLD + 1 && n < |calls|
    requires calls[..n] == FirstCalls(t, n) && calls[n] == SignedCall(Id(n), late, late)
    ensures RunAuth(NO_LIMIT, skew, NOTHING_SPENT, calls[..n + 1]).replay == map[Id(n) := Expiry(late, skew)]
  {
    FirstCallsFill(skew, t, n);
    var full := RunAuth(NO_LIMIT, skew, NOTHING_SPENT, calls[..n]);
    hide AuthStep, RunAuth, CheckStep, FirstCalls, Expiry, Id, SignedCall;
    SignedStep(skew, full, Id(n), late, late);
    RunStep(NO_LIMIT, skew, NOTHING_SPENT, calls, n);
    GuardIsEmptied(full.replay, Id(n), Expiry(late, skew), late);
  }

  lemma AcceptedIfUnknown(skew: U64, t: U64, s: AuthState, calls: seq<Call>, j: nat)
    requires j < |calls| && calls[j] == SignedCall(Id(0), t, t)
    requires Id(0) !in RunAuth(NO_LIMIT, skew, s, calls[..j]).replay
    ensures Accepted(NO_LIMIT, skew, s, calls, j)
  {
    SignedStep(skew, RunAuth(NO_LIMIT, skew, s, calls[..j]), Id(0), t, t);
    hide AuthStep, RunAuth;
  }

  /** So the first event is accepted again. */
  lemma AcceptedWhenSweptOut(skew: U64, t: U64, n: nat, calls: seq<Call>)
    requires t + skew < U64_MAX && n == REPLAY_PRUNE_THRESHOLD + 1 && calls == SteppingBack(t, t + skew + 1)
    ensures |calls| == n + 2 && Accepted(NO_LIMIT, skew, NOTHING_SPENT, calls, n + 1)
  {
    SteppingBackParts(t, t + skew + 1);
    IdsDiffer(n);
    hide RunAuth, SteppingBack, FirstCalls, Accepted, SignedCall, Id;
    SweptByLateCall(skew, t, t + skew + 1, n, calls);
    AcceptedIfUnknown(skew, t, NOTHING_SPENT, calls, n + 1);
  }

  lemma IdsDiffer(n: nat)
    requires n > 0
    ensures Id(0) != Id(n)
  {
    assert |Id(n)| == n;
  }

  /** The steady clock is needed: on every unix time and skew there is a run of fresh, distinct
      events from empty guards in which a clock that steps back once, by one expiry, has the
      same event accepted twice. */
  lemma ClockStepBackReopensReplay(skew: U64, t: U64)
    requires t + skew < U64_MAX
    ensures var calls := SteppingBack(t, t + skew + 1);
            var last := |calls| - 1;
            && IdsBindTimestamps(calls)
            && (forall i, j :: 0 <= i < j < last ==> calls[i].now <= calls[j].now)
            && SameEvent(calls[0], calls[last]) && calls[last].now == calls[0].now
            && Accepted(NO_LIMIT, skew, NOTHING_SPENT, calls, 0)
            && Accepted(NO_LIMIT, skew, NOTHING_SPENT, calls, last)
  {
    var calls := SteppingBack(t, t + skew + 1);
    SteppingBackParts(t, t + skew + 1);
    FirstIsAccepted(skew, t, calls);
    AcceptedWhenSweptOut(skew, t, REPLAY_PRUNE_THRESHOLD + 1, calls);
    hide Accepted;
    forall i, j | 0 <= i < |calls| && 0 <= j < |calls|
      ensures calls[i].header.event.id == calls[j].header.event.id ==>
                calls[i].header.event.createdAt == calls[j].header.event.createdAt
    {
      IdLength(t, t + skew + 1, i);
      IdLength(t, t + skew + 1, j);
    }
  }

  lemma IdLength(t: U64, late: U64, i: nat)
    requires i < |SteppingBack(t, late)|
    ensures var n, c := REPLAY_PRUNE_THRESHOLD + 1, SteppingBack(t, late)[i];
            && c.header.Signed? && |c.header.event.id| == (if i <= n then i else 0)
            && c.header.event.createdAt == (if i == n then late else t) && c.now == c.header.event.createdAt
  {}

  /** And the last second of the clock is unsafe: nothing expires after it, so an event signed
      then is accepted as often as it is sent. */
  lemma LastSecondReopensReplay(skew: U64)
    ensures var c := SignedCall(Id(0), U64_MAX, U64_MAX);
            Accepted(NO_LIMIT, skew, NOTHING_SPENT, [c, c], 0) && Accepted(NO_LIMIT, skew, NOTHING_SPENT, [c, c], 1)
  {
    var c := SignedCall(Id(0), U64_MAX, U64_MAX);
    FirstIsAccepted(skew, U64_MAX, [c, c]);
    SignedStep(skew, RunAuth(NO_LIMIT, skew, NOTHING_SPENT, [c, c][..1]), Id(0), U64_MAX, U64_MAX);
    hide AuthStep, RunAuth;
  }
}
