/** Replay safety, over every sequence of authenticated calls. */
module AuthLaws {
  import opened Numbers
  import opened Security
  import opened Auth

  // ---- Runs of authenticate --------------------------------------------------------

  function RunAuth(cfg: RateConfig, skew: U64, s: AuthState, calls: seq<Call>): AuthState
    decreases |calls|
  {
    if calls == [] then s
    else
      var n := |calls| - 1;
      AuthStep(cfg, skew, RunAuth(cfg, skew, s, calls[..n]), calls[n]).0
  }

  /** Whether call `i` of a run is let in. */
  predicate Accepted(cfg: RateConfig, skew: U64, s: AuthState, calls: seq<Call>, i: nat)
    requires i < |calls|
  {
    AuthStep(cfg, skew, RunAuth(cfg, skew, s, calls[..i]), calls[i]).1.Ok?
  }

  /** The unix clock does not step back and has not reached its last value. */
  predicate SteadyClock(calls: seq<Call>) {
    && (forall i, j :: 0 <= i < j < |calls| ==> calls[i].now <= calls[j].now)
    && (forall i :: 0 <= i < |calls| ==> calls[i].now < U64_MAX)
  }

  /** What authentication answers: the key of an acceptable event that has a token left and was
      not spent; too many calls, with nothing recorded as spent; a replay, with its token gone;
      and for anything else the verifier's own error and no change at all. */
  lemma AuthenticationMeaning(cfg: RateConfig, skew: U64, s: AuthState, c: Call)
    ensures var (after, r) := AuthStep(cfg, skew, s, c);
            && (forall e :: Acceptable(c, skew, e) ==>
                  var (buckets, allowed) := AllowStep(cfg, s.buckets, e.pubkey, c.instant);
                  var (replay, unspent) := CheckStep(s.replay, e.id, Expiry(e.createdAt, skew), c.now);
                  && after.buckets == buckets
                  && (!allowed ==> r == Err(RateLimited) && after.replay == s.replay)
                  && (allowed && !unspent ==> r == Err(Replayed))
                  && (allowed && unspent ==> r == Ok(e.pubkey))
                  && (allowed ==> after.replay == replay))
            && ((forall e :: !Acceptable(c, skew, e)) ==> r.Err? && after == s && r.error != RateLimited && r.error != Replayed)
  {
    forall e | Acceptable(c, skew, e)
      ensures Verify(c, skew) == Ok(e)
    {
      VerifiedExactlyWhen(c, skew, e);
    }
    if Verify(c, skew).Ok? {
      VerifiedExactlyWhen(c, skew, Verify(c, skew).value);
    } else {
      NeverGuardError(c, skew);
    }
    hide Acceptable, Verify, AllowStep, CheckStep;
  }

  lemma NeverGuardError(c: Call, skew: U64)
    requires Verify(c, skew).Err?
    ensures Verify(c, skew).error != RateLimited && Verify(c, skew).error != Replayed
  {
    hide LastTag, EqIgnoreCase;
  }

  /** An event id commits to the event's timestamp, which its hash covers. */
  predicate IdsBindTimestamps(calls: seq<Call>) {
    forall i, j :: 0 <= i < |calls| && 0 <= j < |calls| && calls[i].header.Signed? && calls[j].header.Signed? ==>
      calls[i].header.event.id == calls[j].header.event.id ==>
      calls[i].header.event.createdAt == calls[j].header.event.createdAt
  }

  /** The expiry lies strictly beyond every moment at which the event is still fresh. */
  lemma ExpiryOutlastsFreshness(createdAt: U64, skew: U64, now: U64)
    requires now < U64_MAX && Fresh(createdAt, now, skew)
    ensures Expiry(createdAt, skew) > now
    ensures Expiry(createdAt, skew) == if createdAt + skew < U64_MAX then createdAt + skew + 1 else U64_MAX
  {}

  /** What a later call still knows of an accepted one: its id with its full expiry, or
      that the expiry has passed. */
  predicate Remembered(spent: Spent, e: Event, skew: U64, now: U64) {
    (e.id in spent && spent[e.id] == Expiry(e.createdAt, skew)) || Expiry(e.createdAt, skew) <= now
  }

  lemma StepRemembers(cfg: RateConfig, skew: U64, s: AuthState, c: Call, e: Event, before: U64)
    requires before <= c.now && Remembered(s.replay, e, skew, before)
    requires c.header.Signed? && c.header.event.id == e.id ==> c.header.event.createdAt == e.createdAt
    ensures Remembered(AuthStep(cfg, skew, s, c).0.replay, e, skew, c.now)
  {
    hide AllowStep;
    assert Remembered(PruneSpent(s.replay, c.now), e, skew, c.now);
  }

  lemma AcceptedIsRemembered(cfg: RateConfig, skew: U64, s: AuthState, c: Call)
    requires AuthStep(cfg, skew, s, c).1.Ok?
    ensures c.header.Signed?
    ensures Remembered(AuthStep(cfg, skew, s, c).0.replay, c.header.event, skew, c.now)
  {
    hide AllowStep;
  }

  lemma RememberedIsRejected(cfg: RateConfig, skew: U64, s: AuthState, c: Call, e: Event, before: U64)
    requires before <= c.now < U64_MAX && Remembered(s.replay, e, skew, before)
    requires c.header.Signed? && c.header.event.id == e.id && c.header.event.createdAt == e.createdAt
    ensures AuthStep(cfg, skew, s, c).1.Err?
  {
    hide AllowStep;
    if Fresh(e.createdAt, c.now, skew) {
      ExpiryOutlastsFreshness(e.createdAt, skew, c.now);
      assert Remembered(PruneSpent(s.replay, c.now), e, skew, c.now);
    }
  }

  lemma {:induction false} StaysRemembered(
    cfg: RateConfig, skew: U64, s: AuthState, calls: seq<Call>, i: nat, k: nat)
    requires i < k <= |calls| && SteadyClock(calls) && IdsBindTimestamps(calls)
    requires Accepted(cfg, skew, s, calls, i)
    ensures calls[i].header.Signed?
    ensures Remembered(RunAuth(cfg, skew, s, calls[..k]).replay, calls[i].header.event, skew, calls[k - 1].now)
    decreases k
  {
    assert calls[..k][..k - 1] == calls[..k - 1];
    var before := RunAuth(cfg, skew, s, calls[..k - 1]);
    hide AuthStep, Remembered;
    if k == i + 1 {
      AcceptedIsRemembered(cfg, skew, before, calls[i]);
    } else {
      StaysRemembered(cfg, skew, s, calls, i, k - 1);
      StepRemembers(cfg, skew, before, calls[k - 1], calls[i].header.event, calls[k - 2].now);
    }
  }

  /** Replay safety: whatever the guards held at first and whatever else is sent, no
      event id is accepted twice, sweeps and rate limiting notwithstanding. */
  lemma EachEventIsAcceptedOnce(cfg: RateConfig, skew: U64, s: AuthState, calls: seq<Call>, i: nat, j: nat)
    requires i < j < |calls| && SteadyClock(calls) && IdsBindTimestamps(calls)
    requires Accepted(cfg, skew, s, calls, i) && Accepted(cfg, skew, s, calls, j)
    ensures calls[i].header.Signed? && calls[j].header.Signed?
    ensures calls[i].header.event.id != calls[j].header.event.id
  {
    StaysRemembered(cfg, skew, s, calls, i, j);
    AcceptedIsRemembered(cfg, skew, RunAuth(cfg, skew, s, calls[..j]), calls[j]);
    if calls[i].header.event.id == calls[j].header.event.id {
      RememberedIsRejected(cfg, skew, RunAuth(cfg, skew, s, calls[..j]), calls[j], calls[i].header.event, calls[j - 1].now);
    }
  }
}
