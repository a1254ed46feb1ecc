/** The rate limiter: what its sweeps can change, and how often one caller is let in. */
module LimiterLaws {
  import opened Numbers
  import opened Security

  // ---- The limiter and its specification --------------------------------------------

  /** One rate-limited call. */
  datatype Tick = Tick(key: string, now: real)

  function RunPruned(cfg: RateConfig, ticks: seq<Tick>): Buckets
    decreases |ticks|
  {
    if ticks == [] then map[]
    else
      var n := |ticks| - 1;
      AllowStep(cfg, RunPruned(cfg, ticks[..n]), ticks[n].key, ticks[n].now).0
  }

  /** The specification: the same limiter that never drops a bucket. */
  function RunUnpruned(cfg: RateConfig, ticks: seq<Tick>): Buckets
    decreases |ticks|
  {
    if ticks == [] then map[]
    else
      var n := |ticks| - 1;
      Take(cfg, RunUnpruned(cfg, ticks[..n]), ticks[n].key, ticks[n].now).0
  }

  predicate AnswerPruned(cfg: RateConfig, ticks: seq<Tick>, i: nat)
    requires i < |ticks|
  {
    AllowStep(cfg, RunPruned(cfg, ticks[..i]), ticks[i].key, ticks[i].now).1
  }

  predicate AnswerUnpruned(cfg: RateConfig, ticks: seq<Tick>, i: nat)
    requires i < |ticks|
  {
    Take(cfg, RunUnpruned(cfg, ticks[..i]), ticks[i].key, ticks[i].now).1
  }

  predicate Ordered(ticks: seq<Tick>) {
    forall i, j :: 0 <= i < j < |ticks| ==> ticks[i].now <= ticks[j].now
  }

  /** Every call comes at least one idle period after the clock's first instant. */
  predicate OldEnough(cfg: RateConfig, ticks: seq<Tick>) {
    forall i :: 0 <= i < |ticks| ==> ticks[i].now - BUCKET_TTL >= cfg.earliest
  }

  predicate Sane(cfg: RateConfig, b: Bucket, now: real) {
    0.0 <= b.tokens <= cfg.burst && b.last <= now
  }

  lemma MulReal(a: real, b: real, c: real)
    requires a >= b && c >= 0.0
    ensures a * c >= b * c
  {
    assert (a - b) * c >= 0.0;
  }

  lemma IdleGain(elapsed: real, refill: real, burst: real)
    requires refill >= 0.0 && elapsed >= BUCKET_TTL && burst <= BUCKET_TTL * refill
    ensures elapsed * refill >= burst
  {
    MulReal(elapsed, BUCKET_TTL, refill);
  }

  lemma IdleRefills(cfg: RateConfig, b: Bucket, now: real)
    requires Limited(cfg) && cfg.burst <= BUCKET_TTL * cfg.refill
    requires Sane(cfg, b, now) && now - b.last >= BUCKET_TTL
    ensures Refilled(cfg, b, now) == cfg.burst
  {
    IdleGain(now - b.last, cfg.refill, cfg.burst);
    assert b.tokens + (now - b.last) * cfg.refill >= cfg.burst;
  }

  /** The pruned map agrees with the unpruned one wherever it still has a bucket, and
      every bucket it dropped would be full by now. */
  ghost predicate Simulates(cfg: RateConfig, pruned: Buckets, full: Buckets, now: real) {
    && (forall k :: k in pruned ==> k in full && pruned[k] == full[k])
    && (forall k :: k in full ==> Sane(cfg, full[k], now))
    && (forall k :: k in full && k !in pruned ==> Refilled(cfg, full[k], now) == cfg.burst)
  }

  /** A full bucket stays full. */
  lemma FullStaysFull(cfg: RateConfig, b: Bucket, t: real, now: real)
    requires Limited(cfg) && b.last <= t <= now && Refilled(cfg, b, t) == cfg.burst
    ensures Refilled(cfg, b, now) == cfg.burst
  {
    MulReal(now - b.last, t - b.last, cfg.refill);
  }

  lemma TimePasses(cfg: RateConfig, pruned: Buckets, full: Buckets, t: real, now: real)
    requires Limited(cfg) && t <= now && Simulates(cfg, pruned, full, t)
    ensures Simulates(cfg, pruned, full, now)
  {
    forall k | k in full && k !in pruned
      ensures Refilled(cfg, full[k], now) == cfg.burst
    {
      FullStaysFull(cfg, full[k], t, now);
    }
  }

  lemma RefilledIsSane(cfg: RateConfig, b: Bucket, now: real)
    requires Limited(cfg) && Sane(cfg, b, now)
    ensures 0.0 <= b.tokens <= Refilled(cfg, b, now) <= cfg.burst
  {
    MulReal(now - b.last, 0.0, cfg.refill);
  }

  /** One call on simulating maps answers alike and keeps them simulating. */
  lemma TakeSimulates(cfg: RateConfig, pruned: Buckets, full: Buckets, key: string, now: real)
    requires Limited(cfg) && Simulates(cfg, pruned, full, now)
    ensures Take(cfg, pruned, key, now).1 == Take(cfg, full, key, now).1
    ensures Simulates(cfg, Take(cfg, pruned, key, now).0, Take(cfg, full, key, now).0, now)
  {
    if key in full {
      RefilledIsSane(cfg, full[key], now);
    }
    assert Refilled(cfg, Found(cfg, pruned, key, now), now) == Refilled(cfg, Found(cfg, full, key, now), now);
  }

  // ---- Harmless sweeps ----------------------------------------------------------------

  predicate SweptFull(cfg: RateConfig, b: Bucket, now: real) {
    b.last < Cutoff(cfg, now) ==> Refilled(cfg, b, now) == cfg.burst
  }

  /** A sweep at `now` drops full buckets only. */
  ghost predicate Harmless(cfg: RateConfig, buckets: Buckets, now: real) {
    |buckets| > BUCKET_PRUNE_THRESHOLD ==> forall k :: k in buckets ==> SweptFull(cfg, buckets[k], now)
  }

  ghost predicate HarmlessSweeps(cfg: RateConfig, ticks: seq<Tick>) {
    forall i :: 0 <= i < |ticks| ==> Harmless(cfg, RunPruned(cfg, ticks[..i]), ticks[i].now)
  }

  lemma HarmlessPrefix(cfg: RateConfig, ticks: seq<Tick>, n: nat)
    requires n <= |ticks| && HarmlessSweeps(cfg, ticks)
    ensures HarmlessSweeps(cfg, ticks[..n])
  {
    forall i | 0 <= i < n
      ensures Harmless(cfg, RunPruned(cfg, ticks[..n][..i]), ticks[..n][i].now)
    {
      assert ticks[..n][..i] == ticks[..i];
    }
  }

  lemma PruningSimulates(cfg: RateConfig, pruned: Buckets, full: Buckets, now: real)
    requires Limited(cfg) && Harmless(cfg, pruned, now) && Simulates(cfg, pruned, full, now)
    ensures Simulates(cfg, PruneBuckets(cfg, pruned, now), full, now)
  {
    var kept := PruneBuckets(cfg, pruned, now);
    forall k | k in full && k !in kept
      ensures Refilled(cfg, full[k], now) == cfg.burst
    {
      if k in pruned {
        assert SweptFull(cfg, pruned[k], now);
      }
    }
  }

  lemma {:induction false} PrunedSimulates(cfg: RateConfig, ticks: seq<Tick>, now: real)
    requires Limited(cfg) && Ordered(ticks) && HarmlessSweeps(cfg, ticks)
    requires ticks != [] ==> ticks[|ticks| - 1].now <= now
    ensures Simulates(cfg, RunPruned(cfg, ticks), RunUnpruned(cfg, ticks), now)
    ensures ticks != [] ==> AnswerPruned(cfg, ticks, |ticks| - 1) == AnswerUnpruned(cfg, ticks, |ticks| - 1)
    decreases |ticks|
  {
    if ticks != [] {
      var n := |ticks| - 1;
      var t := ticks[n];
      HarmlessPrefix(cfg, ticks, n);
      PrunedSimulates(cfg, ticks[..n], t.now);
      var pruned, full := RunPruned(cfg, ticks[..n]), RunUnpruned(cfg, ticks[..n]);
      PruningSimulates(cfg, pruned, full, t.now);
      TakeSimulates(cfg, PruneBuckets(cfg, pruned, t.now), full, t.key, t.now);
      TimePasses(cfg, RunPruned(cfg, ticks), RunUnpruned(cfg, ticks), t.now, now);
    }
  }

  /** As long as sweeps drop full buckets only, pruning never changes an answer. */
  lemma PruningNeverChangesAnAnswer(cfg: RateConfig, ticks: seq<Tick>, i: nat)
    requires Limited(cfg) && Ordered(ticks) && HarmlessSweeps(cfg, ticks) && i < |ticks|
    ensures AnswerPruned(cfg, ticks, i) == AnswerUnpruned(cfg, ticks, i)
  {
    assert ticks[..i + 1][..i] == ticks[..i];
    HarmlessPrefix(cfg, ticks, i + 1);
    PrunedSimulates(cfg, ticks[..i + 1], ticks[i].now);
  }

  lemma {:induction false} PrunedSane(cfg: RateConfig, ticks: seq<Tick>, now: real, k: string)
    requires Limited(cfg) && Ordered(ticks) && (ticks != [] ==> ticks[|ticks| - 1].now <= now)
    ensures k in RunPruned(cfg, ticks) ==> Sane(cfg, RunPruned(cfg, ticks)[k], now)
    decreases |ticks|
  {
    if ticks != [] {
      var n := |ticks| - 1;
      var t := ticks[n];
      PrunedSane(cfg, ticks[..n], t.now, k);
      PrunedSane(cfg, ticks[..n], t.now, t.key);
      var kept := PruneBuckets(cfg, RunPruned(cfg, ticks[..n]), t.now);
      RefilledIsSane(cfg, Found(cfg, kept, t.key, t.now), t.now);
    }
  }

  /** On a clock at least one idle period old, sweeps are harmless where an idle period
      refills any bucket. */
  lemma OldClockSweepsHarmlessly(cfg: RateConfig, ticks: seq<Tick>)
    requires Limited(cfg) && cfg.burst <= BUCKET_TTL * cfg.refill && Ordered(ticks) && OldEnough(cfg, ticks)
    ensures HarmlessSweeps(cfg, ticks)
  {
    forall i | 0 <= i < |ticks|
      ensures Harmless(cfg, RunPruned(cfg, ticks[..i]), ticks[i].now)
    {
      var buckets, now := RunPruned(cfg, ticks[..i]), ticks[i].now;
      forall k | k in buckets
        ensures SweptFull(cfg, buckets[k], now)
      {
        PrunedSane(cfg, ticks[..i], now, k);
        if buckets[k].last < Cutoff(cfg, now) {
          IdleRefills(cfg, buckets[k], now);
        }
      }
    }
  }

  function KeysOf(ticks: seq<Tick>): set<string> {
    set i | 0 <= i < |ticks| :: ticks[i].key
  }

  lemma {:induction false} BucketsHaveCallers(cfg: RateConfig, ticks: seq<Tick>)
    requires Limited(cfg)
    ensures RunPruned(cfg, ticks).Keys <= KeysOf(ticks)
    decreases |ticks|
  {
    if ticks != [] {
      var n := |ticks| - 1;
      BucketsHaveCallers(cfg, ticks[..n]);
      assert KeysOf(ticks[..n]) <= KeysOf(ticks) by {
        forall k | k in KeysOf(ticks[..n])
          ensures k in KeysOf(ticks)
        {
          var i :| 0 <= i < n && ticks[..n][i].key == k;
          assert ticks[i].key == k;
        }
      }
      assert ticks[n].key in KeysOf(ticks);
    }
  }

  lemma {:induction false} SubsetIsSmaller<T>(a: set<T>, b: set<T>)
    requires a <= b
    ensures |a| <= |b|
    decreases |a|
  {
    if a != {} {
      var x :| x in a;
      SubsetIsSmaller(a - {x}, b - {x});
    }
  }

  /** On any clock, nothing is swept while no more callers than the threshold have been seen. */
  lemma FewCallersSweepNothing(cfg: RateConfig, ticks: seq<Tick>)
    requires Limited(cfg) && |KeysOf(ticks)| <= BUCKET_PRUNE_THRESHOLD
    ensures HarmlessSweeps(cfg, ticks)
  {
    forall i | 0 <= i < |ticks|
      ensures Harmless(cfg, RunPruned(cfg, ticks[..i]), ticks[i].now)
    {
      var buckets := RunPruned(cfg, ticks[..i]);
      BucketsHaveCallers(cfg, ticks[..i]);
      assert KeysOf(ticks[..i]) <= KeysOf(ticks) by {
        forall k | k in KeysOf(ticks[..i])
          ensures k in KeysOf(ticks)
        {
          var j :| 0 <= j < i && ticks[..i][j].key == k;
          assert ticks[j].key == k;
        }
      }
      SubsetIsSmaller(buckets.Keys, KeysOf(ticks));
      assert |buckets| == |buckets.Keys|;
    }
  }

  // ---- The rate bound ------------------------------------------------------------

  /** How many of the calls `lo..hi` were let in for `key`. */
  function AcceptedIn(cfg: RateConfig, ticks: seq<Tick>, key: string, lo: nat, hi: nat): nat
    requires lo <= hi <= |ticks|
    decreases hi
  {
    if lo == hi then 0
    else AcceptedIn(cfg, ticks, key, lo, hi - 1)
         + (if ticks[hi - 1].key == key && AnswerPruned(cfg, ticks, hi - 1) then 1 else 0)
  }

  /** Tokens `key` could spend at `now`. */
  function Credit(cfg: RateConfig, buckets: Buckets, key: string, now: real): real {
    Refilled(cfg, Found(cfg, buckets, key, now), now)
  }

  lemma RealDistribute(a: real, b: real, c: real)
    ensures (a + b) * c == a * c + b * c
  {}

  lemma RefillGrows(cfg: RateConfig, b: Bucket, t: real, now: real)
    requires Limited(cfg) && t <= now && Sane(cfg, b, t)
    ensures Refilled(cfg, b, now) <= Refilled(cfg, b, t) + (now - t) * cfg.refill
  {
    RealDistribute(t - b.last, now - t, cfg.refill);
    MulReal(now - t, 0.0, cfg.refill);
  }

  /** Time adds credit at the refill rate at most. */
  lemma CreditGrows(cfg: RateConfig, buckets: Buckets, key: string, t: real, now: real)
    requires Limited(cfg) && t <= now && (key in buckets ==> Sane(cfg, buckets[key], t))
    ensures Credit(cfg, buckets, key, now) <= Credit(cfg, buckets, key, t) + (now - t) * cfg.refill
  {
    if key in buckets {
      RefillGrows(cfg, buckets[key], t, now);
    } else {
      MulReal(now - t, 0.0, cfg.refill);
    }
  }

  /** A call spends one token of its own key if it is let in, and none of any other. */
  lemma TakeSpends(cfg: RateConfig, buckets: Buckets, caller: string, key: string, now: real)
    requires Limited(cfg) && (key in buckets ==> Sane(cfg, buckets[key], now))
    ensures var (after, allowed) := Take(cfg, buckets, caller, now);
            && Credit(cfg, after, key, now) ==
               Credit(cfg, buckets, key, now) - (if caller == key && allowed then 1.0 else 0.0)
            && 0.0 <= Credit(cfg, after, key, now)
            && Credit(cfg, buckets, key, now) <= cfg.burst
            && (key in after ==> Sane(cfg, after[key], now))
  {
    RefilledIsSane(cfg, Found(cfg, buckets, key, now), now);
    var (after, allowed) := Take(cfg, buckets, caller, now);
    if key in after {
      RefilledIsSane(cfg, after[key], now);
    }
  }

  lemma {:induction false} UnprunedSane(cfg: RateConfig, ticks: seq<Tick>, key: string, now: real)
    requires Limited(cfg) && Ordered(ticks) && (ticks != [] ==> ticks[|ticks| - 1].now <= now)
    ensures key in RunUnpruned(cfg, ticks) ==> Sane(cfg, RunUnpruned(cfg, ticks)[key], now)
    decreases |ticks|
  {
    if ticks != [] {
      var n := |ticks| - 1;
      UnprunedSane(cfg, ticks[..n], key, ticks[n].now);
      TakeSpends(cfg, RunUnpruned(cfg, ticks[..n]), ticks[n].key, key, ticks[n].now);
    }
  }

  /** One more call moves one token from credit to acceptances, or nothing. */
  lemma OneMoreCall(cfg: RateConfig, ticks: seq<Tick>, key: string, lo: nat, hi: nat)
    requires Limited(cfg) && Ordered(ticks) && HarmlessSweeps(cfg, ticks) && lo < hi <= |ticks|
    ensures var now, before := ticks[hi - 1].now, Credit(cfg, RunUnpruned(cfg, ticks[..hi - 1]), key, ticks[hi - 1].now);
            var after := Credit(cfg, RunUnpruned(cfg, ticks[..hi]), key, now);
            && AcceptedIn(cfg, ticks, key, lo, hi) as real + after
               == AcceptedIn(cfg, ticks, key, lo, hi - 1) as real + before
            && 0.0 <= after && before <= cfg.burst
  {
    var t := ticks[hi - 1];
    UnprunedStep(cfg, ticks, hi);
    PruningNeverChangesAnAnswer(cfg, ticks, hi - 1);
    UnprunedSane(cfg, ticks[..hi - 1], key, t.now);
    TakeSpends(cfg, RunUnpruned(cfg, ticks[..hi - 1]), t.key, key, t.now);
    hide Take, Credit, Limited, AnswerPruned, AnswerUnpruned, RunUnpruned, Sane, Ordered, HarmlessSweeps;
  }

  lemma CreditBetween(cfg: RateConfig, ticks: seq<Tick>, key: string, hi: nat)
    requires Limited(cfg) && Ordered(ticks) && 1 < hi <= |ticks|
    ensures var s, t, buckets := ticks[hi - 2].now, ticks[hi - 1].now, RunUnpruned(cfg, ticks[..hi - 1]);
            Credit(cfg, buckets, key, t) <= Credit(cfg, buckets, key, s) + Gain(cfg, s, t)
  {
    hide Credit, RunUnpruned, Sane;
    UnprunedSane(cfg, ticks[..hi - 1], key, ticks[hi - 2].now);
    CreditGrows(cfg, RunUnpruned(cfg, ticks[..hi - 1]), key, ticks[hi - 2].now, ticks[hi - 1].now);
  }

  lemma {:induction false} AcceptedPlusCredit(cfg: RateConfig, ticks: seq<Tick>, key: string, lo: nat, hi: nat)
    requires Limited(cfg) && Ordered(ticks) && HarmlessSweeps(cfg, ticks) && lo < hi <= |ticks|
    ensures var end := ticks[hi - 1].now;
            AcceptedIn(cfg, ticks, key, lo, hi) as real + Credit(cfg, RunUnpruned(cfg, ticks[..hi]), key, end)
            <= cfg.burst + Gain(cfg, ticks[lo].now, end)
    ensures 0.0 <= Credit(cfg, RunUnpruned(cfg, ticks[..hi]), key, ticks[hi - 1].now)
    decreases hi
  {
    hide Credit, RunUnpruned, AnswerPruned, Ordered, HarmlessSweeps, Limited, Gain;
    OneMoreCall(cfg, ticks, key, lo, hi);
    var mid := if hi - 1 > lo then ticks[hi - 2].now else ticks[lo].now;
    GainSplits(cfg, ticks[lo].now, mid, ticks[hi - 1].now);
    if hi - 1 > lo {
      AcceptedPlusCredit(cfg, ticks, key, lo, hi - 1);
      CreditBetween(cfg, ticks, key, hi);
    }
  }

  lemma UnprunedStep(cfg: RateConfig, ticks: seq<Tick>, hi: nat)
    requires 0 < hi <= |ticks|
    ensures var t, before := ticks[hi - 1], RunUnpruned(cfg, ticks[..hi - 1]);
            && RunUnpruned(cfg, ticks[..hi]) == Take(cfg, before, t.key, t.now).0
            && AnswerUnpruned(cfg, ticks, hi - 1) == Take(cfg, before, t.key, t.now).1
  {
    assert ticks[..hi][..hi - 1] == ticks[..hi - 1];
  }

  /** Tokens refilled between two instants. */
  function Gain(cfg: RateConfig, a: real, b: real): real {
    cfg.refill * (b - a)
  }

  lemma GainSplits(cfg: RateConfig, a: real, b: real, c: real)
    ensures Gain(cfg, a, c) == Gain(cfg, a, b) + Gain(cfg, b, c)
    ensures Gain(cfg, c, c) == 0.0
  {
    RealDistribute(b - a, c - b, cfg.refill);
  }

  /** Rate bound: as long as sweeps drop full buckets only, in any window of calls spanning
      `T` seconds one pubkey is let in at most `burst + refill * T` times, whatever the other
      pubkeys do. */
  lemma RateIsBounded(cfg: RateConfig, ticks: seq<Tick>, key: string, lo: nat, hi: nat)
    requires Limited(cfg) && Ordered(ticks) && HarmlessSweeps(cfg, ticks) && lo < hi <= |ticks|
    ensures AcceptedIn(cfg, ticks, key, lo, hi) as real
            <= cfg.burst + cfg.refill * (ticks[hi - 1].now - ticks[lo].now)
  {
    hide Credit, RunUnpruned, AcceptedIn, Ordered, HarmlessSweeps, Limited;
    AcceptedPlusCredit(cfg, ticks, key, lo, hi);
  }
}
