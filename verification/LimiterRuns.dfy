/** Exactly which limiters a sweep can be noticed in, with the runs that show it. */
module LimiterRuns {
  import opened Numbers
  import opened Security
  import opened LimiterLaws

  /** One call's answer depends on the sweep exactly when the sweep drops the caller's own
      bucket, that bucket holds less than a token, and a full one holds at least one. */
  lemma SweepShowsExactlyWhen(cfg: RateConfig, buckets: Buckets, key: string, now: real)
    requires Limited(cfg)
    ensures AllowStep(cfg, buckets, key, now).1 != Take(cfg, buckets, key, now).1 <==>
            |buckets| > BUCKET_PRUNE_THRESHOLD && key in buckets && buckets[key].last < Cutoff(cfg, now)
            && Refilled(cfg, buckets[key], now) < 1.0 <= cfg.burst
  {
    if key !in PruneBuckets(cfg, buckets, now) {
      assert Refilled(cfg, Bucket(cfg.burst, now), now) == cfg.burst;
    }
  }

  // ---- Building runs --------------------------------------------------------------------

  /** The caller under observation; the others are told from it, and apart, by length. */
  const ME: string := ""

  function Other(n: nat): string {
    seq(n, _ => 'x')
  }

  /** After `ticks`, none before `from` and the last at `now`, the limiter holds `p`, the one
      that never sweeps holds `u`, and the first has let `ME` in `count` times. */
  ghost predicate Reaches(cfg: RateConfig, ticks: seq<Tick>, from: real, p: Buckets, u: Buckets, now: real, count: nat) {
    && Ordered(ticks) && ticks != [] && ticks[|ticks| - 1].now == now
    && (forall i :: 0 <= i < |ticks| ==> from <= ticks[i].now)
    && RunPruned(cfg, ticks) == p && RunUnpruned(cfg, ticks) == u
    && AcceptedIn(cfg, ticks, ME, 0, |ticks|) == count
  }

  lemma {:induction false} AcceptedInPrefix(cfg: RateConfig, ticks: seq<Tick>, t: Tick, hi: nat)
    requires hi <= |ticks|
    ensures AcceptedIn(cfg, ticks + [t], ME, 0, hi) == AcceptedIn(cfg, ticks, ME, 0, hi)
    decreases hi
  {
    if hi > 0 {
      AcceptedInPrefix(cfg, ticks, t, hi - 1);
      assert (ticks + [t])[..hi - 1] == ticks[..hi - 1];
    }
  }

  lemma Extend(cfg: RateConfig, ticks: seq<Tick>, from: real, p: Buckets, u: Buckets, t: real, count: nat, key: string, now: real)
    returns (ext: seq<Tick>)
    requires Reaches(cfg, ticks, from, p, u, t, count) && t <= now
    ensures ext == ticks + [Tick(key, now)]
    ensures var (after, allowed) := AllowStep(cfg, p, key, now);
            && Reaches(cfg, ext, from, after, Take(cfg, u, key, now).0, now, count + if key == ME && allowed then 1 else 0)
            && AnswerPruned(cfg, ext, |ticks|) == allowed
            && AnswerUnpruned(cfg, ext, |ticks|) == Take(cfg, u, key, now).1
  {
    ext := ticks + [Tick(key, now)];
    assert ext[..|ticks|] == ticks;
    AcceptedInPrefix(cfg, ticks, Tick(key, now), |ticks|);
    hide AllowStep, Take;
  }

  /** Without a sweep the two limiters do the same. */
  lemma NoSweep(cfg: RateConfig, p: Buckets, key: string, now: real)
    requires Limited(cfg) && |p| <= BUCKET_PRUNE_THRESHOLD
    ensures AllowStep(cfg, p, key, now) == Take(cfg, p, key, now)
  {}

  lemma TakeOne(cfg: RateConfig, p: Buckets, x: real, now: real)
    requires ME in p && p[ME] == Bucket(x, now) && x <= cfg.burst
    ensures Take(cfg, p, ME, now) == (if x >= 1.0 then (p[ME := Bucket(x - 1.0, now)], true) else (p[ME := Bucket(x, now)], false))
  {
    assert Refilled(cfg, Bucket(x, now), now) == x;
    hide Refilled;
  }

  /** Calls at one instant spend one token each. */
  lemma {:induction false} Drain(cfg: RateConfig, ticks: seq<Tick>, from: real, p: Buckets, u: Buckets, now: real, count: nat,
                                 x: real, y: real, n: nat)
    returns (ext: seq<Tick>)
    requires Reaches(cfg, ticks, from, p, u, now, count) && Limited(cfg) && |p| <= BUCKET_PRUNE_THRESHOLD
    requires ME in p && p[ME] == Bucket(x, now) && ME in u && u[ME] == Bucket(y, now)
    requires n as real <= x <= cfg.burst && n as real <= y <= cfg.burst
    ensures Reaches(cfg, ext, from, p[ME := Bucket(x - n as real, now)], u[ME := Bucket(y - n as real, now)], now, count + n)
    decreases n
  {
    hide Reaches, AllowStep, Take, AnswerPruned, AnswerUnpruned;
    if n == 0 {
      ext := ticks;
      assert p[ME := Bucket(x, now)] == p && u[ME := Bucket(y, now)] == u;
    } else {
      var mid := Drain(cfg, ticks, from, p, u, now, count, x, y, n - 1);
      var a, b := x - (n - 1) as real, y - (n - 1) as real;
      var q, v := p[ME := Bucket(a, now)], u[ME := Bucket(b, now)];
      assert |q| == |p|;
      NoSweep(cfg, q, ME, now);
      TakeOne(cfg, q, a, now);
      TakeOne(cfg, v, b, now);
      ext := Extend(cfg, mid, from, q, v, now, count + (n - 1), ME, now);
      assert q[ME := Bucket(a - 1.0, now)] == p[ME := Bucket(x - n as real, now)];
      assert v[ME := Bucket(b - 1.0, now)] == u[ME := Bucket(y - n as real, now)];
    }
  }

  /** `ME` has `x` tokens, every bucket was used at `now`, and `n` others have one. */
  ghost predicate Crowded(m: Buckets, x: real, now: real, n: nat) {
    && ME in m && m[ME] == Bucket(x, now) && |m| == n + 1
    && (forall k :: k in m ==> |k| <= n && m[k].last == now)
  }

  lemma {:induction false} Crowd(cfg: RateConfig, ticks: seq<Tick>, from: real, m: Buckets, now: real, count: nat, x: real, n: nat)
    returns (ext: seq<Tick>, full: Buckets)
    requires Limited(cfg) && Reaches(cfg, ticks, from, m, m, now, count) && Crowded(m, x, now, 0)
    requires n <= BUCKET_PRUNE_THRESHOLD
    ensures Reaches(cfg, ext, from, full, full, now, count) && Crowded(full, x, now, n)
    decreases n
  {
    if n == 0 {
      ext, full := ticks, m;
    } else {
      var mid, less := Crowd(cfg, ticks, from, m, now, count, x, n - 1);
      var key := Other(n);
      assert key !in less && key != ME;
      NoSweep(cfg, less, key, now);
      ext := Extend(cfg, mid, from, less, less, now, count, key, now);
      full := Take(cfg, less, key, now).0;
      assert |full| == |less| + 1;
    }
  }

  /** A first call on empty maps. */
  lemma FirstCall(cfg: RateConfig, from: real) returns (ticks: seq<Tick>)
    requires Limited(cfg) && cfg.burst >= 1.0
    ensures var m := map[ME := Bucket(cfg.burst - 1.0, from)];
            Reaches(cfg, ticks, from, m, m, from, 1)
  {
    ticks := [Tick(ME, from)];
    assert ticks[..0] == [];
    assert RunPruned(cfg, []) == map[] && RunUnpruned(cfg, []) == map[];
    NoSweep(cfg, map[], ME, from);
    assert Take(cfg, map[], ME, from) == (map[ME := Bucket(cfg.burst - 1.0, from)], true);
    assert AcceptedIn(cfg, ticks, ME, 0, 0) == 0;
  }

  /** `ME` calls until less than a token is left. */
  lemma EmptyOut(cfg: RateConfig, from: real) returns (ticks: seq<Tick>)
    requires Limited(cfg) && cfg.burst >= 1.0
    ensures var n: int := cfg.burst.Floor;
            var m := map[ME := Bucket(cfg.burst - n as real, from)];
            n >= 1 && Reaches(cfg, ticks, from, m, m, from, n)
  {
    var n: int := cfg.burst.Floor;
    var first := FirstCall(cfg, from);
    var m := map[ME := Bucket(cfg.burst - 1.0, from)];
    ticks := Drain(cfg, first, from, m, m, from, 1, cfg.burst - 1.0, cfg.burst - 1.0, n - 1);
    assert m[ME := Bucket(cfg.burst - 1.0 - (n - 1) as real, from)] == map[ME := Bucket(cfg.burst - n as real, from)];
  }

  lemma Waits(rest: real, refill: real)
    requires refill > 0.0
    ensures (rest / refill) * refill == rest
  {}

  /** The sweep at `now` drops every bucket of a crowd that has been idle long enough. */
  lemma SweptClean(cfg: RateConfig, m: Buckets, x: real, t: real, now: real)
    requires Limited(cfg) && cfg.burst >= 1.0 && Crowded(m, x, t, BUCKET_PRUNE_THRESHOLD) && t < Cutoff(cfg, now)
    ensures AllowStep(cfg, m, ME, now) == (map[ME := Bucket(cfg.burst - 1.0, now)], true)
  {
    assert PruneBuckets(cfg, m, now) == map[];
  }

  lemma TakeLater(cfg: RateConfig, u: Buckets, x: real, t: real, now: real)
    requires ME in u && u[ME] == Bucket(x, t) && t <= now && x + (now - t) * cfg.refill <= cfg.burst
    ensures var y := x + (now - t) * cfg.refill;
            Take(cfg, u, ME, now) == (if y >= 1.0 then (u[ME := Bucket(y - 1.0, now)], true) else (u[ME := Bucket(y, now)], false))
  {
    var y := x + (now - t) * cfg.refill;
    assert Refilled(cfg, Bucket(x, t), now) == y;
    hide Refilled;
  }

  /** The last answers of the two limiters differ. */
  ghost predicate Differ(cfg: RateConfig, ticks: seq<Tick>, from: real) {
    && Ordered(ticks) && ticks != [] && (forall i :: 0 <= i < |ticks| ==> from <= ticks[i].now)
    && AnswerPruned(cfg, ticks, |ticks| - 1) && !AnswerUnpruned(cfg, ticks, |ticks| - 1)
  }

  lemma ExtendToDiffer(cfg: RateConfig, ticks: seq<Tick>, from: real, p: Buckets, u: Buckets, t: real, count: nat, now: real)
    returns (ext: seq<Tick>)
    requires Reaches(cfg, ticks, from, p, u, t, count) && t <= now
    requires AllowStep(cfg, p, ME, now).1 && !Take(cfg, u, ME, now).1
    ensures ext == ticks + [Tick(ME, now)] && Differ(cfg, ext, from)
    ensures AcceptedIn(cfg, ext, ME, 0, |ext|) == count + 1
  {
    hide AllowStep, Take, AnswerPruned, AnswerUnpruned, AcceptedIn;
    ext := Extend(cfg, ticks, from, p, u, t, count, ME, now);
    assert |ext| - 1 == |ticks|;
  }

  /** When a bucket with less than a token has refilled to one. */
  lemma WholeTokenAt(cfg: RateConfig, left: real, now: real) returns (later: real)
    requires Limited(cfg) && left < 1.0
    ensures now < later && left + (later - now) * cfg.refill == 1.0
  {
    var wait := (1.0 - left) / cfg.refill;
    Waits(1.0 - left, cfg.refill);
    if wait <= 0.0 {
      MulReal(0.0, wait, cfg.refill);
    }
    later := now + wait;
    assert later - now == wait;
  }

  /** A caller that had not been refilled when it was swept holds more than it should; drained
      to the last token, and given time, that shows. */
  lemma ShowsLater(cfg: RateConfig, ticks: seq<Tick>, from: real, p: Buckets, u: Buckets, now: real, count: nat, y: real)
    returns (ext: seq<Tick>)
    requires Limited(cfg) && cfg.burst >= 1.0 && 0.0 <= y < cfg.burst - 1.0
    requires Reaches(cfg, ticks, from, p, u, now, count)
    requires p == map[ME := Bucket(cfg.burst - 1.0, now)] && ME in u && u[ME] == Bucket(y, now)
    ensures Differ(cfg, ext, from)
  {
    hide Reaches, Differ, AllowStep, Take;
    var x := cfg.burst - 1.0;
    var n: int := y.Floor;
    var drained := Drain(cfg, ticks, from, p, u, now, count, x, y, n);
    var a, b := x - n as real, y - n as real;
    var q, v := p[ME := Bucket(a, now)], u[ME := Bucket(b, now)];
    assert |q| == 1;
    if a >= 1.0 {
      NoSweep(cfg, q, ME, now);
      TakeOne(cfg, q, a, now);
      TakeOne(cfg, v, b, now);
      ext := ExtendToDiffer(cfg, drained, from, q, v, now, count + n, now);
    } else {
      var later := WholeTokenAt(cfg, a, now);
      NoSweep(cfg, q, ME, later);
      TakeLater(cfg, q, a, now, later);
      TakeLater(cfg, v, b, now, later);
      ext := ExtendToDiffer(cfg, drained, from, q, v, now, count + n, later);
    }
  }

  /** A swept bucket that was not full shows, sooner or later. */
  lemma SweepShows(cfg: RateConfig, ticks: seq<Tick>, from: real, m: Buckets, x: real, t: real, count: nat, now: real)
    returns (ext: seq<Tick>)
    requires Limited(cfg) && cfg.burst >= 1.0 && Reaches(cfg, ticks, from, m, m, t, count)
    requires Crowded(m, x, t, BUCKET_PRUNE_THRESHOLD) && t < Cutoff(cfg, now) && t <= now && 0.0 <= x
    requires x + (now - t) * cfg.refill < cfg.burst
    ensures Differ(cfg, ext, from)
    ensures x + (now - t) * cfg.refill < 1.0 ==>
              ext == ticks + [Tick(ME, now)] && AcceptedIn(cfg, ext, ME, 0, |ext|) == count + 1
  {
    hide Reaches, Differ, AllowStep, Take, AcceptedIn;
    var y := x + (now - t) * cfg.refill;
    MulReal(now - t, 0.0, cfg.refill);
    SweptClean(cfg, m, x, t, now);
    TakeLater(cfg, m, x, t, now);
    if y < 1.0 {
      ext := ExtendToDiffer(cfg, ticks, from, m, m, t, count, now);
    } else {
      var swept := Extend(cfg, ticks, from, m, m, t, count, ME, now);
      ext := ShowsLater(cfg, swept, from, map[ME := Bucket(cfg.burst - 1.0, now)], m[ME := Bucket(y - 1.0, now)], now, count + 1, y - 1.0);
    }
  }

  // ---- On a clock at least one idle period old --------------------------------------------

  /** A run that shows a sweep where an idle period does not refill a bucket. */
  lemma IdleSweepShows(cfg: RateConfig) returns (ext: seq<Tick>)
    requires Limited(cfg) && cfg.burst >= 1.0 && cfg.burst > BUCKET_TTL * cfg.refill
    ensures Differ(cfg, ext, cfg.earliest + BUCKET_TTL)
  {
    hide Reaches, Differ, AllowStep, Take, Crowded;
    var from := cfg.earliest + BUCKET_TTL;
    var n: int := cfg.burst.Floor;
    var left := cfg.burst - n as real;
    var first := EmptyOut(cfg, from);
    var m := map[ME := Bucket(left, from)];
    // Wait for exactly one token and take it: nothing is left.
    var t := WholeTokenAt(cfg, left, from);
    NoSweep(cfg, m, ME, t);
    TakeLater(cfg, m, left, from, t);
    var empty := Extend(cfg, first, from, m, m, from, n, ME, t);
    var none := m[ME := Bucket(0.0, t)];
    AloneIsCrowded(0.0, t);
    assert none == map[ME := Bucket(0.0, t)];
    var many, full := Crowd(cfg, empty, from, none, t, n + 1, 0.0, BUCKET_PRUNE_THRESHOLD);
    // Idle a little longer than the sweep's limit, not long enough to be full.
    var now := IdleButNotFull(cfg, t);
    ext := SweepShows(cfg, many, from, full, 0.0, t, n + 1, now);
  }

  lemma AloneIsCrowded(x: real, now: real)
    ensures Crowded(map[ME := Bucket(x, now)], x, now, 0)
  {}

  lemma IdleButNotFull(cfg: RateConfig, t: real) returns (now: real)
    requires Limited(cfg) && cfg.burst > BUCKET_TTL * cfg.refill && t >= cfg.earliest
    ensures now - BUCKET_TTL > t && (now - t) * cfg.refill < cfg.burst && t < Cutoff(cfg, now)
  {
    var whole := cfg.burst / cfg.refill;
    Waits(cfg.burst, cfg.refill);
    if whole <= BUCKET_TTL {
      MulReal(BUCKET_TTL, whole, cfg.refill);
    }
    var idle := (BUCKET_TTL + whole) / 2.0;
    RealDistribute(BUCKET_TTL / 2.0, whole / 2.0, cfg.refill);
    now := t + idle;
    assert now - t == idle;
  }

  lemma RefusesAll(cfg: RateConfig, buckets: Buckets, key: string, now: real)
    requires Limited(cfg) && cfg.burst < 1.0
    ensures !AllowStep(cfg, buckets, key, now).1 && !Take(cfg, buckets, key, now).1
  {}

  /** Every run on a clock at least one idle period old is answered as if nothing was swept. */
  ghost predicate SweepsUnseenOnOldClocks(cfg: RateConfig) {
    forall ticks: seq<Tick>, i: nat :: Ordered(ticks) && OldEnough(cfg, ticks) && i < |ticks| ==>
      AnswerPruned(cfg, ticks, i) == AnswerUnpruned(cfg, ticks, i)
  }

  /** On a clock at least one idle period old, sweeping idle buckets is never noticed exactly
      when an idle period refills any bucket, or no bucket ever holds a token. */
  lemma EvictionIsInvisible(cfg: RateConfig)
    requires Limited(cfg)
    ensures SweepsUnseenOnOldClocks(cfg) <==> cfg.burst < 1.0 || cfg.burst <= BUCKET_TTL * cfg.refill
  {
    if cfg.burst < 1.0 || cfg.burst <= BUCKET_TTL * cfg.refill {
      forall ticks: seq<Tick>, i: nat | Ordered(ticks) && OldEnough(cfg, ticks) && i < |ticks|
        ensures AnswerPruned(cfg, ticks, i) == AnswerUnpruned(cfg, ticks, i)
      {
        if cfg.burst < 1.0 {
          RefusesAll(cfg, RunPruned(cfg, ticks[..i]), ticks[i].key, ticks[i].now);
          RefusesAll(cfg, RunUnpruned(cfg, ticks[..i]), ticks[i].key, ticks[i].now);
        } else {
          OldClockSweepsHarmlessly(cfg, ticks);
          PruningNeverChangesAnAnswer(cfg, ticks, i);
        }
      }
    } else {
      var ticks := IdleSweepShows(cfg);
      assert OldEnough(cfg, ticks);
      assert AnswerPruned(cfg, ticks, |ticks| - 1) != AnswerUnpruned(cfg, ticks, |ticks| - 1);
    }
  }

  // ---- On a younger clock -------------------------------------------------------------------

  /** A run on a clock younger than one idle period that is answered otherwise than without
      sweeps, and lets `ME` in more often than the rate allows. */
  ghost predicate ForgetsYoung(cfg: RateConfig, ticks: seq<Tick>) {
    && ticks != [] && Differ(cfg, ticks, cfg.earliest) && ticks[|ticks| - 1].now - BUCKET_TTL < cfg.earliest
    && AcceptedIn(cfg, ticks, ME, 0, |ticks|) as real
       > cfg.burst + cfg.refill * (ticks[|ticks| - 1].now - ticks[0].now)
  }

  lemma YoungSweepShows(cfg: RateConfig) returns (ext: seq<Tick>)
    requires Limited(cfg) && cfg.burst >= 1.0
    ensures ForgetsYoung(cfg, ext)
  {
    hide Reaches, Differ, AllowStep, Take, Crowded, AcceptedIn, AnswerPruned, AnswerUnpruned;
    var from := cfg.earliest;
    var n: int := cfg.burst.Floor;
    var left := cfg.burst - n as real;
    var first := EmptyOut(cfg, from);
    var m := map[ME := Bucket(left, from)];
    AloneIsCrowded(left, from);
    var many, full := Crowd(cfg, first, from, m, from, n, left, BUCKET_PRUNE_THRESHOLD);
    var now := BeforeTheNextToken(cfg, left, from);
    ext := SweepShows(cfg, many, from, full, left, from, n, now);
    StartsAndEnds(cfg, ext, from);
    assert ext[|ext| - 1].now == now;
    OneTooMany(cfg, n, left, from, ext[0].now, now);
  }

  lemma StartsAndEnds(cfg: RateConfig, ticks: seq<Tick>, from: real)
    requires Differ(cfg, ticks, from)
    ensures ticks != [] && from <= ticks[0].now <= ticks[|ticks| - 1].now
  {}

  /** One more than the whole tokens of a full bucket, before the next token is full. */
  lemma OneTooMany(cfg: RateConfig, n: nat, left: real, from: real, first: real, now: real)
    requires Limited(cfg) && from <= first <= now
    requires cfg.burst == left + n as real && left + (now - from) * cfg.refill < 1.0
    ensures (n + 1) as real > cfg.burst + cfg.refill * (now - first)
  {
    Excess(cfg.refill, left, now - from, now - first);
    assert (n + 1) as real == n as real + 1.0;
  }

  lemma Excess(refill: real, left: real, wait: real, span: real)
    requires refill > 0.0 && span <= wait && left + wait * refill < 1.0
    ensures left + refill * span < 1.0
  {
    MulReal(wait, span, refill);
    assert refill * span == span * refill;
  }

  /** An instant soon after, before the next token is full. */
  lemma BeforeTheNextToken(cfg: RateConfig, left: real, t: real) returns (now: real)
    requires Limited(cfg) && left < 1.0
    ensures t < now <= t + 1.0 && left + (now - t) * cfg.refill < 1.0
  {
    var whole := WholeTokenAt(cfg, left, t);
    var wait := (if whole - t <= 1.0 then whole - t else 1.0) / 2.0;
    now := t + wait;
    assert now - t == wait;
    MulReal(whole - t, 2.0 * wait, cfg.refill);
    RealDistribute(wait, wait, cfg.refill);
    assert wait * cfg.refill > 0.0;
  }

  /** On a clock younger than one idle period the cutoff is the present: there, whatever the
      refill rate, a sweep can hand an emptied bucket back full and break the rate bound,
      exactly when a full bucket holds a token at all. */
  lemma YoungClockForgets(cfg: RateConfig)
    requires Limited(cfg)
    ensures (exists ticks: seq<Tick> :: ForgetsYoung(cfg, ticks)) <==> cfg.burst >= 1.0
  {
    if cfg.burst >= 1.0 {
      var ticks := YoungSweepShows(cfg);
    } else {
      forall ticks: seq<Tick> | ForgetsYoung(cfg, ticks)
        ensures false
      {
        var n := |ticks| - 1;
        RefusesAll(cfg, RunPruned(cfg, ticks[..n]), ticks[n].key, ticks[n].now);
      }
    }
  }
}
