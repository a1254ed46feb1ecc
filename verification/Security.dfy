/** The gateway's two in-process guards, as the program keeps them: lazily pruned maps
    updated in place. Seconds of the bucket clock are reals; the replay clock counts
    whole unix seconds. */
module Security {
  import opened Numbers

  const BUCKET_PRUNE_THRESHOLD: nat := 1024
  const REPLAY_PRUNE_THRESHOLD: nat := 256
  const BUCKET_TTL: real := 600.0

  /** `earliest` is the first instant the platform's monotonic clock can represent. */
  datatype RateConfig = RateConfig(burst: real, refill: real, earliest: real)

  datatype Bucket = Bucket(tokens: real, last: real)

  type Buckets = map<string, Bucket>
  type Spent = map<string, U64>

  predicate Limited(cfg: RateConfig) {
    cfg.refill > 0.0 && cfg.burst > 0.0
  }

  // ---- Rate limit ---------------------------------------------------------------

  function MinReal(a: real, b: real): real { if a <= b then a else b }

  /** The cutoff before which idle buckets are dropped; a clock too young to look back
      that far uses the present instant itself. */
  function Cutoff(cfg: RateConfig, now: real): real {
    if now - BUCKET_TTL >= cfg.earliest then now - BUCKET_TTL else now
  }

  function PruneBuckets(cfg: RateConfig, buckets: Buckets, now: real): Buckets {
    if |buckets| > BUCKET_PRUNE_THRESHOLD
    then map k | k in buckets && buckets[k].last >= Cutoff(cfg, now) :: buckets[k]
    else buckets
  }

  /** The bucket a call finds: the stored one, or a full one. */
  function Found(cfg: RateConfig, buckets: Buckets, key: string, now: real): Bucket {
    if key in buckets then buckets[key] else Bucket(cfg.burst, now)
  }

  /** Time since the last call never counts below zero. */
  function Refilled(cfg: RateConfig, b: Bucket, now: real): real {
    var elapsed := if now >= b.last then now - b.last else 0.0;
    MinReal(b.tokens + elapsed * cfg.refill, cfg.burst)
  }

  /** One token taken if there is one, on the map as it stands. */
  function Take(cfg: RateConfig, buckets: Buckets, key: string, now: real): (Buckets, bool) {
    var tokens := Refilled(cfg, Found(cfg, buckets, key, now), now);
    if tokens >= 1.0 then (buckets[key := Bucket(tokens - 1.0, now)], true)
    else (buckets[key := Bucket(tokens, now)], false)
  }

  function AllowStep(cfg: RateConfig, buckets: Buckets, key: string, now: real): (Buckets, bool) {
    if !Limited(cfg) then (buckets, true) else Take(cfg, PruneBuckets(cfg, buckets, now), key, now)
  }

  /** A bucket outlives a call unless the map is large and it has been idle for ten minutes, or
      for any time at all on a clock that cannot look back that far. */
  predicate Outlives(cfg: RateConfig, buckets: Buckets, key: string, now: real)
    requires key in buckets
  {
    || |buckets| <= 1024
    || now <= buckets[key].last
    || (now - 600.0 >= cfg.earliest && now - 600.0 <= buckets[key].last)
  }

  /** What a bucket holds once refilled for the time since its last call, at most a full one. */
  predicate HoldsAt(cfg: RateConfig, b: Bucket, now: real, held: real) {
    var grown := if now <= b.last then b.tokens else b.tokens + (now - b.last) * cfg.refill;
    held <= grown && held <= cfg.burst && (held == grown || held == cfg.burst)
  }

  /** Without a limit every call is let in. With one, a call is let in exactly when its bucket,
      refilled, or a full one if it has none, holds a whole token; then it pays with it. The
      buckets of other callers stay or are swept out whole. */
  lemma AllowMeaning(cfg: RateConfig, buckets: Buckets, key: string, now: real, held: real)
    requires if key in buckets && Outlives(cfg, buckets, key, now) then HoldsAt(cfg, buckets[key], now, held)
             else held == cfg.burst
    ensures var (after, allowed) := AllowStep(cfg, buckets, key, now);
            if cfg.refill <= 0.0 || cfg.burst <= 0.0 then after == buckets && allowed
            else
              && (allowed <==> held >= 1.0)
              && key in after && after[key] == Bucket(if allowed then held - 1.0 else held, now)
              && (forall k :: k != key ==>
                    (k in after <==> k in buckets && Outlives(cfg, buckets, k, now))
                    && (k in after ==> after[k] == buckets[k]))
  {
    if Limited(cfg) {
      var pruned := PruneBuckets(cfg, buckets, now);
      assert forall k :: k in pruned <==> k in buckets && Outlives(cfg, buckets, k, now);
      FoundHolds(cfg, pruned, key, now, held);
      hide PruneBuckets, Outlives, Found, Refilled, HoldsAt;
    }
  }

  lemma FoundHolds(cfg: RateConfig, pruned: Buckets, key: string, now: real, held: real)
    requires if key in pruned then HoldsAt(cfg, pruned[key], now, held) else held == cfg.burst
    ensures Refilled(cfg, Found(cfg, pruned, key, now), now) == held
  {}

  // ---- Replay guard ----------------------------------------------------------------

  function PruneSpent(spent: Spent, now: U64): Spent {
    if |spent| > REPLAY_PRUNE_THRESHOLD
    then map id | id in spent && spent[id] > now :: spent[id]
    else spent
  }

  /** The guard on the map as it stands: a live entry means a replay. */
  function Spend(spent: Spent, id: string, expiry: U64, now: U64): (Spent, bool) {
    if id in spent && spent[id] > now then (spent, false) else (spent[id := expiry], true)
  }

  function CheckStep(spent: Spent, id: string, expiry: U64, now: U64): (Spent, bool) {
    Spend(PruneSpent(spent, now), id, expiry, now)
  }

  // ---- The shared guard object -------------------------------------------------------

  class Guard {
    const cfg: RateConfig
    var replay: Spent
    var buckets: Buckets

    constructor (cfg: RateConfig)
      ensures this.cfg == cfg && replay == map[] && buckets == map[]
    {
      this.cfg := cfg;
      replay, buckets := map[], map[];
    }

    method AllowRate(pubkey: string, now: real) returns (allowed: bool)
      modifies this`buckets
      ensures buckets == AllowStep(cfg, old(buckets), pubkey, now).0
      ensures allowed == AllowStep(cfg, old(buckets), pubkey, now).1
      ensures cfg.refill <= 0.0 || cfg.burst <= 0.0 ==> allowed && buckets == old(buckets)
    {
      if cfg.refill <= 0.0 || cfg.burst <= 0.0 {
        return true;
      }
      if |buckets| > BUCKET_PRUNE_THRESHOLD {
        var cutoff := Cutoff(cfg, now);
        buckets := map k | k in buckets && buckets[k].last >= cutoff :: buckets[k];
      }
      assert buckets == PruneBuckets(cfg, old(buckets), now);
      if pubkey !in buckets {
        buckets := buckets[pubkey := Bucket(cfg.burst, now)];
      }
      var b := buckets[pubkey];
      var tokens := Refilled(cfg, b, now);
      if tokens >= 1.0 {
        buckets := buckets[pubkey := Bucket(tokens - 1.0, now)];
        allowed := true;
      } else {
        buckets := buckets[pubkey := Bucket(tokens, now)];
        allowed := false;
      }
    }

    method CheckReplay(id: string, expiry: U64, now: U64) returns (unspent: bool)
      modifies this`replay
      ensures replay == CheckStep(old(replay), id, expiry, now).0
      ensures unspent == CheckStep(old(replay), id, expiry, now).1
      ensures unspent <==> (id in old(replay) ==> old(replay)[id] <= now)
      ensures id in replay && replay[id] == if unspent then expiry else old(replay)[id]
      ensures forall k :: k != id ==>
                (k in replay <==> k in old(replay) && (|old(replay)| <= 256 || old(replay)[k] > now))
                && (k in replay ==> replay[k] == old(replay)[k])
    {
      if |replay| > REPLAY_PRUNE_THRESHOLD {
        replay := map known | known in replay && replay[known] > now :: replay[known];
      }
      assert replay == PruneSpent(old(replay), now);
      if id in replay {
        if replay[id] > now {
          return false;
        }
      }
      replay := replay[id := expiry];
      unspent := true;
    }
  }
}
