/** Token buckets per key, with buckets that go unused dropped from the map. */
module RateLimit {

  datatype Bucket = Bucket(tokens: real, lastRefill: real, lastAccess: real)

  /** Requests per minute and burst size, both positive (zero means the default, set on construction). */
  datatype Config = Config(requestsPerMinute: int, burstSize: int)

  predicate ConfigOk(cfg: Config) {
    cfg.requestsPerMinute > 0 && cfg.burstSize > 0
  }

  /** Tokens per second. */
  function Rate(cfg: Config): real {
    cfg.requestsPerMinute as real / 60.0
  }

  function Burst(cfg: Config): real {
    cfg.burstSize as real
  }

  type Buckets = map<string, Bucket>

  function NewBucket(cfg: Config, now: real): Bucket {
    Bucket(Burst(cfg), now, now)
  }

  /** Tokens that flow into a bucket between two moments. */
  function Flow(cfg: Config, from: real, to: real): real {
    (to - from) * Rate(cfg)
  }

  /** Tokens a bucket holds at `now`. */
  function Level(cfg: Config, b: Bucket, now: real): real {
    var filled := b.tokens + Flow(cfg, b.lastRefill, now);
    if filled > Burst(cfg) then Burst(cfg) else filled
  }

  function BucketOf(cfg: Config, buckets: Buckets, key: string, now: real): Bucket {
    if key in buckets then buckets[key] else NewBucket(cfg, now)
  }

  /** A request of `key` at `now` is let through. */
  predicate Admits(cfg: Config, buckets: Buckets, key: string, now: real) {
    Level(cfg, BucketOf(cfg, buckets, key, now), now) >= 1.0
  }

  function AfterRequest(cfg: Config, buckets: Buckets, key: string, now: real): Buckets {
    var level := Level(cfg, BucketOf(cfg, buckets, key, now), now);
    buckets[key := Bucket(if level >= 1.0 then level - 1.0 else level, now, now)]
  }

  function AfterSweep(buckets: Buckets, maxAge: real, now: real): Buckets {
    map key | key in buckets && buckets[key].lastAccess >= now - maxAge :: buckets[key]
  }

  class RateLimiter {
    const cfg: Config
    var buckets: Buckets

    constructor (requestsPerMinute: int, burstSize: int)
      ensures cfg == Config(if requestsPerMinute == 0 then 60 else requestsPerMinute,
                            if burstSize == 0 then 10 else burstSize)
      ensures buckets == map[]
    {
      cfg := Config(if requestsPerMinute == 0 then 60 else requestsPerMinute, if burstSize == 0 then 10 else burstSize);
      buckets := map[];
    }

    method GetBucket(key: string, now: real) returns (b: Bucket)
      modifies this
      ensures b == BucketOf(cfg, old(buckets), key, now)
      ensures buckets == old(buckets)[key := b]
    {
      if key in buckets {
        b := buckets[key];
        assert buckets == buckets[key := b];
        return;
      }
      b := Bucket(cfg.burstSize as real, now, now);
      buckets := buckets[key := b];
    }

    /** The bucket is looked up, or made, and asked for a token. */
    method Allow(key: string, now: real) returns (allowed: bool)
      modifies this
      ensures allowed == Admits(cfg, old(buckets), key, now)
      ensures buckets == AfterRequest(cfg, old(buckets), key, now)
    {
      var b := GetBucket(key, now);
      var elapsed := now - b.lastRefill;
      var tokens := b.tokens + elapsed * Rate(cfg);
      assert tokens == b.tokens + Flow(cfg, b.lastRefill, now);
      if tokens > Burst(cfg) {
        tokens := Burst(cfg);
      }
      assert tokens == Level(cfg, b, now);
      allowed := tokens >= 1.0;
      if allowed {
        tokens := tokens - 1.0;
      }
      buckets := buckets[key := Bucket(tokens, now, now)];
    }

    method EvictStale(maxAge: real, now: real)
      modifies this
      ensures buckets == AfterSweep(old(buckets), maxAge, now)
    {
      var cutoff := now - maxAge;
      var left := buckets.Keys;
      ghost var before := buckets;
      while left != {}
        invariant left <= buckets.Keys <= before.Keys
        invariant forall key :: key in buckets ==> buckets[key] == before[key]
        invariant forall key :: key in before && key !in left ==> (key in buckets <==> before[key].lastAccess >= cutoff)
        decreases left
      {
        var key :| key in left;
        left := left - {key};
        if buckets[key].lastAccess < cutoff {
          buckets := buckets - {key};
        }
      }
    }
  }

  // ----- Runs

  datatype Op = Request(now: real, key: string) | Sweep(now: real)

  function Apply(cfg: Config, maxAge: real, evicts: bool, buckets: Buckets, op: Op): Buckets {
    match op
    case Request(now, key) => AfterRequest(cfg, buckets, key, now)
    case Sweep(now) => if evicts then AfterSweep(buckets, maxAge, now) else buckets
  }

  predicate Passes(cfg: Config, buckets: Buckets, op: Op) {
    op.Request? && Admits(cfg, buckets, op.key, op.now)
  }

  function BucketsAfter(cfg: Config, maxAge: real, evicts: bool, buckets: Buckets, ops: seq<Op>): Buckets
    decreases ops
  {
    if ops == [] then buckets
    else BucketsAfter(cfg, maxAge, evicts, Apply(cfg, maxAge, evicts, buckets, ops[0]), ops[1..])
  }

  /** For each operation, whether it is a request that is let through. */
  function Decisions(cfg: Config, maxAge: real, evicts: bool, buckets: Buckets, ops: seq<Op>): (d: seq<bool>)
    ensures |d| == |ops|
    decreases ops
  {
    if ops == [] then []
    else
      [Passes(cfg, buckets, ops[0])]
      + Decisions(cfg, maxAge, evicts, Apply(cfg, maxAge, evicts, buckets, ops[0]), ops[1..])
  }

  predicate InOrder(ops: seq<Op>, now: real)
    decreases ops
  {
    ops == [] || (now <= ops[0].now && InOrder(ops[1..], ops[0].now))
  }

  function End(ops: seq<Op>, now: real): real {
    if ops == [] then now else ops[|ops| - 1].now
  }

  predicate BucketOk(cfg: Config, b: Bucket, now: real) {
    0.0 <= b.tokens <= Burst(cfg) && b.lastRefill == b.lastAccess <= now
  }

  ghost predicate BucketsOk(cfg: Config, buckets: Buckets, now: real) {
    forall key :: key in buckets ==> BucketOk(cfg, buckets[key], now)
  }

  /** What the evicting limiter lacks is full in the one that keeps everything. */
  ghost predicate Alike(cfg: Config, all: Buckets, cached: Buckets, now: real) {
    && BucketsOk(cfg, all, now)
    && (forall key :: key in cached ==> key in all && all[key] == cached[key])
    && (forall key :: key in all && key !in cached ==> Level(cfg, all[key], now) == Burst(cfg))
  }

  lemma RatePositive(cfg: Config)
    requires ConfigOk(cfg)
    ensures Rate(cfg) > 0.0 && Burst(cfg) >= 1.0
  {
  }

  lemma FlowGrows(cfg: Config, from: real, now: real, later: real)
    requires ConfigOk(cfg) && now <= later
    ensures Flow(cfg, from, later) == Flow(cfg, from, now) + Flow(cfg, now, later)
    ensures Flow(cfg, now, later) >= 0.0 && Flow(cfg, now, now) == 0.0
  {
    RatePositive(cfg);
  }

  lemma LevelGrows(cfg: Config, b: Bucket, now: real, later: real)
    requires ConfigOk(cfg) && now <= later
    ensures Level(cfg, b, now) <= Level(cfg, b, later) <= Burst(cfg)
    ensures Level(cfg, b, later) <= Level(cfg, b, now) + Flow(cfg, now, later)
  {
    FlowGrows(cfg, b.lastRefill, now, later);
  }

  lemma LevelBounds(cfg: Config, b: Bucket, now: real)
    requires ConfigOk(cfg) && BucketOk(cfg, b, now)
    ensures 0.0 <= Level(cfg, b, now) <= Burst(cfg)
  {
    FlowGrows(cfg, b.lastRefill, b.lastRefill, now);
  }

  lemma AlikeLater(cfg: Config, all: Buckets, cached: Buckets, now: real, later: real)
    requires ConfigOk(cfg) && Alike(cfg, all, cached, now) && now <= later
    ensures Alike(cfg, all, cached, later)
  {
    forall key | key in all && key !in cached
      ensures Level(cfg, all[key], later) == Burst(cfg)
    {
      LevelGrows(cfg, all[key], now, later);
    }
  }

  /** A full bucket and a new one hold the same. */
  lemma RequestAlike(cfg: Config, all: Buckets, cached: Buckets, key: string, now: real)
    requires ConfigOk(cfg) && Alike(cfg, all, cached, now)
    ensures Admits(cfg, all, key, now) <==> Admits(cfg, cached, key, now)
    ensures Alike(cfg, AfterRequest(cfg, all, key, now), AfterRequest(cfg, cached, key, now), now)
  {
    FlowGrows(cfg, now, now, now);
    RatePositive(cfg);
    LevelBounds(cfg, BucketOf(cfg, all, key, now), now);
    assert Level(cfg, BucketOf(cfg, all, key, now), now) == Level(cfg, BucketOf(cfg, cached, key, now), now);
  }

  /** A bucket old enough to be dropped has filled up since its last use. */
  lemma StaleIsFull(cfg: Config, b: Bucket, maxAge: real, now: real)
    requires ConfigOk(cfg) && BucketOk(cfg, b, now) && maxAge * Rate(cfg) >= Burst(cfg) && b.lastAccess < now - maxAge
    ensures Level(cfg, b, now) == Burst(cfg)
  {
    RatePositive(cfg);
    LongerFlow(Rate(cfg), maxAge, now - b.lastRefill);
    assert Flow(cfg, b.lastRefill, now) >= Burst(cfg);
  }

  lemma LongerFlow(rate: real, a: real, b: real)
    requires rate > 0.0 && a <= b
    ensures a * rate <= b * rate
  {
  }

  lemma SweepAlike(cfg: Config, all: Buckets, cached: Buckets, maxAge: real, now: real)
    requires ConfigOk(cfg) && Alike(cfg, all, cached, now) && maxAge * Rate(cfg) >= Burst(cfg)
    ensures Alike(cfg, all, AfterSweep(cached, maxAge, now), now)
  {
    forall key | key in all && key !in AfterSweep(cached, maxAge, now)
      ensures Level(cfg, all[key], now) == Burst(cfg)
    {
      if key in cached {
        StaleIsFull(cfg, all[key], maxAge, now);
      }
    }
  }

  lemma {:induction false} RunsAlike(cfg: Config, maxAge: real, all: Buckets, cached: Buckets, ops: seq<Op>, now: real)
    requires ConfigOk(cfg) && maxAge * Rate(cfg) >= Burst(cfg) && Alike(cfg, all, cached, now) && InOrder(ops, now)
    ensures Decisions(cfg, maxAge, true, cached, ops) == Decisions(cfg, maxAge, false, all, ops)
    ensures Alike(cfg, BucketsAfter(cfg, maxAge, false, all, ops), BucketsAfter(cfg, maxAge, true, cached, ops),
                  End(ops, now))
    decreases ops
  {
    if ops != [] {
      var op := ops[0];
      AlikeLater(cfg, all, cached, now, op.now);
      match op {
        case Request(t, key) => RequestAlike(cfg, all, cached, key, t);
        case Sweep(t) => SweepAlike(cfg, all, cached, maxAge, t);
      }
      RunsAlike(cfg, maxAge, Apply(cfg, maxAge, false, all, op), Apply(cfg, maxAge, true, cached, op), ops[1..],
                op.now);
    }
  }

  /** Dropping buckets changes no decision if a bucket fills up within `maxAge`. */
  lemma EvictionIsInvisible(cfg: Config, maxAge: real, ops: seq<Op>, now: real)
    requires ConfigOk(cfg) && maxAge * Rate(cfg) >= Burst(cfg) && InOrder(ops, now)
    ensures Decisions(cfg, maxAge, true, map[], ops) == Decisions(cfg, maxAge, false, map[], ops)
  {
    RunsAlike(cfg, maxAge, map[], map[], ops, now);
  }

  // ----- The bound on admitted requests

  function Count(ops: seq<Op>, decisions: seq<bool>, key: string): nat
    requires |ops| == |decisions|
    decreases ops
  {
    if ops == [] then 0
    else (if ops[0].Request? && ops[0].key == key && decisions[0] then 1 else 0) + Count(ops[1..], decisions[1..], key)
  }

  /** Tokens available to `key` at `now`; a key without a bucket would get a full one. */
  function Available(cfg: Config, buckets: Buckets, key: string, now: real): real {
    if key in buckets then Level(cfg, buckets[key], now) else Burst(cfg)
  }

  lemma AvailableGrowsSlowly(cfg: Config, buckets: Buckets, key: string, now: real, later: real)
    requires ConfigOk(cfg) && BucketsOk(cfg, buckets, now) && now <= later
    ensures Available(cfg, buckets, key, later) <= Available(cfg, buckets, key, now) + Flow(cfg, now, later)
    ensures BucketsOk(cfg, buckets, later)
    ensures 0.0 <= Available(cfg, buckets, key, now) <= Burst(cfg)
  {
    FlowGrows(cfg, now, now, later);
    RatePositive(cfg);
    if key in buckets {
      LevelGrows(cfg, buckets[key], now, later);
      LevelBounds(cfg, buckets[key], now);
    }
  }

  lemma RequestSpends(cfg: Config, buckets: Buckets, key: string, other: string, now: real)
    requires ConfigOk(cfg) && BucketsOk(cfg, buckets, now)
    ensures BucketsOk(cfg, AfterRequest(cfg, buckets, key, now), now)
    ensures Available(cfg, AfterRequest(cfg, buckets, key, now), other, now)
         == Available(cfg, buckets, other, now) - (if key == other && Admits(cfg, buckets, key, now) then 1.0 else 0.0)
  {
    FlowGrows(cfg, now, now, now);
    RatePositive(cfg);
    LevelBounds(cfg, BucketOf(cfg, buckets, key, now), now);
  }

  /** Admitted requests are paid for by what was there and what has flowed in since. */
  lemma {:induction false} AdmittedArePaidFor(cfg: Config, maxAge: real, buckets: Buckets, ops: seq<Op>, key: string,
                                              now: real)
    requires ConfigOk(cfg) && BucketsOk(cfg, buckets, now) && InOrder(ops, now)
    ensures Count(ops, Decisions(cfg, maxAge, false, buckets, ops), key) as real
         <= Available(cfg, buckets, key, now) + Flow(cfg, now, End(ops, now))
    ensures now <= End(ops, now)
    decreases ops
  {
    AvailableGrowsSlowly(cfg, buckets, key, now, now);
    if ops == [] {
      FlowGrows(cfg, now, now, now);
    } else {
      var op := ops[0];
      var next := Apply(cfg, maxAge, false, buckets, op);
      AvailableGrowsSlowly(cfg, buckets, key, now, op.now);
      if op.Request? {
        RequestSpends(cfg, buckets, op.key, key, op.now);
      }
      AdmittedArePaidFor(cfg, maxAge, next, ops[1..], key, op.now);
      assert Decisions(cfg, maxAge, false, buckets, ops)[1..] == Decisions(cfg, maxAge, false, next, ops[1..]);
      assert End(ops[1..], op.now) == End(ops, now);
      FlowGrows(cfg, now, op.now, End(ops, now));
    }
  }

  /**
   * In any window of a run of the evicting limiter, from its first operation to its last, each key is
   * let through at most `burst` times plus `rate` times the length of the window.
   */
  lemma WindowBound(cfg: Config, maxAge: real, before: seq<Op>, window: seq<Op>, key: string, start: real)
    requires ConfigOk(cfg) && maxAge * Rate(cfg) >= Burst(cfg)
    requires window != [] && InOrder(before, start) && InOrder(window, End(before, start))
    ensures var cached := BucketsAfter(cfg, maxAge, true, map[], before);
            Count(window, Decisions(cfg, maxAge, true, cached, window), key) as real
            <= Burst(cfg) + Flow(cfg, window[0].now, End(window, start))
  {
    var all, cached := BucketsAfter(cfg, maxAge, false, map[], before), BucketsAfter(cfg, maxAge, true, map[], before);
    RunsAlike(cfg, maxAge, map[], map[], before, start);
    RunsAlike(cfg, maxAge, all, cached, window, End(before, start));
    var first := window[0].now;
    AvailableGrowsSlowly(cfg, all, key, End(before, start), first);
    AvailableGrowsSlowly(cfg, all, key, first, first);
    AdmittedArePaidFor(cfg, maxAge, all, window, key, first);
  }

  // ----- And only then

  lemma {:induction false} DecisionsConcat(cfg: Config, maxAge: real, evicts: bool, buckets: Buckets, a: seq<Op>,
                                           b: seq<Op>)
    ensures Decisions(cfg, maxAge, evicts, buckets, a + b)
         == Decisions(cfg, maxAge, evicts, buckets, a)
            + Decisions(cfg, maxAge, evicts, BucketsAfter(cfg, maxAge, evicts, buckets, a), b)
    decreases a
  {
    if a == [] {
      assert a + b == b;
    } else {
      assert (a + b)[1..] == a[1..] + b;
      DecisionsConcat(cfg, maxAge, evicts, Apply(cfg, maxAge, evicts, buckets, a[0]), a[1..], b);
    }
  }

  /** `n` requests of one key at one moment. */
  function Volley(n: nat, key: string, now: real): (ops: seq<Op>)
    ensures |ops| == n
  {
    if n == 0 then [] else [Request(now, key)] + Volley(n - 1, key, now)
  }

  /** While there are tokens, a volley is let through and uses them up. */
  lemma {:induction false} VolleyDrains(cfg: Config, maxAge: real, evicts: bool, buckets: Buckets, n: nat, key: string,
                                        now: real)
    requires ConfigOk(cfg) && BucketsOk(cfg, buckets, now) && n as real <= Available(cfg, buckets, key, now)
    ensures var ops := Volley(n, key, now);
            && Count(ops, Decisions(cfg, maxAge, evicts, buckets, ops), key) == n
            && InOrder(ops, now) && End(ops, now) == now
            && BucketsOk(cfg, BucketsAfter(cfg, maxAge, evicts, buckets, ops), now)
            && Available(cfg, BucketsAfter(cfg, maxAge, evicts, buckets, ops), key, now)
               == Available(cfg, buckets, key, now) - n as real
    decreases n
  {
    if n > 0 {
      var ops := Volley(n, key, now);
      var next := AfterRequest(cfg, buckets, key, now);
      FlowGrows(cfg, now, now, now);
      RequestSpends(cfg, buckets, key, key, now);
      assert Admits(cfg, buckets, key, now);
      assert ops[1..] == Volley(n - 1, key, now);
      VolleyDrains(cfg, maxAge, evicts, next, n - 1, key, now);
      assert Decisions(cfg, maxAge, evicts, buckets, ops)[1..] == Decisions(cfg, maxAge, evicts, next, ops[1..]);
    }
  }

  /** A moment after `maxAge` at which an empty bucket is not yet full. */
  lemma MomentBetween(cfg: Config, maxAge: real) returns (e: real)
    requires ConfigOk(cfg) && 0.0 <= maxAge && maxAge * Rate(cfg) < Burst(cfg)
    ensures e > maxAge && Flow(cfg, 0.0, e) < Burst(cfg)
  {
    RatePositive(cfg);
    e := maxAge + (Burst(cfg) - maxAge * Rate(cfg)) / (2.0 * Rate(cfg));
    assert e * Rate(cfg) == maxAge * Rate(cfg) + (Burst(cfg) - maxAge * Rate(cfg)) / 2.0;
  }

  lemma CountDiffers(ops: seq<Op>, x: seq<bool>, y: seq<bool>, key: string)
    requires |ops| == |x| == |y| && Count(ops, x, key) != Count(ops, y, key)
    ensures x != y
  {
  }

  /** After a volley the bucket was last used at that moment. */
  lemma {:induction false} VolleyState(cfg: Config, maxAge: real, evicts: bool, buckets: Buckets, n: nat, key: string,
                                       now: real)
    requires forall k :: k in buckets ==> buckets[k].lastAccess == now
    ensures forall k :: k in BucketsAfter(cfg, maxAge, evicts, buckets, Volley(n, key, now)) ==>
              BucketsAfter(cfg, maxAge, evicts, buckets, Volley(n, key, now))[k].lastAccess == now
    decreases n
  {
    if n > 0 {
      assert Volley(n, key, now)[1..] == Volley(n - 1, key, now);
      VolleyState(cfg, maxAge, evicts, AfterRequest(cfg, buckets, key, now), n - 1, key, now);
    }
  }

  lemma Compose(cfg: Config, maxAge: real, evicts: bool, first: seq<Op>, e: real, second: seq<Op>)
    ensures var state := BucketsAfter(cfg, maxAge, evicts, map[], first);
            Decisions(cfg, maxAge, evicts, map[], first + [Sweep(e)] + second)
            == Decisions(cfg, maxAge, evicts, map[], first) + [false]
               + Decisions(cfg, maxAge, evicts, Apply(cfg, maxAge, evicts, state, Sweep(e)), second)
  {
    assert first + [Sweep(e)] + second == first + ([Sweep(e)] + second);
    DecisionsConcat(cfg, maxAge, evicts, map[], first, [Sweep(e)] + second);
    assert ([Sweep(e)] + second)[1..] == second;
  }

  lemma {:induction false} OrderConcat(a: seq<Op>, b: seq<Op>, now: real)
    requires InOrder(a, now) && InOrder(b, End(a, now))
    ensures InOrder(a + b, now)
    decreases a
  {
    if a == [] {
      assert a + b == b;
    } else {
      assert (a + b)[1..] == a[1..] + b;
      assert End(a[1..], a[0].now) == End(a, now);
      OrderConcat(a[1..], b, a[0].now);
    }
  }

  /** The evicting limiter answers the second volley from a new bucket. */
  lemma SecondVolleyPasses(cfg: Config, maxAge: real, e: real, key: string)
    requires ConfigOk(cfg) && 0.0 <= maxAge < e
    ensures var n := cfg.burstSize;
            var swept := AfterSweep(BucketsAfter(cfg, maxAge, true, map[], Volley(n, key, 0.0)), maxAge, e);
            Count(Volley(n, key, e), Decisions(cfg, maxAge, true, swept, Volley(n, key, e)), key) == n
  {
    var n := cfg.burstSize;
    var swept := AfterSweep(BucketsAfter(cfg, maxAge, true, map[], Volley(n, key, 0.0)), maxAge, e);
    VolleyState(cfg, maxAge, true, map[], n, key, 0.0);
    assert swept == map[];
    VolleyDrains(cfg, maxAge, true, swept, n, key, e);
  }

  /** The one that keeps the bucket has not enough tokens for it. */
  lemma SecondVolleyStopped(cfg: Config, maxAge: real, e: real, key: string)
    requires ConfigOk(cfg) && 0.0 <= e && Flow(cfg, 0.0, e) < Burst(cfg)
    ensures var n := cfg.burstSize;
            var all := BucketsAfter(cfg, maxAge, false, map[], Volley(n, key, 0.0));
            Count(Volley(n, key, e), Decisions(cfg, maxAge, false, all, Volley(n, key, e)), key) < n
  {
    var n := cfg.burstSize;
    var all, second := BucketsAfter(cfg, maxAge, false, map[], Volley(n, key, 0.0)), Volley(n, key, e);
    VolleyDrains(cfg, maxAge, false, map[], n, key, 0.0);
    AvailableGrowsSlowly(cfg, all, key, 0.0, e);
    VolleyInOrder(n, key, e);
    AdmittedArePaidFor(cfg, maxAge, all, second, key, e);
    FlowGrows(cfg, e, e, e);
  }

  lemma {:induction false} VolleyInOrder(n: nat, key: string, now: real)
    ensures InOrder(Volley(n, key, now), now) && End(Volley(n, key, now), now) == now
  {
    if n > 0 {
      assert Volley(n, key, now)[1..] == Volley(n - 1, key, now);
      VolleyInOrder(n - 1, key, now);
    }
  }

  /**
   * If a bucket may be dropped before it has filled up, some run tells the difference: empty it, let a
   * sweep drop it a moment after `maxAge`, and ask again.
   */
  lemma EvictionVisibleOtherwise(cfg: Config, maxAge: real) returns (ops: seq<Op>)
    requires ConfigOk(cfg) && 0.0 <= maxAge && maxAge * Rate(cfg) < Burst(cfg)
    ensures InOrder(ops, 0.0)
    ensures Decisions(cfg, maxAge, true, map[], ops) != Decisions(cfg, maxAge, false, map[], ops)
  {
    var n, key := cfg.burstSize, "k";
    var e := MomentBetween(cfg, maxAge);
    ops := Volley(n, key, 0.0) + [Sweep(e)] + Volley(n, key, e);
    TwoVolleysInOrder(n, key, e);
    SecondVolleyPasses(cfg, maxAge, e, key);
    SecondVolleyStopped(cfg, maxAge, e, key);
    Compose(cfg, maxAge, true, Volley(n, key, 0.0), e, Volley(n, key, e));
    Compose(cfg, maxAge, false, Volley(n, key, 0.0), e, Volley(n, key, e));
    var x, y := Decisions(cfg, maxAge, true, map[], ops)[n + 1..], Decisions(cfg, maxAge, false, map[], ops)[n + 1..];
    CountDiffers(Volley(n, key, e), x, y, key);
  }

  lemma TwoVolleysInOrder(n: nat, key: string, e: real)
    requires e >= 0.0
    ensures InOrder(Volley(n, key, 0.0) + [Sweep(e)] + Volley(n, key, e), 0.0)
  {
    var first, second := Volley(n, key, 0.0), Volley(n, key, e);
    VolleyInOrder(n, key, 0.0);
    VolleyInOrder(n, key, e);
    assert ([Sweep(e)] + second)[1..] == second;
    OrderConcat(first, [Sweep(e)] + second, 0.0);
    assert first + [Sweep(e)] + second == first + ([Sweep(e)] + second);
  }
}
