/** Exactly which requests the limiter turns away. */
module RateWindows {
  import opened RateLimit

  // ----- Runs, one operation at a time

  function StateAt(cfg: Config, ops: seq<Op>, k: nat): Buckets
    requires k <= |ops|
  {
    if k == 0 then map[] else Apply(cfg, 0.0, false, StateAt(cfg, ops, k - 1), ops[k - 1])
  }

  lemma {:induction false} AfterSnoc(cfg: Config, maxAge: real, buckets: Buckets, ops: seq<Op>, op: Op)
    ensures BucketsAfter(cfg, maxAge, false, buckets, ops + [op])
         == Apply(cfg, maxAge, false, BucketsAfter(cfg, maxAge, false, buckets, ops), op)
    decreases ops
  {
    if ops == [] {
      assert [op][1..] == [] && ops + [op] == [op];
    } else {
      assert (ops + [op])[1..] == ops[1..] + [op];
      AfterSnoc(cfg, maxAge, Apply(cfg, maxAge, false, buckets, ops[0]), ops[1..], op);
    }
  }

  lemma {:induction false} StateIsAfter(cfg: Config, maxAge: real, ops: seq<Op>, k: nat)
    requires k <= |ops|
    ensures StateAt(cfg, ops, k) == BucketsAfter(cfg, maxAge, false, map[], ops[..k])
  {
    if k > 0 {
      StateIsAfter(cfg, maxAge, ops, k - 1);
      assert ops[..k] == ops[..k - 1] + [ops[k - 1]];
      AfterSnoc(cfg, maxAge, map[], ops[..k - 1], ops[k - 1]);
    }
  }

  lemma DecisionIs(cfg: Config, maxAge: real, ops: seq<Op>, k: nat)
    requires k < |ops|
    ensures Decisions(cfg, maxAge, false, map[], ops)[k] == Passes(cfg, StateAt(cfg, ops, k), ops[k])
  {
    assert ops == ops[..k] + ops[k..];
    DecisionsConcat(cfg, maxAge, false, map[], ops[..k], ops[k..]);
    StateIsAfter(cfg, maxAge, ops, k);
  }

  ghost predicate Ordered(ops: seq<Op>, now: real) {
    && (forall i :: 0 <= i < |ops| ==> now <= ops[i].now)
    && forall i, j :: 0 <= i <= j < |ops| ==> ops[i].now <= ops[j].now
  }

  lemma {:induction false} InOrderIsOrdered(ops: seq<Op>, now: real)
    requires InOrder(ops, now)
    ensures Ordered(ops, now)
    decreases ops
  {
    if ops != [] {
      InOrderIsOrdered(ops[1..], ops[0].now);
      assert forall i :: 1 <= i < |ops| ==> ops[i] == ops[1..][i - 1];
    }
  }

  function Time(ops: seq<Op>, k: nat, start: real): real
    requires k <= |ops|
  {
    if k == 0 then start else ops[k - 1].now
  }

  // ----- How many tokens there are

  /** The requests of `key` let through from operation `m` to before `k`. */
  function Admitted(cfg: Config, ops: seq<Op>, key: string, m: nat, k: nat): nat
    requires m <= k <= |ops|
    decreases k
  {
    if m == k then 0
    else Admitted(cfg, ops, key, m, k - 1) + if Lets(cfg, ops, key, k - 1) then 1 else 0
  }

  /** Operation `i` is a request of `key`, and is let through. */
  predicate Lets(cfg: Config, ops: seq<Op>, key: string, i: nat)
    requires i < |ops|
  {
    ops[i].Request? && ops[i].key == key && Admits(cfg, StateAt(cfg, ops, i), key, ops[i].now)
  }

  /** What a window that began with a full bucket at operation `m` leaves at `now`. */
  function Left(cfg: Config, ops: seq<Op>, key: string, m: nat, k: nat, now: real): real
    requires m < k <= |ops|
  {
    Burst(cfg) + Flow(cfg, ops[m].now, now) - Admitted(cfg, ops, key, m, k) as real
  }

  /** The bucket is full, or holds what the window since it was last full leaves. */
  ghost predicate Accounted(cfg: Config, ops: seq<Op>, key: string, k: nat, now: real)
    requires k <= |ops|
  {
    || Available(cfg, StateAt(cfg, ops, k), key, now) == Burst(cfg)
    || exists m :: 0 <= m < k && Available(cfg, StateAt(cfg, ops, k), key, now) == Left(cfg, ops, key, m, k, now)
  }

  /** Time fills a bucket at its rate until it is full. */
  lemma AvailableLater(cfg: Config, buckets: Buckets, key: string, now: real, later: real)
    requires ConfigOk(cfg) && BucketsOk(cfg, buckets, now) && now <= later
    ensures var sum := Available(cfg, buckets, key, now) + Flow(cfg, now, later);
            Available(cfg, buckets, key, later) == if sum > Burst(cfg) then Burst(cfg) else sum
  {
    FlowGrows(cfg, now, now, later);
    if key in buckets {
      FlowGrows(cfg, buckets[key].lastRefill, now, later);
    }
  }

  lemma AccountedLater(cfg: Config, ops: seq<Op>, key: string, k: nat, now: real, later: real)
    requires ConfigOk(cfg) && k <= |ops| && BucketsOk(cfg, StateAt(cfg, ops, k), now) && now <= later
    requires Accounted(cfg, ops, key, k, now)
    ensures Accounted(cfg, ops, key, k, later)
  {
    AvailableLater(cfg, StateAt(cfg, ops, k), key, now, later);
    FlowGrows(cfg, now, now, later);
    var s := StateAt(cfg, ops, k);
    var before, after := Available(cfg, s, key, now), Available(cfg, s, key, later);
    if before != Burst(cfg) && after != Burst(cfg) {
      var m :| 0 <= m < k && before == Left(cfg, ops, key, m, k, now);
      FlowGrows(cfg, ops[m].now, now, later);
      assert after == Left(cfg, ops, key, m, k, later);
    }
  }

  lemma AccountedNext(cfg: Config, ops: seq<Op>, key: string, k: nat)
    requires ConfigOk(cfg) && k < |ops| && BucketsOk(cfg, StateAt(cfg, ops, k), ops[k].now)
    requires Accounted(cfg, ops, key, k, ops[k].now)
    ensures Accounted(cfg, ops, key, k + 1, ops[k].now)
  {
    var t, s, s' := ops[k].now, StateAt(cfg, ops, k), StateAt(cfg, ops, k + 1);
    FlowGrows(cfg, t, t, t);
    if ops[k].Request? {
      RequestSpends(cfg, s, ops[k].key, key, t);
    }
    var spent := if Lets(cfg, ops, key, k) then 1.0 else 0.0;
    assert Available(cfg, s', key, t) == Available(cfg, s, key, t) - spent;
    if Available(cfg, s, key, t) == Burst(cfg) {
      assert Admitted(cfg, ops, key, k, k) == 0;
      assert Left(cfg, ops, key, k, k + 1, t) == Burst(cfg) - spent;
    } else {
      var m :| 0 <= m < k && Available(cfg, s, key, t) == Left(cfg, ops, key, m, k, t);
      assert Left(cfg, ops, key, m, k + 1, t) == Left(cfg, ops, key, m, k, t) - spent;
    }
  }

  lemma {:induction false} AlwaysAccounted(cfg: Config, ops: seq<Op>, key: string, k: nat, start: real)
    requires ConfigOk(cfg) && Ordered(ops, start) && k <= |ops|
    ensures BucketsOk(cfg, StateAt(cfg, ops, k), Time(ops, k, start))
    ensures Accounted(cfg, ops, key, k, Time(ops, k, start))
  {
    if k > 0 {
      var now, t := Time(ops, k - 1, start), ops[k - 1].now;
      AlwaysAccounted(cfg, ops, key, k - 1, start);
      AvailableGrowsSlowly(cfg, StateAt(cfg, ops, k - 1), key, now, t);
      AccountedLater(cfg, ops, key, k - 1, now, t);
      AccountedNext(cfg, ops, key, k - 1);
      if ops[k - 1].Request? {
        RequestSpends(cfg, StateAt(cfg, ops, k - 1), ops[k - 1].key, key, t);
      }
    }
  }

  /** No window lets through more than a burst and what flows in; so what is left is never more than that. */
  lemma {:induction false} NeverMoreThanLeft(cfg: Config, ops: seq<Op>, key: string, m: nat, k: nat, start: real)
    requires ConfigOk(cfg) && Ordered(ops, start) && m < k <= |ops|
    ensures Available(cfg, StateAt(cfg, ops, k), key, ops[k - 1].now) <= Left(cfg, ops, key, m, k, ops[k - 1].now)
    decreases k
  {
    var t := ops[k - 1].now;
    var s := StateAt(cfg, ops, k - 1);
    AlwaysAccounted(cfg, ops, key, k - 1, start);
    AvailableGrowsSlowly(cfg, s, key, Time(ops, k - 1, start), t);
    AvailableGrowsSlowly(cfg, s, key, t, t);
    FlowGrows(cfg, t, t, t);
    if ops[k - 1].Request? {
      RequestSpends(cfg, s, ops[k - 1].key, key, t);
    }
    if m == k - 1 {
      assert Admitted(cfg, ops, key, m, m) == 0;
    } else {
      NeverMoreThanLeft(cfg, ops, key, m, k - 1, start);
      FlowGrows(cfg, ops[m].now, ops[k - 2].now, t);
    }
  }

  // ----- The theorem

  /** One more request at operation `k` would be more than the window from `m` on allows. */
  predicate WouldExceed(cfg: Config, ops: seq<Op>, key: string, m: nat, k: nat)
    requires m < k < |ops|
  {
    Admitted(cfg, ops, key, m, k) as real + 1.0 >
      cfg.burstSize as real + (ops[k].now - ops[m].now) * (cfg.requestsPerMinute as real / 60.0)
  }

  lemma ExceedsIsLeft(cfg: Config, ops: seq<Op>, key: string, m: nat, k: nat)
    requires m < k < |ops|
    ensures WouldExceed(cfg, ops, key, m, k) <==> Left(cfg, ops, key, m, k, ops[k].now) < 1.0
  {
  }

  lemma DeniedMeansExceeds(cfg: Config, ops: seq<Op>, key: string, k: nat, start: real) returns (m: nat)
    requires ConfigOk(cfg) && Ordered(ops, start) && k < |ops|
    requires Available(cfg, StateAt(cfg, ops, k), key, ops[k].now) < 1.0
    ensures m < k && WouldExceed(cfg, ops, key, m, k)
  {
    var t, s := ops[k].now, StateAt(cfg, ops, k);
    AlwaysAccounted(cfg, ops, key, k, start);
    AccountedLater(cfg, ops, key, k, Time(ops, k, start), t);
    RatePositive(cfg);
    m :| 0 <= m < k && Available(cfg, s, key, t) == Left(cfg, ops, key, m, k, t);
    ExceedsIsLeft(cfg, ops, key, m, k);
  }

  lemma ExceedsMeansDenied(cfg: Config, ops: seq<Op>, key: string, m: nat, k: nat, start: real)
    requires ConfigOk(cfg) && Ordered(ops, start) && m < k < |ops| && WouldExceed(cfg, ops, key, m, k)
    ensures Available(cfg, StateAt(cfg, ops, k), key, ops[k].now) < 1.0
  {
    ExceedsIsLeft(cfg, ops, key, m, k);
    NeverMoreThanLeft(cfg, ops, key, m, k, start);
    AlwaysAccounted(cfg, ops, key, k, start);
    AvailableGrowsSlowly(cfg, StateAt(cfg, ops, k), key, ops[k - 1].now, ops[k].now);
    FlowGrows(cfg, ops[m].now, ops[k - 1].now, ops[k].now);
  }

  lemma DenialOfKeeper(cfg: Config, ops: seq<Op>, k: nat, start: real)
    requires ConfigOk(cfg) && Ordered(ops, start) && k < |ops| && ops[k].Request?
    ensures !Admits(cfg, StateAt(cfg, ops, k), ops[k].key, ops[k].now) <==>
            exists m :: 0 <= m < k && WouldExceed(cfg, ops, ops[k].key, m, k)
  {
    var key, t, s := ops[k].key, ops[k].now, StateAt(cfg, ops, k);
    FlowGrows(cfg, t, t, t);
    assert Admits(cfg, s, key, t) <==> Available(cfg, s, key, t) >= 1.0 by {
      RatePositive(cfg);
    }
    if !Admits(cfg, s, key, t) {
      var m := DeniedMeansExceeds(cfg, ops, key, k, start);
    }
    forall m | 0 <= m < k && WouldExceed(cfg, ops, key, m, k)
      ensures !Admits(cfg, s, key, t)
    {
      ExceedsMeansDenied(cfg, ops, key, m, k, start);
    }
  }

  /**
   * The limiter turns a request away exactly when letting it through would put more than a burst, and a
   * sixtieth of the requests per minute for each second, into some window that ends with it.  What it
   * counts are the requests of the same key that it let through; that it drops buckets makes no difference.
   */
  lemma DeniedExactlyWhen(cfg: Config, maxAge: real, ops: seq<Op>, k: nat, start: real)
    requires ConfigOk(cfg) && maxAge * Rate(cfg) >= Burst(cfg) && InOrder(ops, start)
    requires k < |ops| && ops[k].Request?
    ensures !Decisions(cfg, maxAge, true, map[], ops)[k] <==>
            exists m :: 0 <= m < k && WouldExceed(cfg, ops, ops[k].key, m, k)
  {
    EvictionIsInvisible(cfg, maxAge, ops, start);
    DecisionIs(cfg, maxAge, ops, k);
    InOrderIsOrdered(ops, start);
    DenialOfKeeper(cfg, ops, k, start);
  }

  /** The requests it counts are those the evicting limiter decides to let through. */
  lemma {:induction false} AdmittedAreDecided(cfg: Config, maxAge: real, ops: seq<Op>, key: string, m: nat, k: nat,
                                              start: real)
    requires ConfigOk(cfg) && maxAge * Rate(cfg) >= Burst(cfg) && InOrder(ops, start) && m <= k <= |ops|
    ensures Admitted(cfg, ops, key, m, k) ==
            Decided(ops, Decisions(cfg, maxAge, true, map[], ops), key, m, k)
    decreases k
  {
    if m < k {
      AdmittedAreDecided(cfg, maxAge, ops, key, m, k - 1, start);
      EvictionIsInvisible(cfg, maxAge, ops, start);
      DecisionIs(cfg, maxAge, ops, k - 1);
    }
  }

  function Decided(ops: seq<Op>, decisions: seq<bool>, key: string, m: nat, k: nat): nat
    requires m <= k <= |ops| == |decisions|
    decreases k
  {
    if m == k then 0
    else
      Decided(ops, decisions, key, m, k - 1)
      + if ops[k - 1].Request? && ops[k - 1].key == key && decisions[k - 1] then 1 else 0
  }
}
