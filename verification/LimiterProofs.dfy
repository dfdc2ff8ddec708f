/**
 * Runs of the login limiter pool against one immortal bucket per email.
 *
 * A call reads the clock twice: in `limiterPool.Get` and again inside
 * `Limiter.Allow`. The second reading is at most `lag` later than the first.
 */
module LimiterProofs {
  import opened Clock
  import opened RateLimiter

  datatype Call = Call(key: string, getAt: Time, allowAt: Time)

  /** One call at a time under a clock that never runs backwards. */
  ghost predicate Timely(calls: seq<Call>, now: Time, lag: nat) {
    calls == [] ||
    (now <= calls[0].getAt <= calls[0].allowAt <= calls[0].getAt + lag && Timely(calls[1..], calls[0].allowAt, lag))
  }

  /** The answers the pool gives to a run of calls. */
  function Decisions(cfg: Config, rate: Rate, pool: Pool, calls: seq<Call>): seq<bool>
    decreases |calls|
  {
    if calls == [] then []
    else
      var (after, ok) := Pass(cfg, pool, calls[0].key, rate, calls[0].getAt, calls[0].allowAt);
      [ok] + Decisions(cfg, rate, after, calls[1..])
  }

  type Immortal = map<string, Bucket>

  /** A bucket that is never evicted; an email not seen yet has a full one. */
  function BucketOf(imm: Immortal, rate: Rate, key: string): Bucket {
    if key in imm then imm[key] else NewBucket(rate)
  }

  /** The answers the reference gives: one bucket per email, kept for ever. */
  function ImmortalDecisions(rate: Rate, imm: Immortal, calls: seq<Call>): seq<bool>
    decreases |calls|
  {
    if calls == [] then []
    else
      var (b, ok) := Allow(BucketOf(imm, rate, calls[0].key), calls[0].allowAt);
      [ok] + ImmortalDecisions(rate, imm[calls[0].key := b], calls[1..])
  }

  /**
   * The ttl outlasts every refill: a bucket last consulted `lag` after its
   * entry was touched is full again when the entry can be swept.
   */
  predicate TtlCovers(ttl: int, rate: Rate, lag: nat) {
    && rate.Cap() + (if lag < rate.interval then lag else rate.interval) <= ttl + 1
    && lag + rate.interval <= ttl + 1
  }

  /** A bucket whose fields a run of calls up to `now` can have produced. */
  ghost predicate Sane(b: Bucket, rate: Rate, now: Time) {
    b.rate == rate && 0 <= b.credit <= rate.Cap() && (b.last <= now || b.credit == rate.Cap())
  }

  /** The pool's bucket and the immortal one answer alike from `now` on. */
  ghost predicate Alike(b: Bucket, imm: Bucket, rate: Rate, now: Time) {
    Sane(b, rate, now) && Sane(imm, rate, now) && Level(b, now) == Level(imm, now)
  }

  lemma LevelLater(b: Bucket, rate: Rate, now: Time, later: Time)
    requires Sane(b, rate, now) && now <= later
    ensures Level(b, later) == if Level(b, now) + (later - now) < rate.Cap()
        then Level(b, now) + (later - now) else rate.Cap()
    ensures 0 <= Level(b, now) <= rate.Cap()
  {
  }

  lemma AllowAlike(b: Bucket, imm: Bucket, rate: Rate, now: Time, t: Time)
    requires Alike(b, imm, rate, now) && now <= t
    ensures Allow(b, t).1 == Allow(imm, t).1
    ensures Alike(Allow(b, t).0, Allow(imm, t).0, rate, t)
  {
    LevelLater(b, rate, now, t);
    LevelLater(imm, rate, now, t);
  }

  /** What holds of one email in the pool and in the reference between two calls. */
  ghost predicate KeyTracks(rate: Rate, pool: Pool, b: Bucket, k: string, now: Time) {
    && Sane(b, rate, now)
    && (if k in pool then Alike(pool[k].bucket, b, rate, now) && FullAfter(b, rate, pool[k].exp, now)
        else Level(b, now) == rate.Cap())
  }

  ghost predicate FullAfter(b: Bucket, rate: Rate, exp: Time, now: Time) {
    forall t :: exp < t && now <= t ==> Level(b, t) == rate.Cap()
  }

  ghost predicate Tracks(rate: Rate, pool: Pool, imm: Immortal, now: Time) {
    forall k :: KeyTracks(rate, pool, BucketOf(imm, rate, k), k, now)
  }

  lemma KeyTracksLater(rate: Rate, pool: Pool, b: Bucket, k: string, now: Time, later: Time)
    requires KeyTracks(rate, pool, b, k, now) && now <= later
    ensures KeyTracks(rate, pool, b, k, later)
  {
    LevelLater(b, rate, now, later);
    if k in pool {
      LevelLater(pool[k].bucket, rate, now, later);
    }
  }

  /** After one call the bucket is full again by the time its entry can be swept. */
  lemma FullByExpiry(rate: Rate, ttl: int, lag: nat, b: Bucket, getAt: Time, allowAt: Time)
    requires TtlCovers(ttl, rate, lag)
    requires Sane(b, rate, getAt)
    requires getAt <= allowAt <= getAt + lag
    ensures FullAfter(Allow(b, allowAt).0, rate, getAt + ttl, allowAt)
  {
    forall t | getAt + ttl < t && allowAt <= t
      ensures Level(Allow(b, allowAt).0, t) == rate.Cap()
    {
      LevelLater(b, rate, getAt, allowAt);
      LevelLater(b, rate, getAt, t);
    }
  }

  /** The email that is called. */
  lemma CalledKeyTracks(cfg: Config, rate: Rate, lag: nat, pool: Pool, b: Bucket, call: Call)
    requires TtlCovers(cfg.ttl, rate, lag)
    requires KeyTracks(rate, pool, b, call.key, call.getAt)
    requires call.getAt <= call.allowAt <= call.getAt + lag
    ensures var (after, ok) := Pass(cfg, pool, call.key, rate, call.getAt, call.allowAt);
            ok == Allow(b, call.allowAt).1 && KeyTracks(rate, after, Allow(b, call.allowAt).0, call.key, call.allowAt)
  {
    var got := Get(cfg, pool, call.key, rate, call.getAt);
    assert Alike(got[call.key].bucket, b, rate, call.getAt);
    AllowAlike(got[call.key].bucket, b, rate, call.getAt, call.allowAt);
    FullByExpiry(rate, cfg.ttl, lag, b, call.getAt, call.allowAt);
  }

  /** Every other email, swept or not. */
  lemma OtherKeyTracks(cfg: Config, rate: Rate, pool: Pool, b: Bucket, call: Call, k: string)
    requires k != call.key
    requires KeyTracks(rate, pool, b, k, call.getAt)
    requires call.getAt <= call.allowAt
    ensures KeyTracks(rate, Pass(cfg, pool, call.key, rate, call.getAt, call.allowAt).0, b, k, call.allowAt)
  {
    var after := Pass(cfg, pool, call.key, rate, call.getAt, call.allowAt).0;
    assert k in after ==> k in pool && after[k] == pool[k];
    assert k in pool && k !in after ==> pool[k].exp < call.getAt;
    assert KeyTracks(rate, after, b, k, call.getAt);
    KeyTracksLater(rate, after, b, k, call.getAt, call.allowAt);
  }

  lemma TracksCall(cfg: Config, rate: Rate, lag: nat, pool: Pool, imm: Immortal, now: Time, call: Call)
    requires TtlCovers(cfg.ttl, rate, lag)
    requires Tracks(rate, pool, imm, now)
    requires now <= call.getAt <= call.allowAt <= call.getAt + lag
    ensures var (after, ok) := Pass(cfg, pool, call.key, rate, call.getAt, call.allowAt);
            var (b, ok') := Allow(BucketOf(imm, rate, call.key), call.allowAt);
            ok == ok' && Tracks(rate, after, imm[call.key := b], call.allowAt)
  {
    var (after, ok) := Pass(cfg, pool, call.key, rate, call.getAt, call.allowAt);
    var (b, ok') := Allow(BucketOf(imm, rate, call.key), call.allowAt);
    var imm' := imm[call.key := b];
    KeyTracksLater(rate, pool, BucketOf(imm, rate, call.key), call.key, now, call.getAt);
    CalledKeyTracks(cfg, rate, lag, pool, BucketOf(imm, rate, call.key), call);
    forall k
      ensures KeyTracks(rate, after, BucketOf(imm', rate, k), k, call.allowAt)
    {
      if k != call.key {
        KeyTracksLater(rate, pool, BucketOf(imm, rate, k), k, now, call.getAt);
        OtherKeyTracks(cfg, rate, pool, BucketOf(imm, rate, k), call, k);
        assert BucketOf(imm', rate, k) == BucketOf(imm, rate, k);
      }
    }
  }

  lemma {:induction false} TracksRun(cfg: Config, rate: Rate, lag: nat, pool: Pool, imm: Immortal, now: Time,
      calls: seq<Call>)
    requires TtlCovers(cfg.ttl, rate, lag)
    requires Tracks(rate, pool, imm, now)
    requires Timely(calls, now, lag)
    ensures Decisions(cfg, rate, pool, calls) == ImmortalDecisions(rate, imm, calls)
    decreases |calls|
  {
    if calls != [] {
      var call := calls[0];
      TracksCall(cfg, rate, lag, pool, imm, now, call);
      var (after, ok) := Pass(cfg, pool, call.key, rate, call.getAt, call.allowAt);
      var (b, ok') := Allow(BucketOf(imm, rate, call.key), call.allowAt);
      TracksRun(cfg, rate, lag, after, imm[call.key := b], call.allowAt, calls[1..]);
    }
  }

  /** Eviction is unobservable in every run, for every pool size, when the ttl outlasts the refill. */
  lemma EvictionUnobservable(cfg: Config, rate: Rate, lag: nat, now: Time, calls: seq<Call>)
    requires TtlCovers(cfg.ttl, rate, lag)
    requires Timely(calls, now, lag)
    ensures Decisions(cfg, rate, map[], calls) == ImmortalDecisions(rate, map[], calls)
  {
    assert Tracks(rate, map[], map[], now);
    TracksRun(cfg, rate, lag, map[], map[], now, calls);
  }

  // ---------- the ttl condition is exact ----------

  function PoolAfter(cfg: Config, rate: Rate, pool: Pool, calls: seq<Call>): Pool
    decreases |calls|
  {
    if calls == [] then pool
    else PoolAfter(cfg, rate, Pass(cfg, pool, calls[0].key, rate, calls[0].getAt, calls[0].allowAt).0, calls[1..])
  }

  function ImmortalAfter(rate: Rate, imm: Immortal, calls: seq<Call>): Immortal
    decreases |calls|
  {
    if calls == [] then imm
    else ImmortalAfter(rate, imm[calls[0].key := Allow(BucketOf(imm, rate, calls[0].key), calls[0].allowAt).0],
        calls[1..])
  }

  lemma {:induction false} SplitPool(cfg: Config, rate: Rate, pool: Pool, xs: seq<Call>, ys: seq<Call>)
    ensures |Decisions(cfg, rate, pool, xs)| == |xs|
    ensures Decisions(cfg, rate, pool, xs + ys) == Decisions(cfg, rate, pool, xs)
        + Decisions(cfg, rate, PoolAfter(cfg, rate, pool, xs), ys)
    ensures PoolAfter(cfg, rate, pool, xs + ys) == PoolAfter(cfg, rate, PoolAfter(cfg, rate, pool, xs), ys)
    decreases |xs|
  {
    hide Pass;
    if xs == [] {
      assert xs + ys == ys;
    } else {
      var c := xs[0];
      var after := Pass(cfg, pool, c.key, rate, c.getAt, c.allowAt).0;
      SplitPool(cfg, rate, after, xs[1..], ys);
      assert (xs + ys)[0] == c && (xs + ys)[1..] == xs[1..] + ys;
    }
  }

  lemma {:induction false} SplitImmortal(rate: Rate, imm: Immortal, xs: seq<Call>, ys: seq<Call>)
    ensures |ImmortalDecisions(rate, imm, xs)| == |xs|
    ensures ImmortalDecisions(rate, imm, xs + ys) == ImmortalDecisions(rate, imm, xs)
        + ImmortalDecisions(rate, ImmortalAfter(rate, imm, xs), ys)
    ensures ImmortalAfter(rate, imm, xs + ys) == ImmortalAfter(rate, ImmortalAfter(rate, imm, xs), ys)
    decreases |xs|
  {
    hide Allow, BucketOf;
    if xs == [] {
      assert xs + ys == ys;
    } else {
      var c := xs[0];
      SplitImmortal(rate, imm[c.key := Allow(BucketOf(imm, rate, c.key), c.allowAt).0], xs[1..], ys);
      assert (xs + ys)[0] == c && (xs + ys)[1..] == xs[1..] + ys;
    }
  }

  /** `n` calls for one email at one instant. */
  function Burst(key: string, t: Time, n: nat): seq<Call> {
    if n == 0 then [] else [Call(key, t, t)] + Burst(key, t, n - 1)
  }

  function AllAllowed(n: nat): seq<bool> {
    if n == 0 then [] else [true] + AllAllowed(n - 1)
  }

  lemma OneLess(n: nat, interval: nat)
    requires n != 0
    ensures n * interval == (n - 1) * interval + interval && 0 <= (n - 1) * interval
  {
  }

  /** One call that the bucket can pay for. */
  lemma Spend(rate: Rate, b: Bucket, t: Time)
    requires 1 <= rate.burst && Sane(b, rate, t) && rate.interval <= Level(b, t)
    ensures var (b', ok) := Allow(b, t);
            ok && Sane(b', rate, t) && Level(b', t) == Level(b, t) - rate.interval
  {
    LevelLater(b, rate, t, t);
  }

  lemma CapCovers(rate: Rate)
    requires 1 <= rate.burst
    ensures rate.interval <= rate.Cap()
  {
    assert rate.Cap() == (rate.burst - 1) * rate.interval + rate.interval;
    assert 0 <= (rate.burst - 1) * rate.interval;
  }

  /** A burst the bucket can pay for leaves the difference. */
  lemma {:induction false} BurstSpends(rate: Rate, imm: Immortal, key: string, t: Time, n: nat)
    requires 1 <= rate.burst
    requires Sane(BucketOf(imm, rate, key), rate, t) && n * rate.interval <= Level(BucketOf(imm, rate, key), t)
    ensures var b := BucketOf(ImmortalAfter(rate, imm, Burst(key, t, n)), rate, key);
            Sane(b, rate, t) && Level(b, t) == Level(BucketOf(imm, rate, key), t) - n * rate.interval
    decreases n
  {
    hide Level, Allow, Sane;
    if n != 0 {
      var b := BucketOf(imm, rate, key);
      OneLess(n, rate.interval);
      Spend(rate, b, t);
      var imm' := imm[key := Allow(b, t).0];
      BurstSpends(rate, imm', key, t, n - 1);
      assert Burst(key, t, n)[1..] == Burst(key, t, n - 1);
    }
  }

  /** A burst the bucket cannot pay for is not wholly allowed. */
  lemma {:induction false} BurstRefused(rate: Rate, imm: Immortal, key: string, t: Time, n: nat)
    requires 1 <= rate.burst
    requires Sane(BucketOf(imm, rate, key), rate, t) && Level(BucketOf(imm, rate, key), t) < n * rate.interval
    ensures ImmortalDecisions(rate, imm, Burst(key, t, n)) != AllAllowed(n)
    decreases n
  {
    var b := BucketOf(imm, rate, key);
    LevelLater(b, rate, t, t);
    var imm' := imm[key := Allow(b, t).0];
    var answers := ImmortalDecisions(rate, imm, Burst(key, t, n));
    assert Burst(key, t, n)[1..] == Burst(key, t, n - 1);
    assert answers == [Allow(b, t).1] + ImmortalDecisions(rate, imm', Burst(key, t, n - 1));
    if Allow(b, t).1 {
      assert n * rate.interval == (n - 1) * rate.interval + rate.interval;
      BurstRefused(rate, imm', key, t, n - 1);
      assert answers[1..] == ImmortalDecisions(rate, imm', Burst(key, t, n - 1));
      assert AllAllowed(n)[1..] == AllAllowed(n - 1);
    } else {
      assert answers[0] != AllAllowed(n)[0];
    }
  }

  function PooledBucket(rate: Rate, pool: Pool, key: string): Bucket {
    if key in pool then pool[key].bucket else NewBucket(rate)
  }

  lemma PassAsksBucket(cfg: Config, rate: Rate, pool: Pool, key: string, t: Time)
    ensures var (after, ok) := Pass(cfg, pool, key, rate, t, t);
            var b := PooledBucket(rate, pool, key);
            PooledBucket(rate, after, key) == Allow(b, t).0 && ok == Allow(b, t).1
  {
  }

  /** The pool allows a whole burst its bucket, kept or new, can pay for. */
  lemma {:induction false} PoolAllowsBurst(cfg: Config, rate: Rate, pool: Pool, key: string, t: Time, n: nat)
    requires 1 <= rate.burst
    requires Sane(PooledBucket(rate, pool, key), rate, t)
        && n * rate.interval <= Level(PooledBucket(rate, pool, key), t)
    ensures Decisions(cfg, rate, pool, Burst(key, t, n)) == AllAllowed(n)
    decreases n
  {
    if n != 0 {
      var b := PooledBucket(rate, pool, key);
      LevelLater(b, rate, t, t);
      assert n * rate.interval == (n - 1) * rate.interval + rate.interval;
      assert 0 <= (n - 1) * rate.interval;
      var after := Pass(cfg, pool, key, rate, t, t).0;
      PassAsksBucket(cfg, rate, pool, key, t);
      hide Pass;
      PoolAllowsBurst(cfg, rate, after, key, t, n - 1);
      assert Burst(key, t, n)[1..] == Burst(key, t, n - 1);
    }
  }

  /** A pool of one email stays one under calls for it, and remembers the last touch. */
  lemma {:induction false} PoolOfOne(cfg: Config, rate: Rate, pool: Pool, key: string, t: Time, n: nat)
    requires cfg.maxKeys == 1 && pool.Keys <= {key} && 1 <= n
    ensures PoolAfter(cfg, rate, pool, Burst(key, t, n)).Keys == {key}
    decreases n
  {
    if pool.Keys == {} {
      assert |pool| == 0;
    }
    var after := Pass(cfg, pool, key, rate, t, t).0;
    assert after.Keys == {key};
    assert Burst(key, t, n)[1..] == Burst(key, t, n - 1);
    if 1 < n {
      PoolOfOne(cfg, rate, after, key, t, n - 1);
    }
  }

  lemma {:induction false} BurstTimely(key: string, t: Time, n: nat, rest: seq<Call>, now: Time, lag: nat)
    requires now <= t && Timely(rest, t, lag)
    requires n == 0 ==> t == now
    ensures Timely(Burst(key, t, n) + rest, now, lag)
    decreases n
  {
    if n == 0 {
      assert Burst(key, t, n) + rest == rest;
    } else {
      assert (Burst(key, t, n) + rest)[1..] == Burst(key, t, n - 1) + rest;
      BurstTimely(key, t, n - 1, rest, t, lag);
    }
  }

  /**
   * The run that tells an evicted bucket from an immortal one: spend the whole
   * burst, spend once more as late after the touch as the lag permits, let another
   * email sweep the entry the moment it expires, and ask for a whole burst again.
   */
  function Probe(ttl: nat, rate: Rate, lag: nat): seq<Call> {
    var h := if lag < rate.interval then rate.interval - lag else 0;
    var s := h + if lag < ttl + 1 then ttl + 1 else lag;
    Burst("a", 0, rate.burst) + [Call("a", h, h + lag), Call("b", s, s)] + Burst("a", s, rate.burst)
  }

  lemma CallTimely(c: Call, rest: seq<Call>, now: Time, lag: nat)
    requires now <= c.getAt <= c.allowAt <= c.getAt + lag && Timely(rest, c.allowAt, lag)
    ensures Timely([c] + rest, now, lag)
  {
    assert ([c] + rest)[1..] == rest;
  }

  lemma ProbeTimely(ttl: nat, rate: Rate, lag: nat)
    requires 1 <= rate.burst
    ensures Timely(Probe(ttl, rate, lag), 0, lag)
  {
    hide Burst, Timely;
    var h := if lag < rate.interval then rate.interval - lag else 0;
    var s := h + if lag < ttl + 1 then ttl + 1 else lag;
    var first, tail := Burst("a", 0, rate.burst), Burst("a", s, rate.burst);
    var late, other := Call("a", h, h + lag), Call("b", s, s);
    NoCalls(s, lag);
    BurstTimely("a", s, rate.burst, [], s, lag);
    assert tail + [] == tail;
    CallTimely(other, tail, h + lag, lag);
    CallTimely(late, [other] + tail, 0, lag);
    BurstTimely("a", 0, rate.burst, [late] + ([other] + tail), 0, lag);
    assert first + [late, other] + tail == first + ([late] + ([other] + tail));
  }

  lemma NoCalls(now: Time, lag: nat)
    ensures Timely([], now, lag)
  {
  }

  /** What the reference holds for "a" when the probe reaches its last burst. */
  lemma ProbeImmortal(ttl: nat, rate: Rate, lag: nat, h: Time, s: Time, imm: Immortal)
    requires 1 <= rate.burst && 1 <= rate.interval
    requires !TtlCovers(ttl, rate, lag)
    requires h == (if lag < rate.interval then rate.interval - lag else 0)
    requires s == h + if lag < ttl + 1 then ttl + 1 else lag
    requires Sane(BucketOf(imm, rate, "a"), rate, 0) && Level(BucketOf(imm, rate, "a"), 0) == 0
    ensures var b := Allow(BucketOf(imm, rate, "a"), h + lag).0;
            Sane(b, rate, s) && Level(b, s) < rate.Cap()
  {
    hide Rate.Cap;
    var b := BucketOf(imm, rate, "a");
    CapCovers(rate);
    LevelLater(b, rate, 0, h + lag);
    LevelLater(Allow(b, h + lag).0, rate, h + lag, s);
  }

  /** The pool has forgotten "a" when the probe reaches its last burst. */
  lemma ProbePool(cfg: Config, rate: Rate, lag: nat, h: Time, s: Time, pool: Pool)
    requires cfg.maxKeys == 1 && h + cfg.ttl < s
    requires pool.Keys == {"a"}
    ensures "a" !in Pass(cfg, Pass(cfg, pool, "a", rate, h, h + lag).0, "b", rate, s, s).0
  {
    var pool1 := Pass(cfg, pool, "a", rate, h, h + lag).0;
    assert pool1.Keys == {"a"} && |pool1| == |pool1.Keys| && pool1["a"].exp == h + cfg.ttl;
  }

  /** The two middle calls of the probe, one at a time. */
  lemma MiddleCalls(cfg: Config, rate: Rate, pool: Pool, imm: Immortal, c0: Call, c1: Call)
    requires c0.key != c1.key
    ensures PoolAfter(cfg, rate, pool, [c0, c1])
            == Pass(cfg, Pass(cfg, pool, c0.key, rate, c0.getAt, c0.allowAt).0, c1.key, rate, c1.getAt, c1.allowAt).0
    ensures BucketOf(ImmortalAfter(rate, imm, [c0, c1]), rate, c0.key)
        == Allow(BucketOf(imm, rate, c0.key), c0.allowAt).0
  {
    assert [c0, c1][1..] == [c1] && [c1][1..] == [];
    var pool1 := Pass(cfg, pool, c0.key, rate, c0.getAt, c0.allowAt).0;
    assert PoolAfter(cfg, rate, pool, [c0, c1]) == PoolAfter(cfg, rate, pool1, [c1]);
    var pool2 := Pass(cfg, pool1, c1.key, rate, c1.getAt, c1.allowAt).0;
    assert PoolAfter(cfg, rate, pool1, [c1]) == PoolAfter(cfg, rate, pool2, []);
    var imm1 := imm[c0.key := Allow(BucketOf(imm, rate, c0.key), c0.allowAt).0];
    assert ImmortalAfter(rate, imm, [c0, c1]) == ImmortalAfter(rate, imm1, [c1]);
    assert ImmortalAfter(rate, imm1, [c1]) == imm1[c1.key := Allow(BucketOf(imm1, rate, c1.key), c1.allowAt).0];
  }

  /** The last burst: wholly allowed by a pool that forgot "a", not by a bucket that is not full. */
  lemma LastBurstDiffers(cfg: Config, rate: Rate, pool: Pool, imm: Immortal, s: Time)
    requires 1 <= rate.burst
    requires "a" !in pool
    requires Sane(BucketOf(imm, rate, "a"), rate, s) && Level(BucketOf(imm, rate, "a"), s) < rate.Cap()
    ensures Decisions(cfg, rate, pool, Burst("a", s, rate.burst))
        != ImmortalDecisions(rate, imm, Burst("a", s, rate.burst))
  {
    BurstRefused(rate, imm, "a", s, rate.burst);
    assert Sane(NewBucket(rate), rate, s);
    PoolAllowsBurst(cfg, rate, pool, "a", s, rate.burst);
  }

  lemma SuffixDiffers<T>(a: seq<T>, b: seq<T>, x: seq<T>, y: seq<T>)
    requires |a| == |b| && x != y
    ensures a + x != b + y
  {
    assert (a + x)[|a|..] == x;
    assert (b + y)[|b|..] == y;
  }

  lemma DiffersAfter(cfg: Config, rate: Rate, xs: seq<Call>, s: Time)
    requires 1 <= rate.burst
    requires "a" !in PoolAfter(cfg, rate, map[], xs)
    requires var b := BucketOf(ImmortalAfter(rate, map[], xs), rate, "a"); Sane(b, rate, s) && Level(b, s) < rate.Cap()
    ensures Decisions(cfg, rate, map[], xs + Burst("a", s, rate.burst))
        != ImmortalDecisions(rate, map[], xs + Burst("a", s, rate.burst))
  {
    var tail := Burst("a", s, rate.burst);
    var pool, imm := PoolAfter(cfg, rate, map[], xs), ImmortalAfter(rate, map[], xs);
    SplitPool(cfg, rate, map[], xs, tail);
    SplitImmortal(rate, map[], xs, tail);
    LastBurstDiffers(cfg, rate, pool, imm, s);
    SuffixDiffers(Decisions(cfg, rate, map[], xs), ImmortalDecisions(rate, map[], xs),
                  Decisions(cfg, rate, pool, tail), ImmortalDecisions(rate, imm, tail));
  }

  lemma ProbePoolPrefix(ttl: nat, rate: Rate, lag: nat, h: Time, s: Time)
    requires 1 <= rate.burst && h + ttl < s
    ensures "a" !in PoolAfter(Config(ttl, 1), rate, map[],
        Burst("a", 0, rate.burst) + [Call("a", h, h + lag), Call("b", s, s)])
  {
    var cfg := Config(ttl, 1);
    var first, c0, c1 := Burst("a", 0, rate.burst), Call("a", h, h + lag), Call("b", s, s);
    PoolOfOne(cfg, rate, map[], "a", 0, rate.burst);
    var pool := PoolAfter(cfg, rate, map[], first);
    ProbePool(cfg, rate, lag, h, s, pool);
    MiddleCalls(cfg, rate, pool, map[], c0, c1);
    SplitPool(cfg, rate, map[], first, [c0, c1]);
  }

  lemma ProbeImmortalPrefix(ttl: nat, rate: Rate, lag: nat, h: Time, s: Time)
    requires 1 <= rate.burst && 1 <= rate.interval
    requires !TtlCovers(ttl, rate, lag)
    requires h == (if lag < rate.interval then rate.interval - lag else 0)
    requires s == h + if lag < ttl + 1 then ttl + 1 else lag
    ensures var b := BucketOf(ImmortalAfter(rate, map[],
        Burst("a", 0, rate.burst) + [Call("a", h, h + lag), Call("b", s, s)]), rate, "a");
            Sane(b, rate, s) && Level(b, s) < rate.Cap()
  {
    var first, c0, c1 := Burst("a", 0, rate.burst), Call("a", h, h + lag), Call("b", s, s);
    assert Level(BucketOf(map[], rate, "a"), 0) == rate.burst * rate.interval;
    BurstSpends(rate, map[], "a", 0, rate.burst);
    var imm := ImmortalAfter(rate, map[], first);
    ProbeImmortal(ttl, rate, lag, h, s, imm);
    MiddleCalls(Config(ttl, 1), rate, map[], imm, c0, c1);
    SplitImmortal(rate, map[], first, [c0, c1]);
  }

  /** Without the ttl condition the probe's answers give the eviction away. */
  lemma EvictionObservable(ttl: nat, rate: Rate, lag: nat)
    requires 1 <= rate.burst && 1 <= rate.interval
    requires !TtlCovers(ttl, rate, lag)
    ensures Timely(Probe(ttl, rate, lag), 0, lag)
    ensures Decisions(Config(ttl, 1), rate, map[], Probe(ttl, rate, lag))
        != ImmortalDecisions(rate, map[], Probe(ttl, rate, lag))
  {
    ProbeTimely(ttl, rate, lag);
    var h := if lag < rate.interval then rate.interval - lag else 0;
    var s := h + if lag < ttl + 1 then ttl + 1 else lag;
    ProbePoolPrefix(ttl, rate, lag, h, s);
    ProbeImmortalPrefix(ttl, rate, lag, h, s);
    DiffersAfter(Config(ttl, 1), rate, Burst("a", 0, rate.burst) + [Call("a", h, h + lag), Call("b", s, s)], s);
  }

  /** Exactly when no run of any pool size can tell the pool from immortal buckets. */
  ghost predicate Unobservable(ttl: nat, rate: Rate, lag: nat) {
    forall maxKeys: int, calls: seq<Call> :: Timely(calls, 0, lag) ==>
      Decisions(Config(ttl, maxKeys), rate, map[], calls) == ImmortalDecisions(rate, map[], calls)
  }

  lemma EvictionUnobservableExactly(ttl: nat, rate: Rate, lag: nat)
    requires 1 <= rate.burst && 1 <= rate.interval
    ensures Unobservable(ttl, rate, lag) <==> TtlCovers(ttl, rate, lag)
  {
    if TtlCovers(ttl, rate, lag) {
      forall maxKeys: int, calls: seq<Call> | Timely(calls, 0, lag)
        ensures Decisions(Config(ttl, maxKeys), rate, map[], calls) == ImmortalDecisions(rate, map[], calls)
      {
        EvictionUnobservable(Config(ttl, maxKeys), rate, lag, 0, calls);
      }
    } else {
      EvictionObservable(ttl, rate, lag);
    }
  }

  // ---------- how many calls pass ----------

  /** Calls for `key` that were allowed at a time in `[from, to]`. */
  function Passed(calls: seq<Call>, answers: seq<bool>, key: string, from: Time, to: Time): nat
    requires |calls| == |answers|
    decreases |calls|
  {
    if calls == [] then 0
    else (if answers[0] && calls[0].key == key && from <= calls[0].allowAt <= to then 1 else 0)
         + Passed(calls[1..], answers[1..], key, from, to)
  }

  /** Credit a bucket can still hand out inside the window, seen at time `now`. */
  function Budget(b: Bucket, now: Time, from: Time, to: Time): int {
    if now < from then b.rate.Cap() + (to - from)
    else if now <= to then Level(b, now) + (to - now)
    else 0
  }

  /** One call costs the window's budget at least what it hands out. */
  lemma BudgetStep(rate: Rate, b: Bucket, now: Time, t: Time, from: Time, to: Time)
    requires Sane(b, rate, now) && now <= t && from <= to
    ensures Sane(b, rate, t) && Sane(Allow(b, t).0, rate, t)
    ensures 0 <= Budget(b, now, from, to)
    ensures Budget(b, t, from, to) <= Budget(b, now, from, to)
    ensures Budget(Allow(b, t).0, t, from, to)
            + (if Allow(b, t).1 && from <= t <= to then rate.interval else 0) <= Budget(b, now, from, to)
  {
    LevelLater(b, rate, now, t);
  }

  lemma {:induction false} PassedWithinBudget(rate: Rate, imm: Immortal, calls: seq<Call>, key: string, now: Time,
      lag: nat, from: Time, to: Time)
    requires from <= to
    requires Timely(calls, now, lag)
    requires forall k :: Sane(BucketOf(imm, rate, k), rate, now)
    ensures |ImmortalDecisions(rate, imm, calls)| == |calls|
    ensures Passed(calls, ImmortalDecisions(rate, imm, calls), key, from, to) * rate.interval
            <= Budget(BucketOf(imm, rate, key), now, from, to)
    decreases |calls|
  {
    hide Level, Allow, Budget;
    BudgetStep(rate, BucketOf(imm, rate, key), now, now, from, to);
    if calls != [] {
      var call, t := calls[0], calls[0].allowAt;
      var (now', ok) := Allow(BucketOf(imm, rate, call.key), t);
      var imm' := imm[call.key := now'];
      forall k
        ensures Sane(BucketOf(imm', rate, k), rate, t)
        ensures BucketOf(imm', rate, k) == if k == call.key then now' else BucketOf(imm, rate, k)
      {
        BudgetStep(rate, BucketOf(imm, rate, k), now, t, from, to);
      }
      PassedWithinBudget(rate, imm', calls[1..], key, t, lag, from, to);
      var answers := ImmortalDecisions(rate, imm', calls[1..]);
      assert ImmortalDecisions(rate, imm, calls)[1..] == answers;
      BudgetStep(rate, BucketOf(imm, rate, key), now, t, from, to);
      var rest := Passed(calls[1..], answers, key, from, to);
      assert (rest + 1) * rate.interval == rest * rate.interval + rate.interval;
    }
  }

  lemma WithinRate(n: nat, rate: Rate, window: nat)
    requires 1 <= rate.interval && n * rate.interval <= rate.burst * rate.interval + window
    ensures n <= rate.burst + window / rate.interval
  {
    var q := window / rate.interval;
    var excess := n - rate.burst - q - 1;
    assert n * rate.interval == rate.burst * rate.interval + q * rate.interval + rate.interval + excess * rate.interval;
    assert window < q * rate.interval + rate.interval;
    if 0 <= excess {
      assert false;
    }
  }

  /**
   * At most `burst + floor(T / interval)` calls for an email pass in any window of
   * length T, whatever is evicted and re-created on the way.
   */
  lemma RateBound(cfg: Config, rate: Rate, lag: nat, now: Time, calls: seq<Call>, key: string, from: Time, to: Time)
    requires TtlCovers(cfg.ttl, rate, lag) && 1 <= rate.interval
    requires Timely(calls, now, lag) && from <= to
    ensures |Decisions(cfg, rate, map[], calls)| == |calls|
    ensures Passed(calls, Decisions(cfg, rate, map[], calls), key, from, to) <= rate.burst + (to - from) / rate.interval
  {
    EvictionUnobservable(cfg, rate, lag, now, calls);
    assert forall k :: BucketOf(map[], rate, k) == NewBucket(rate);
    assert Sane(NewBucket(rate), rate, now);
    PassedWithinBudget(rate, map[], calls, key, now, lag, from, to);
    WithinRate(Passed(calls, Decisions(cfg, rate, map[], calls), key, from, to), rate, to - from);
  }

  /** The service's own numbers: burst 10, a token each 200 ms, ttl ten minutes. */
  const LOGIN_RATE := Rate(200 * MILLISECOND, 10)
  const LOGIN_TTL := 10 * MINUTE

  /** They meet the condition up to a lag of 599.8 seconds between the two clock readings. */
  lemma LoginTtlCovers(lag: nat)
    ensures TtlCovers(LOGIN_TTL, LOGIN_RATE, lag) <==> lag <= 10 * MINUTE - 200 * MILLISECOND + 1
  {
  }
}
