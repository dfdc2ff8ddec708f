/**
 * The rate law both ways (internal/user/service/service.go, Login's gate): which calls
 * are refused, from the times and answers of the calls before and nothing else.
 */
module RateLaw {
  import opened Clock
  import opened LimiterProofs
  import opened RateLimiter

  /** What is left of a full bucket and the refill since `from`, after the passed calls in `[from, to]`. */
  function Room(rate: Rate, calls: seq<Call>, answers: seq<bool>, key: string, from: Time, to: Time): int
    requires |calls| == |answers|
  {
    rate.burst * rate.interval + (to - from) - Passed(calls, answers, key, from, to) * rate.interval
  }

  /** One more call at `to` needs more than some window up to it leaves. */
  ghost predicate Exhausted(rate: Rate, calls: seq<Call>, answers: seq<bool>, key: string, to: Time)
    requires |calls| == |answers|
  {
    exists from :: from <= to && Room(rate, calls, answers, key, from, to) < rate.interval
  }

  /** The calls and answers so far account for the level: it is what the tightest window leaves. */
  ghost predicate Accounts(rate: Rate, calls: seq<Call>, answers: seq<bool>, key: string, b: Bucket, now: Time)
    requires |calls| == |answers|
  {
    && Sane(b, rate, now)
    && (forall k :: 0 <= k < |calls| ==> calls[k].allowAt <= now)
    && (forall from :: from <= now ==> Level(b, now) <= Room(rate, calls, answers, key, from, now))
    && exists from :: from <= now && Level(b, now) == Room(rate, calls, answers, key, from, now)
  }

  // ---------- counting ----------

  function Counts(c: Call, ok: bool, key: string, from: Time, to: Time): nat {
    if ok && c.key == key && from <= c.allowAt <= to then 1 else 0
  }

  lemma {:induction false} PassedMore(calls: seq<Call>, answers: seq<bool>, c: Call, ok: bool, key: string, from: Time,
                                      to: Time)
    requires |calls| == |answers|
    ensures Passed(calls + [c], answers + [ok], key, from, to)
            == Passed(calls, answers, key, from, to) + Counts(c, ok, key, from, to)
    decreases |calls|
  {
    if calls == [] {
      assert [c][1..] == [] && [ok][1..] == [];
      assert Passed([c][1..], [ok][1..], key, from, to) == 0;
    } else {
      assert (calls + [c])[1..] == calls[1..] + [c] && (answers + [ok])[1..] == answers[1..] + [ok];
      PassedMore(calls[1..], answers[1..], c, ok, key, from, to);
    }
  }

  /** Calls up to `now` are counted alike in every window that reaches `now`. */
  lemma {:induction false} PassedUpTo(calls: seq<Call>, answers: seq<bool>, key: string, from: Time, now: Time,
                                      to: Time)
    requires |calls| == |answers| && now <= to
    requires forall k :: 0 <= k < |calls| ==> calls[k].allowAt <= now
    ensures Passed(calls, answers, key, from, to) == Passed(calls, answers, key, from, now)
    ensures now < from ==> Passed(calls, answers, key, from, to) == 0
    decreases |calls|
  {
    if calls != [] {
      PassedUpTo(calls[1..], answers[1..], key, from, now, to);
    }
  }

  // ---------- the bucket is accounted for ----------

  lemma NewAccounts(rate: Rate, key: string, now: Time)
    ensures Accounts(rate, [], [], key, NewBucket(rate), now)
  {
    assert Room(rate, [], [], key, now, now) == rate.burst * rate.interval;
  }

  lemma RoomLater(rate: Rate, calls: seq<Call>, answers: seq<bool>, key: string, from: Time, now: Time, t: Time)
    requires |calls| == |answers| && now <= t
    requires forall k :: 0 <= k < |calls| ==> calls[k].allowAt <= now
    ensures Room(rate, calls, answers, key, from, t)
            == if from <= now then Room(rate, calls, answers, key, from, now) + (t - now) else rate.Cap() + (t - from)
  {
    PassedUpTo(calls, answers, key, from, now, t);
    assert 0 * rate.interval == 0;
  }

  /** Time passing opens every old window by as much as it fills the bucket, and new windows are full. */
  lemma AccountsLater(rate: Rate, calls: seq<Call>, answers: seq<bool>, key: string, b: Bucket, now: Time, t: Time)
    requires |calls| == |answers| && Accounts(rate, calls, answers, key, b, now) && now <= t
    ensures Accounts(rate, calls, answers, key, b, t)
  {
    LevelLater(b, rate, now, t);
    forall from | from <= t
      ensures Level(b, t) <= Room(rate, calls, answers, key, from, t)
      ensures from <= now ==>
                Room(rate, calls, answers, key, from, t) == Room(rate, calls, answers, key, from, now) + (t - now)
    {
      RoomLater(rate, calls, answers, key, from, now, t);
    }
    var tightest :| tightest <= now && Level(b, now) == Room(rate, calls, answers, key, tightest, now);
    if Level(b, t) == Level(b, now) + (t - now) {
      assert Level(b, t) == Room(rate, calls, answers, key, tightest, t);
    } else {
      RoomLater(rate, calls, answers, key, t, now, t);
      assert Level(b, t) == Room(rate, calls, answers, key, t, t);
    }
  }

  /** A call is refused exactly when the calls before it exhausted the rate. */
  lemma RefusedIfExhausted(rate: Rate, calls: seq<Call>, answers: seq<bool>, key: string, b: Bucket, t: Time)
    requires |calls| == |answers| && 1 <= rate.interval && Accounts(rate, calls, answers, key, b, t)
    ensures !Allow(b, t).1 <==> Exhausted(rate, calls, answers, key, t)
  {
    var tightest :| tightest <= t && Level(b, t) == Room(rate, calls, answers, key, tightest, t);
    LevelLater(b, rate, t, t);
    assert rate.burst == 0 ==> Level(b, t) <= 0;
    if Level(b, t) < rate.interval {
      assert Exhausted(rate, calls, answers, key, t);
    }
  }

  /** A refusal takes nothing: at no later instant is the level another. */
  lemma RefusalCostsNothing(rate: Rate, b: Bucket, now: Time, t: Time, later: Time)
    requires Sane(b, rate, now) && now <= t <= later && !Allow(b, t).1
    ensures Level(Allow(b, t).0, later) == Level(b, later)
  {
  }

  /** A passed call takes one token, and a refused one nothing. */
  lemma LevelAfter(rate: Rate, b: Bucket, t: Time)
    requires Sane(b, rate, t)
    ensures var (b', ok) := Allow(b, t);
            Sane(b', rate, t) && Level(b', t) == Level(b, t) - if ok then rate.interval else 0
  {
    LevelLater(b, rate, t, t);
  }

  lemma AccountsCall(rate: Rate, calls: seq<Call>, answers: seq<bool>, key: string, b: Bucket, c: Call)
    requires |calls| == |answers| && Accounts(rate, calls, answers, key, b, c.allowAt) && c.key == key
    ensures var (b', ok) := Allow(b, c.allowAt); Accounts(rate, calls + [c], answers + [ok], key, b', c.allowAt)
  {
    var (b', ok) := Allow(b, c.allowAt);
    var t := c.allowAt;
    LevelAfter(rate, b, t);
    forall from | from <= t
      ensures Room(rate, calls + [c], answers + [ok], key, from, t)
              == Room(rate, calls, answers, key, from, t) - if ok then rate.interval else 0
    {
      PassedMore(calls, answers, c, ok, key, from, t);
      OneMore(Passed(calls, answers, key, from, t), rate.interval);
    }
    var tightest :| tightest <= t && Level(b, t) == Room(rate, calls, answers, key, tightest, t);
    assert Level(b', t) == Room(rate, calls + [c], answers + [ok], key, tightest, t);
  }

  lemma OneMore(n: nat, interval: nat)
    ensures (n + 1) * interval == n * interval + interval
  {
  }

  /** A call for another email changes nothing. */
  lemma AccountsOther(rate: Rate, calls: seq<Call>, answers: seq<bool>, key: string, b: Bucket, c: Call, ok: bool)
    requires |calls| == |answers| && Accounts(rate, calls, answers, key, b, c.allowAt) && c.key != key
    ensures Accounts(rate, calls + [c], answers + [ok], key, b, c.allowAt)
  {
    var t := c.allowAt;
    forall from
      ensures Room(rate, calls + [c], answers + [ok], key, from, t) == Room(rate, calls, answers, key, from, t)
    {
      PassedMore(calls, answers, c, ok, key, from, t);
    }
    var tightest :| tightest <= t && Level(b, t) == Room(rate, calls, answers, key, tightest, t);
    assert Level(b, t) == Room(rate, calls + [c], answers + [ok], key, tightest, t);
  }

  // ---------- runs ----------

  ghost predicate AllAccount(rate: Rate, calls: seq<Call>, answers: seq<bool>, imm: Immortal, now: Time)
    requires |calls| == |answers|
  {
    forall key :: Accounts(rate, calls, answers, key, BucketOf(imm, rate, key), now)
  }

  lemma AllAccountCall(rate: Rate, calls: seq<Call>, answers: seq<bool>, imm: Immortal, now: Time, c: Call)
    requires |calls| == |answers| && AllAccount(rate, calls, answers, imm, now) && now <= c.allowAt
    ensures var (b, ok) := Allow(BucketOf(imm, rate, c.key), c.allowAt);
            AllAccount(rate, calls + [c], answers + [ok], imm[c.key := b], c.allowAt)
  {
    hide Allow, Accounts;
    var (b, ok) := Allow(BucketOf(imm, rate, c.key), c.allowAt);
    var calls', answers', imm' := calls + [c], answers + [ok], imm[c.key := b];
    forall key ensures Accounts(rate, calls', answers', key, BucketOf(imm', rate, key), c.allowAt) {
      AccountsLater(rate, calls, answers, key, BucketOf(imm, rate, key), now, c.allowAt);
      if key == c.key {
        AccountsCall(rate, calls, answers, key, BucketOf(imm, rate, key), c);
      } else {
        AccountsOther(rate, calls, answers, key, BucketOf(imm, rate, key), c, ok);
      }
    }
  }

  /** The law for a run that continues an accounted history. */
  lemma {:induction false} RefusedInRun(rate: Rate, before: seq<Call>, given: seq<bool>, imm: Immortal,
                                        calls: seq<Call>, now: Time, lag: nat, k: nat)
    requires |before| == |given| && 1 <= rate.interval && AllAccount(rate, before, given, imm, now)
    requires Timely(calls, now, lag) && k < |calls|
    ensures var answers := ImmortalDecisions(rate, imm, calls);
            && |answers| == |calls|
            && (!answers[k] <==>
                Exhausted(rate, before + calls[..k], given + answers[..k], calls[k].key, calls[k].allowAt))
    decreases |calls|
  {
    hide Allow, Accounts, Exhausted;
    var c := calls[0];
    var (b, ok) := Allow(BucketOf(imm, rate, c.key), c.allowAt);
    var rest := ImmortalDecisions(rate, imm[c.key := b], calls[1..]);
    var answers := ImmortalDecisions(rate, imm, calls);
    assert answers == [ok] + rest;
    AnswersLength(rate, imm[c.key := b], calls[1..]);
    if k == 0 {
      AccountsLater(rate, before, given, c.key, BucketOf(imm, rate, c.key), now, c.allowAt);
      RefusedIfExhausted(rate, before, given, c.key, BucketOf(imm, rate, c.key), c.allowAt);
      assert before + calls[..0] == before && given + answers[..0] == given;
    } else {
      AllAccountCall(rate, before, given, imm, now, c);
      RefusedInRun(rate, before + [c], given + [ok], imm[c.key := b], calls[1..], c.allowAt, lag, k - 1);
      assert (before + [c]) + calls[1..][..k - 1] == before + calls[..k];
      assert (given + [ok]) + rest[..k - 1] == given + answers[..k];
    }
  }

  lemma {:induction false} AnswersLength(rate: Rate, imm: Immortal, calls: seq<Call>)
    ensures |ImmortalDecisions(rate, imm, calls)| == |calls|
    decreases |calls|
  {
    hide Allow;
    if calls != [] {
      var b := Allow(BucketOf(imm, rate, calls[0].key), calls[0].allowAt).0;
      AnswersLength(rate, imm[calls[0].key := b], calls[1..]);
    }
  }

  /**
   * The rate law, exactly: in every run of the pool, of any size, a call is refused if
   * and only if for some earlier instant the calls for its email that passed since then,
   * with this one, need more than a full burst and what was refilled since.
   */
  lemma RefusedExactly(cfg: Config, rate: Rate, lag: nat, now: Time, calls: seq<Call>, k: nat)
    requires TtlCovers(cfg.ttl, rate, lag) && 1 <= rate.interval
    requires Timely(calls, now, lag) && k < |calls|
    ensures var answers := Decisions(cfg, rate, map[], calls);
            && |answers| == |calls|
            && (!answers[k] <==> Exhausted(rate, calls[..k], answers[..k], calls[k].key, calls[k].allowAt))
  {
    EvictionUnobservable(cfg, rate, lag, now, calls);
    forall key ensures Accounts(rate, [], [], key, BucketOf(map[], rate, key), now) {
      NewAccounts(rate, key, now);
    }
    RefusedInRun(rate, [], [], map[], calls, now, lag, k);
    var answers := ImmortalDecisions(rate, map[], calls);
    assert [] + calls[..k] == calls[..k] && [] + answers[..k] == answers[..k];
  }

  /**
   * The service's own numbers: of the Logins of one email, ten pass at once, an eleventh
   * within 200 ms of them is refused, and one 200 ms after them passes all the same.
   */
  lemma TenThenOneEach200ms(cfg: Config, lag: nat, key: string, t: Time, early: nat)
    requires TtlCovers(cfg.ttl, LOGIN_RATE, lag) && early < 200_000_000
    ensures var retries := [Call(key, t + early, t + early), Call(key, t + 200_000_000, t + 200_000_000)];
            Decisions(cfg, LOGIN_RATE, map[], Burst(key, t, 10) + retries) == AllAllowed(10) + [false, true]
  {
    var c0, c1 := Call(key, t + early, t + early), Call(key, t + 200_000_000, t + 200_000_000);
    var burst := Burst(key, t, 10);
    RetriesTimely(key, t, early, lag);
    EvictionUnobservable(cfg, LOGIN_RATE, lag, t, burst + [c0, c1]);
    BurstAllowed(cfg, lag, key, t);
    SplitImmortal(LOGIN_RATE, map[], burst, [c0, c1]);
    BurstSpends(LOGIN_RATE, map[], key, t, 10);
    RetryAnswers(ImmortalAfter(LOGIN_RATE, map[], burst), key, t, early);
  }

  lemma RetriesTimely(key: string, t: Time, early: nat, lag: nat)
    requires early < 200_000_000
    ensures var c0, c1 := Call(key, t + early, t + early), Call(key, t + 200_000_000, t + 200_000_000);
            Timely(Burst(key, t, 10) + [c0, c1], t, lag) && Timely(Burst(key, t, 10), t, lag)
  {
    var c0, c1 := Call(key, t + early, t + early), Call(key, t + 200_000_000, t + 200_000_000);
    assert [c0, c1][1..] == [c1] && [c1][1..] == [];
    assert Timely([c1], c0.allowAt, lag);
    BurstTimely(key, t, 10, [c0, c1], t, lag);
    BurstTimely(key, t, 10, [], t, lag);
    assert Burst(key, t, 10) + [] == Burst(key, t, 10);
  }

  lemma BurstAllowed(cfg: Config, lag: nat, key: string, t: Time)
    requires TtlCovers(cfg.ttl, LOGIN_RATE, lag)
    ensures ImmortalDecisions(LOGIN_RATE, map[], Burst(key, t, 10)) == AllAllowed(10)
  {
    RetriesTimely(key, t, 0, lag);
    EvictionUnobservable(cfg, LOGIN_RATE, lag, t, Burst(key, t, 10));
    PoolAllowsBurst(cfg, LOGIN_RATE, map[], key, t, 10);
  }

  lemma RetryAnswers(imm: Immortal, key: string, t: Time, early: nat)
    requires early < 200_000_000
    requires Sane(BucketOf(imm, LOGIN_RATE, key), LOGIN_RATE, t) && Level(BucketOf(imm, LOGIN_RATE, key), t) == 0
    ensures var c0, c1 := Call(key, t + early, t + early), Call(key, t + 200_000_000, t + 200_000_000);
            ImmortalDecisions(LOGIN_RATE, imm, [c0, c1]) == [false, true]
  {
    var c0, c1 := Call(key, t + early, t + early), Call(key, t + 200_000_000, t + 200_000_000);
    var imm' := imm[key := Allow(BucketOf(imm, LOGIN_RATE, key), t + early).0];
    assert [c0, c1][1..] == [c1] && [c1][1..] == [];
    assert ImmortalDecisions(LOGIN_RATE, imm', [c1]) == [true];
  }
}
