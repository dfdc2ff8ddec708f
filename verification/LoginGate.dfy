/**
 * The limiter seen from the outside: which Login calls of a service run are
 * answered "rate limited" (internal/user/service/service.go, Login).
 */
module LoginGate {
  import opened Clock
  import opened Errors
  import opened UserService
  import R = RateLimiter
  import L = LimiterProofs
  import W = RateLaw

  /** The limiter calls a run makes: one per Login, in order. */
  function LoginCalls(events: seq<Event>): seq<L.Call> {
    if events == [] then []
    else
      (match events[0].op
       case Login(email, _, getAt, allowAt, _, _, _, _, _) => [L.Call(email, getAt, allowAt)]
       case _ => []) + LoginCalls(events[1..])
  }

  /** For each Login, whether its response is anything but "rate limited". */
  function GateAnswers(cfg: Config, s: Svc, events: seq<Event>): seq<bool>
    decreases |events|
  {
    if events == [] then []
    else
      var (after, r) := Step(cfg, s, events[0].op, events[0].mode);
      (if events[0].op.Login? then [r != Failed(ERR_RATE_LIMITED)] else []) + GateAnswers(cfg, after, events[1..])
  }

  /** Every Login asks its limiter at most `lag` after fetching it. */
  predicate WithinLag(events: seq<Event>, lag: nat) {
    forall k :: 0 <= k < |events| && events[k].op.Login? ==> events[k].op.allowAt <= events[k].op.getAt + lag
  }

  lemma CodesDiffer()
    ensures ERR_RATE_LIMITED != ERR_INVALID_CREDENTIALS && ERR_RATE_LIMITED != ERR_INTERNAL
  {
    assert |ERR_RATE_LIMITED| == 12 && |ERR_INVALID_CREDENTIALS| == 19 && |ERR_INTERNAL| == 14;
  }

  lemma {:induction false} AnswersAreDecisions(cfg: Config, s: Svc, events: seq<Event>)
    ensures GateAnswers(cfg, s, events) == L.Decisions(cfg.pool, cfg.rate, s.pool, LoginCalls(events))
    decreases |events|
  {
    hide R.Pass, Authenticate;
    if events != [] {
      var op, mode := events[0].op, events[0].mode;
      var (after, r) := Step(cfg, s, op, mode);
      AnswersAreDecisions(cfg, after, events[1..]);
      match op {
        case Login(email, _, getAt, allowAt, _, _, _, _, _) =>
          GateStep(cfg, s, op, mode);
          assert LoginCalls(events)[1..] == LoginCalls(events[1..]);
        case _ =>
          assert after.pool == s.pool;
          assert LoginCalls(events) == LoginCalls(events[1..]);
      }
    }
  }

  /** One Login is one limiter call, and only the limiter answers "rate limited". */
  lemma GateStep(cfg: Config, s: Svc, op: Op, mode: CacheMode)
    requires op.Login?
    ensures var (after, r) := Step(cfg, s, op, mode);
            var (pool, allowed) := R.Pass(cfg.pool, s.pool, op.email, cfg.rate, op.getAt, op.allowAt);
            after.pool == pool && (r != Failed(ERR_RATE_LIMITED) <==> allowed)
  {
    hide R.Pass;
    CodesDiffer();
  }

  lemma {:induction false} CallsAreTimely(cfg: Config, s: Svc, now: Time, events: seq<Event>, lag: nat)
    requires Legal(cfg, s, now, events) && WithinLag(events, lag)
    ensures L.Timely(LoginCalls(events), now, lag)
    decreases |events|
  {
    if events != [] {
      var op := events[0].op;
      assert WithinLag(events[1..], lag) by {
        forall k | 0 <= k < |events[1..]| && events[1..][k].op.Login?
          ensures events[1..][k].op.allowAt <= events[1..][k].op.getAt + lag
        {
          assert events[1..][k] == events[k + 1];
        }
      }
      CallsAreTimely(cfg, Step(cfg, s, op, events[0].mode).0, TimeAfter(now, op), events[1..], lag);
      var rest := LoginCalls(events[1..]);
      match op {
        case Login(email, _, getAt, allowAt, _, _, _, _, _) =>
          TimelyEarlier(rest, allowAt, TimeAfter(now, op), lag);
          assert LoginCalls(events)[1..] == rest;
        case _ =>
          TimelyEarlier(rest, now, TimeAfter(now, op), lag);
          assert LoginCalls(events) == rest;
      }
    }
  }

  lemma TimelyEarlier(calls: seq<L.Call>, earlier: Time, now: Time, lag: nat)
    requires L.Timely(calls, now, lag) && earlier <= now
    ensures L.Timely(calls, earlier, lag)
  {
  }

  /** In every service run the limiter refuses exactly the Logins that one immortal bucket per email would refuse. */
  lemma GateIsImmortal(cfg: Config, now: Time, events: seq<Event>, lag: nat)
    requires L.TtlCovers(cfg.pool.ttl, cfg.rate, lag)
    requires Legal(cfg, START, now, events) && WithinLag(events, lag)
    ensures GateAnswers(cfg, START, events) == L.ImmortalDecisions(cfg.rate, map[], LoginCalls(events))
  {
    CallsAreTimely(cfg, START, now, events, lag);
    AnswersAreDecisions(cfg, START, events);
    L.EvictionUnobservable(cfg.pool, cfg.rate, lag, now, LoginCalls(events));
  }

  /** In every service run and window of length T, at most burst + T / interval Logins of an email get past. */
  lemma LoginRateBound(cfg: Config, now: Time, events: seq<Event>, lag: nat, email: string, from: Time, to: Time)
    requires L.TtlCovers(cfg.pool.ttl, cfg.rate, lag) && 1 <= cfg.rate.interval && from <= to
    requires Legal(cfg, START, now, events) && WithinLag(events, lag)
    ensures |GateAnswers(cfg, START, events)| == |LoginCalls(events)|
    ensures L.Passed(LoginCalls(events), GateAnswers(cfg, START, events), email, from, to)
            <= cfg.rate.burst + (to - from) / cfg.rate.interval
  {
    CallsAreTimely(cfg, START, now, events, lag);
    AnswersAreDecisions(cfg, START, events);
    L.RateBound(cfg.pool, cfg.rate, lag, now, LoginCalls(events), email, from, to);
  }

  /**
   * And both ways: a Login is answered "rate limited" if and only if for some earlier
   * instant the Logins of its email that got past the limiter since then, with this one,
   * need more than a full burst and what was refilled since.
   */
  lemma LoginRefusedExactly(cfg: Config, now: Time, events: seq<Event>, lag: nat, k: nat)
    requires L.TtlCovers(cfg.pool.ttl, cfg.rate, lag) && 1 <= cfg.rate.interval
    requires Legal(cfg, START, now, events) && WithinLag(events, lag) && k < |LoginCalls(events)|
    ensures var calls, answers := LoginCalls(events), GateAnswers(cfg, START, events);
            && |answers| == |calls|
            && (!answers[k] <==>
                W.Exhausted(cfg.rate, calls[..k], answers[..k], calls[k].key, calls[k].allowAt))
  {
    CallsAreTimely(cfg, START, now, events, lag);
    AnswersAreDecisions(cfg, START, events);
    W.RefusedExactly(cfg.pool, cfg.rate, lag, now, LoginCalls(events), k);
  }
}
