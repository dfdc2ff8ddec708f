/**
 * The whole service (internal/user/service/service.go over
 * internal/user/repo/memory.go and pkg/auth/jwt.go) gives, in every serial run,
 * exactly the responses of ServiceSpec.
 */
module Refinement {
  import opened Clock
  import opened Repository
  import opened UserService
  import opened SessionProofs
  import opened CacheProofs
  import opened ServiceSpec
  import opened Correspondence
  import opened RefinementSteps
  import R = RateLimiter
  import L = LimiterProofs
  import G = LoginGate

  /** The service state stands for the specification state. */
  ghost predicate Refines(cfg: Config, sp: Spec, s: Svc, now: Time) {
    && StoreOk(cfg.backend, s.store, now)
    && CacheOk(s.store, s.cache)
    && AccountsAgree(sp.accounts, s.store)
    && TokensAgree(sp, s.store, now)
    && L.Tracks(cfg.rate, s.pool, sp.buckets, now)
  }

  /** One operation with whatever cache. */
  lemma StepRefines(cfg: Config, lag: nat, sp: Spec, s: Svc, now: Time, op: Op, mode: CacheMode)
    requires L.TtlCovers(cfg.pool.ttl, cfg.rate, lag)
    requires ClockOk(now, op) && IdsFresh(s.store, op) && (op.Cleanup? ==> cfg.backend.Table?)
    requires op.Login? ==> op.allowAt <= op.getAt + lag
    requires Refines(cfg, sp, s, now)
    ensures Step(cfg, s, op, mode).1 == SpecStep(cfg.backend, cfg.rate, sp, op).1
    ensures Refines(cfg, SpecStep(cfg.backend, cfg.rate, sp, op).0, Step(cfg, s, op, mode).0, TimeAfter(now, op))
  {
    hide Step, SpecStep, StoreOk, CacheOk, AccountsAgree, TokensAgree, L.Tracks;
    BareStepMatches(cfg, lag, sp, s, now, op);
    StepTransparent(cfg, s, s, now, op, mode);
    StepKeepsCacheOk(cfg, s, now, op, mode);
    StepOk(cfg, s, now, op, mode);
  }

  // ---------- every run ----------

  lemma {:induction false} RunRefines(cfg: Config, lag: nat, sp: Spec, s: Svc, now: Time, events: seq<Event>)
    requires L.TtlCovers(cfg.pool.ttl, cfg.rate, lag)
    requires Legal(cfg, s, now, events) && G.WithinLag(events, lag)
    requires Refines(cfg, sp, s, now)
    ensures Responses(cfg, s, events) == SpecResponses(cfg.backend, cfg.rate, sp, events)
    decreases |events|
  {
    if events != [] {
      hide Step, SpecStep, Refines;
      var op, mode := events[0].op, events[0].mode;
      StepRefines(cfg, lag, sp, s, now, op, mode);
      forall k | 0 <= k < |events[1..]| && events[1..][k].op.Login?
        ensures events[1..][k].op.allowAt <= events[1..][k].op.getAt + lag
      {
        assert events[1..][k] == events[k + 1];
      }
      RunRefines(cfg, lag, SpecStep(cfg.backend, cfg.rate, sp, op).0, Step(cfg, s, op, mode).0, TimeAfter(now, op),
          events[1..]);
    }
  }

  /**
   * Refinement: in every serial run, on either backend, with or without a cache and
   * with cleanups anywhere, every response is the one the specification gives.
   */
  lemma ServiceRefinesSpec(cfg: Config, lag: nat, now: Time, events: seq<Event>)
    requires L.TtlCovers(cfg.pool.ttl, cfg.rate, lag)
    requires Legal(cfg, START, now, events) && G.WithinLag(events, lag)
    ensures Responses(cfg, START, events) == SpecResponses(cfg.backend, cfg.rate, NOTHING, events)
  {
    assert L.Tracks(cfg.rate, map[], map[], now) by {
      assert forall k :: L.BucketOf(map[], cfg.rate, k) == R.NewBucket(cfg.rate);
    }
    assert AccountsAgree({}, EMPTY) && TokensAgree(NOTHING, EMPTY, now);
    RunRefines(cfg, lag, NOTHING, START, now, events);
  }
}
