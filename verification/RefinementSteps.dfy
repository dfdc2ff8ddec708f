/**
 * Each operation of the service without its cache against ServiceSpec
 * (internal/user/service/service.go).
 *
 * The response is the one specified, and the state keeps standing for the specified
 * one: accounts for users, live tokens for sessions that are not revoked, and one
 * immortal bucket per email for the limiter pool.
 */
module RefinementSteps {
  import opened Clock
  import opened Wrappers
  import opened Tokens
  import opened Repository
  import opened UserService
  import opened SessionProofs
  import opened ServiceSpec
  import opened Correspondence
  import R = RateLimiter
  import L = LimiterProofs

  lemma TracksLater(rate: R.Rate, pool: R.Pool, imm: L.Immortal, now: Time, later: Time)
    requires L.Tracks(rate, pool, imm, now) && now <= later
    ensures L.Tracks(rate, pool, imm, later)
  {
    forall k ensures L.KeyTracks(rate, pool, L.BucketOf(imm, rate, k), k, later) {
      L.KeyTracksLater(rate, pool, L.BucketOf(imm, rate, k), k, now, later);
    }
  }

  /** What an operation on store and limiter must show; the cache is dealt with by transparency. */
  ghost predicate Matches(cfg: Config, sp: Spec, s: Svc, now: Time) {
    && AccountsAgree(sp.accounts, s.store)
    && TokensAgree(sp, s.store, now)
    && L.Tracks(cfg.rate, s.pool, sp.buckets, now)
  }

  lemma RegisterMatches(cfg: Config, sp: Spec, s: Svc, now: Time, op: Op)
    requires op.Register? && IdsFresh(s.store, op)
    requires StoreOk(cfg.backend, s.store, now) && Matches(cfg, sp, s, now)
    ensures var (s', r) := RegisterStep(s, op, NoCache);
            r == SpecRegister(sp, op).1 && Matches(cfg, SpecRegister(sp, op).0, s', now)
  {
    FindByEmail(cfg.backend, sp.accounts, s.store, now, op.email);
    var s', sp' := RegisterStep(s, op, NoCache).0, SpecRegister(sp, op).0;
    forall a ensures AccountAgrees(sp'.accounts, s'.store, a) {
      assert AccountAgrees(sp.accounts, s.store, a);
    }
    forall id ensures HasHash(s'.store, id) {
      assert HasHash(s.store, id);
    }
    forall token ensures TokenAgrees(sp', s'.store, token) && IssuedAgrees(sp', s'.store, token, now) {
      assert TokenAgrees(sp, s.store, token) && IssuedAgrees(sp, s.store, token, now);
    }
  }

  /** Operations on sessions leave the accounts alone. */
  lemma SameAccounts(accounts: set<Account>, st: Store, st': Store)
    requires AccountsAgree(accounts, st) && st'.users == st.users
    ensures AccountsAgree(accounts, st')
  {
    forall a ensures AccountAgrees(accounts, st', a) {
      assert AccountAgrees(accounts, st, a);
    }
    forall id ensures HasHash(st', id) {
      assert HasHash(st, id);
    }
  }

  lemma CredentialsMatch(backend: Backend, sp: Spec, s: Svc, now: Time, op: Op)
    requires op.Login? && IdsFresh(s.store, op) && now <= op.refreshAt
    requires StoreOk(backend, s.store, now) && AccountsAgree(sp.accounts, s.store) && TokensAgree(sp, s.store, now)
    ensures var (s', r) := Authenticate(backend, s, op, NoCache);
            var (sp', r') := Credentials(backend, sp, op);
            && r == r' && s'.pool == s.pool && sp'.buckets == sp.buckets
            && AccountsAgree(sp'.accounts, s'.store) && TokensAgree(sp', s'.store, now)
  {
    FindByEmail(backend, sp.accounts, s.store, now, op.email);
    var found := GetUserByEmail(s.store, op.email);
    if found.Success? {
      IssueAgrees(backend, sp, s.store, now, op.sid, found.value.id, op.accessAt, op.refreshAt, op.sessAt);
    }
    SameAccounts(sp.accounts, s.store, Authenticate(backend, s, op, NoCache).0.store);
  }

  lemma SameTokens(sp: Spec, sp': Spec, st: Store, now: Time)
    requires TokensAgree(sp, st, now) && sp'.live == sp.live && sp'.issued == sp.issued
    ensures TokensAgree(sp', st, now)
  {
    forall token ensures TokenAgrees(sp', st, token) && IssuedAgrees(sp', st, token, now) {
      assert TokenAgrees(sp, st, token) && IssuedAgrees(sp, st, token, now);
    }
  }

  lemma LoginMatches(cfg: Config, lag: nat, sp: Spec, s: Svc, now: Time, op: Op)
    requires op.Login? && ClockOk(now, op) && IdsFresh(s.store, op) && op.allowAt <= op.getAt + lag
    requires L.TtlCovers(cfg.pool.ttl, cfg.rate, lag)
    requires StoreOk(cfg.backend, s.store, now) && Matches(cfg, sp, s, now)
    ensures var (s', r) := LoginStep(cfg, s, op, NoCache);
            var (sp', r') := SpecLogin(cfg.backend, cfg.rate, sp, op);
            r == r' && Matches(cfg, sp', s', op.allowAt)
  {
    var (pool, allowed) := R.Pass(cfg.pool, s.pool, op.email, cfg.rate, op.getAt, op.allowAt);
    var (b, allowed') := R.Allow(L.BucketOf(sp.buckets, cfg.rate, op.email), op.allowAt);
    L.TracksCall(cfg.pool, cfg.rate, lag, s.pool, sp.buckets, now, L.Call(op.email, op.getAt, op.allowAt));
    hide R.Pass, R.Allow, L.Tracks;
    var s1, sp1 := s.(pool := pool), sp.(buckets := sp.buckets[op.email := b]);
    TokensLater(sp, s.store, now, op.allowAt);
    SameTokens(sp, sp1, s.store, op.allowAt);
    StoreOkLater(cfg.backend, s.store, now, op.allowAt);
    CredentialsMatch(cfg.backend, sp1, s1, op.allowAt, op);
  }

  lemma RefreshMatches(cfg: Config, sp: Spec, s: Svc, now: Time, op: Op)
    requires op.Refresh? && ClockOk(now, op) && IdsFresh(s.store, op)
    requires StoreOk(cfg.backend, s.store, now) && Matches(cfg, sp, s, now)
    ensures var (s', r) := RefreshStep(cfg, s, op);
            var (sp', r') := SpecRefresh(cfg.backend, sp, op);
            r == r' && Matches(cfg, sp', s', now)
  {
    hide L.Tracks;
    var h := Sha256(op.token);
    assert TokenAgrees(sp, s.store, op.token);
    Lookups(cfg.backend, s.store, now, "", h);
    var sess := Refreshable(s.store, op.token, op.verifyAt, op.checkAt);
    assert sess.Some? <==>
           (Verify(op.token, op.verifyAt).Some? && op.token in sp.live && !(sp.live[op.token] < op.checkAt));
    if sess.Some? {
      var spent := sp.(live := sp.live - {op.token});
      var revoked := RevokeSession(s.store, sess.value.id, op.revokeAt).0;
      RevokeAgrees(cfg.backend, sp, s.store, now, op.token, op.revokeAt);
      RevokeSessionOk(cfg.backend, s.store, sess.value.id, op.revokeAt, now);
      IssueAgrees(cfg.backend, spent, revoked, now, op.sid, op.token.sub, op.accessAt, op.refreshAt, op.sessAt);
    }
    SameAccounts(sp.accounts, s.store, RefreshStep(cfg, s, op).0.store);
  }

  lemma LogoutMatches(cfg: Config, sp: Spec, s: Svc, now: Time, op: Op)
    requires op.Logout? && StoreOk(cfg.backend, s.store, now) && Matches(cfg, sp, s, now)
    ensures LogoutStep(s, op).1 == LoggedOut
    ensures Matches(cfg, sp.(live := sp.live - {op.token}), LogoutStep(s, op).0, now)
  {
    hide L.Tracks;
    var found := GetSessionByTokenHash(s.store, Sha256(op.token));
    if found.Success? {
      RevokeAgrees(cfg.backend, sp, s.store, now, op.token, op.revokeAt);
    } else {
      assert TokenAgrees(sp, s.store, op.token);
      assert sp.live - {op.token} == sp.live;
    }
    SameAccounts(sp.accounts, s.store, LogoutStep(s, op).0.store);
  }

  /** One operation without a cache: the specified response, and still a match. */
  lemma BareStepMatches(cfg: Config, lag: nat, sp: Spec, s: Svc, now: Time, op: Op)
    requires L.TtlCovers(cfg.pool.ttl, cfg.rate, lag)
    requires ClockOk(now, op) && IdsFresh(s.store, op) && (op.Cleanup? ==> cfg.backend.Table?)
    requires op.Login? ==> op.allowAt <= op.getAt + lag
    requires StoreOk(cfg.backend, s.store, now) && Matches(cfg, sp, s, now)
    ensures Step(cfg, s, op, NoCache).1 == SpecStep(cfg.backend, cfg.rate, sp, op).1
    ensures Matches(cfg, SpecStep(cfg.backend, cfg.rate, sp, op).0, Step(cfg, s, op, NoCache).0, TimeAfter(now, op))
  {
    hide RegisterStep, LoginStep, RefreshStep, LogoutStep, SpecRegister, SpecLogin, SpecRefresh;
    var t := TimeAfter(now, op);
    var s', sp' := Step(cfg, s, op, NoCache).0, SpecStep(cfg.backend, cfg.rate, sp, op).0;
    match op
    case Register(_, _, _, _, _, _, _, _) =>
      RegisterMatches(cfg, sp, s, now, op);
      TokensLater(sp', s'.store, now, t);
      TracksLater(cfg.rate, s'.pool, sp'.buckets, now, t);
    case Login(_, _, _, _, _, _, _, _, _) =>
      LoginMatches(cfg, lag, sp, s, now, op);
      TokensLater(sp', s'.store, op.allowAt, t);
      TracksLater(cfg.rate, s'.pool, sp'.buckets, op.allowAt, t);
    case GetProfile(userId) =>
      if userId.Some? {
        ProfileMatches(cfg, sp, s, now, userId.value);
      }
    case Refresh(_, _, _, _, _, _, _, _, _) =>
      RefreshMatches(cfg, sp, s, now, op);
      TokensLater(sp', s'.store, now, t);
      TracksLater(cfg.rate, s'.pool, sp'.buckets, now, t);
    case Logout(_, _, _) =>
      LogoutMatches(cfg, sp, s, now, op);
      TokensLater(sp', s'.store, now, t);
      TracksLater(cfg.rate, s'.pool, sp'.buckets, now, t);
    case Cleanup(at) =>
      CleanupAgrees(sp, s.store, now, at);
      SameAccounts(sp.accounts, s.store, CleanupSessions(s.store, at));
      TracksLater(cfg.rate, s.pool, sp.buckets, now, at);
  }

  lemma ProfileMatches(cfg: Config, sp: Spec, s: Svc, now: Time, id: Id)
    requires StoreOk(cfg.backend, s.store, now) && Matches(cfg, sp, s, now)
    ensures var op := GetProfile(Some(id));
            GetProfileStep(s, op, NoCache).1 == SpecStep(cfg.backend, cfg.rate, sp, op).1
  {
    FindByID(cfg.backend, sp.accounts, s.store, now, id);
  }
}
