/**
 * The user service in its own form: an object whose methods update the repository,
 * the cache and the limiter pool in place
 * (internal/user/service/service.go). Each method is proved to be one `Step`.
 */
module UserServiceClass {
  import opened Clock
  import opened Wrappers
  import opened Tokens
  import opened Repository
  import opened Errors
  import opened UserService
  import R = RateLimiter

  /** A Redis-like cache whose answers and writes may fail, as the arguments say. */
  class Cache {
    var entries: CacheState

    constructor ()
      ensures entries == map[]
    {
      entries := map[];
    }

    method Get(key: string, hit: bool) returns (v: Option<UserView>)
      ensures v == if hit && key in entries then Some(entries[key]) else None
    {
      v := if hit && key in entries then Some(entries[key]) else None;
    }

    method Set(key: string, view: UserView, works: bool)
      modifies this
      ensures entries == if works then old(entries)[key := view] else old(entries)
    {
      if works {
        entries := entries[key := view];
      }
    }

    method Del(keys: set<string>, works: bool)
      modifies this
      ensures entries == if works then old(entries) - keys else old(entries)
    {
      if works {
        entries := entries - keys;
      }
    }
  }

  class Service {
    const repo: InMemoryRepo
    const cache: Cache?
    const limiters: R.LimiterPool
    const rate: R.Rate

    constructor (rate: R.Rate, ttl: int, maxKeys: int, cache: Cache?)
      requires cache != null ==> cache.entries == map[]
      ensures Valid() && this.rate == rate && this.cache == cache
      ensures Cfg() == Config(Memory, R.Config(ttl, maxKeys), rate)
      ensures View() == START
    {
      this.rate := rate;
      this.cache := cache;
      repo := new InMemoryRepo();
      limiters := new R.LimiterPool(R.Config(ttl, maxKeys));
    }

    ghost predicate Valid()
      reads limiters
    {
      limiters.Valid()
    }

    ghost function Cfg(): Config {
      Config(Memory, limiters.cfg, rate)
    }

    ghost function CacheView(): CacheState
      reads cache
    {
      if cache == null then map[] else cache.entries
    }

    /** Repository and cache beside a limiter pool that is given. */
    ghost function Beside(pool: R.Pool): Svc
      reads repo, cache
    {
      Svc(repo.View(), pool, CacheView())
    }

    ghost function View(): Svc
      reads repo, cache, limiters, limiters.Repr()
    {
      Beside(limiters.View())
    }

    /** Whether the mode speaks of the cache that is there. */
    predicate Fits(mode: CacheMode) {
      mode.Cached? <==> cache != null
    }

    /** Entries that expire or are evicted before the operation reads the cache. */
    method Expire(mode: CacheMode)
      requires Fits(mode)
      modifies cache
      ensures CacheView() == AfterLosses(old(CacheView()), mode)
    {
      if mode.Cached? {
        cache.Del(mode.lost, true);
      }
    }

    method UserByEmailCached(email: string, mode: CacheMode) returns (r: Result<User, RepoError>)
      requires Fits(mode)
      modifies cache
      ensures CacheView() == UserByEmail(mode, repo.View(), old(CacheView()), email).0
      ensures r == UserByEmail(mode, repo.View(), old(CacheView()), email).1
    {
      if mode.Cached? {
        // the cached view has no hash, so a hit is read and not used
        var _ := cache.Get(KeyByEmail(email), mode.hit);
      }
      r := repo.FindUserByEmail(email);
      if r.Success? && mode.Cached? {
        var view := ToView(r.value);
        cache.Set(KeyByEmail(email), view, mode.setFirst);
        cache.Set(KeyByID(view.id), view, mode.setSecond);
      }
    }

    method UserByIDCached(id: Id, mode: CacheMode) returns (r: Result<User, RepoError>)
      requires Fits(mode)
      modifies cache
      ensures CacheView() == UserByID(mode, repo.View(), old(CacheView()), id).0
      ensures r == UserByID(mode, repo.View(), old(CacheView()), id).1
    {
      hide KeyByID, KeyByEmail, ToUserRow;
      if mode.Cached? {
        var v := cache.Get(KeyByID(id), mode.hit);
        if v.Some? {
          return Success(ToUserRow(v.value));
        }
      }
      r := repo.FindUserByID(id);
      if r.Success? && mode.Cached? {
        var view := ToView(r.value);
        cache.Set(KeyByID(id), view, mode.setFirst);
        cache.Set(KeyByEmail(view.email), view, mode.setSecond);
      }
    }

    /** Register on repository and cache; it never looks at a limiter. */
    method AddUser(email: string, username: string, password: string, valid: bool, hashes: bool, salt: nat, id: Id,
                   now: Time, mode: CacheMode, ghost pool: R.Pool)
      returns (r: Response)
      requires Fits(mode)
      modifies repo, cache
      ensures var op := Register(email, username, password, valid, hashes, salt, id, now);
              Beside(pool) == RegisterStep(old(Beside(pool)), op, mode).0
                  && r == RegisterStep(old(Beside(pool)), op, mode).1
    {
      hide KeyByID, KeyByEmail, UserByEmail;
      if !valid {
        return Invalid;
      }
      if !hashes {
        return Failed(ERR_INTERNAL);
      }
      var existing := UserByEmailCached(email, mode);
      if existing.Success? {
        return Failed(ERR_EMAIL_IN_USE);
      }
      var made := repo.CreateUserRow(User(id, email, username, Bcrypt(password, salt), now, now));
      if made.Failure? {
        return Failed(ERR_INTERNAL);
      }
      if mode.Cached? {
        cache.Del({KeyByEmail(email), KeyByID(id)}, mode.del);
      }
      r := Registered(id);
    }

    method RegisterUser(email: string, username: string, password: string,
                        valid: bool, hashes: bool, salt: nat, id: Id, now: Time, mode: CacheMode)
      returns (r: Response)
      requires Valid() && Fits(mode)
      modifies repo, cache
      ensures Valid()
      ensures var op := Register(email, username, password, valid, hashes, salt, id, now);
              View() == Step(Cfg(), old(View()), op, mode).0 && r == Step(Cfg(), old(View()), op, mode).1
    {
      hide RegisterStep;
      ghost var pool, s0 := limiters.View(), View();
      Expire(mode);
      assert Beside(pool) == s0.(cache := AfterLosses(s0.cache, mode));
      r := AddUser(email, username, password, valid, hashes, salt, id, now, mode, pool);
      assert limiters.View() == pool;
    }

    /** The limiter gate: fetch the email's limiter, then ask it. */
    method PassGate(email: string, getAt: Time, allowAt: Time) returns (allowed: bool)
      requires Valid()
      modifies limiters, limiters.Repr()
      ensures Valid()
      ensures limiters.View() == R.Pass(limiters.cfg, old(limiters.View()), email, rate, getAt, allowAt).0
      ensures allowed == R.Pass(limiters.cfg, old(limiters.View()), email, rate, getAt, allowAt).1
      ensures fresh(limiters.Repr() - old(limiters.Repr()))
    {
      var lim := limiters.GetLimiter(email, rate, getAt);
      allowed := limiters.Ask(email, lim, allowAt);
    }

    /** Login behind the gate: check the password, sign, store the session. */
    method OpenSession(email: string, password: string, accessAt: Time, refreshAt: Time, sessAt: Time,
                       signs: bool, sid: Id, mode: CacheMode, ghost op: Op, ghost pool: R.Pool)
      returns (r: Response)
      requires Fits(mode)
      requires op.Login? && op.email == email && op.password == password && op.accessAt == accessAt
      requires op.refreshAt == refreshAt && op.sessAt == sessAt && op.signs == signs && op.sid == sid
      modifies repo, cache
      ensures Beside(pool) == Authenticate(Memory, old(Beside(pool)), op, mode).0
      ensures r == Authenticate(Memory, old(Beside(pool)), op, mode).1
    {
      hide UserByEmail;
      var user := UserByEmailCached(email, mode);
      if user.Failure? || !ComparePassword(user.value.passwordHash, password) {
        return Failed(ERR_INVALID_CREDENTIALS);
      }
      if !signs {
        return Failed(ERR_INTERNAL);
      }
      var (access, refresh) := Generate(user.value.id, accessAt, refreshAt);
      repo.CreateSessionRow(NewSession(sid, user.value.id, refresh, sessAt));
      r := TokenPair(access, refresh);
    }

    /** Login once the limiter has answered. */
    method AfterGate(allowed: bool, email: string, password: string, accessAt: Time, refreshAt: Time, sessAt: Time,
                     signs: bool, sid: Id, mode: CacheMode, ghost op: Op, ghost pool: R.Pool)
      returns (r: Response)
      requires Fits(mode)
      requires op.Login? && op.email == email && op.password == password && op.accessAt == accessAt
      requires op.refreshAt == refreshAt && op.sessAt == sessAt && op.signs == signs && op.sid == sid
      modifies repo, cache
      ensures var s0 := old(Beside(pool)).(cache := AfterLosses(old(CacheView()), mode));
              (Beside(pool), r) == if allowed then Authenticate(Memory, s0, op, mode)
                  else (s0, Failed(ERR_RATE_LIMITED))
    {
      hide Authenticate;
      Expire(mode);
      if !allowed {
        return Failed(ERR_RATE_LIMITED);
      }
      r := OpenSession(email, password, accessAt, refreshAt, sessAt, signs, sid, mode, op, pool);
    }

    method LoginUser(email: string, password: string, getAt: Time, allowAt: Time,
                     accessAt: Time, refreshAt: Time, sessAt: Time, signs: bool, sid: Id, mode: CacheMode)
      returns (r: Response)
      requires Valid() && Fits(mode)
      modifies repo, cache, limiters, limiters.Repr()
      ensures Valid()
      ensures var op := Login(email, password, getAt, allowAt, accessAt, refreshAt, sessAt, signs, sid);
              View() == Step(Cfg(), old(View()), op, mode).0 && r == Step(Cfg(), old(View()), op, mode).1
      ensures fresh(limiters.Repr() - old(limiters.Repr()))
    {
      hide R.Pass, Authenticate;
      ghost var op := Login(email, password, getAt, allowAt, accessAt, refreshAt, sessAt, signs, sid);
      ghost var s0 := View();
      var allowed := PassGate(email, getAt, allowAt);
      ghost var pool := limiters.View();
      assert Beside(pool) == s0.(pool := pool);
      r := AfterGate(allowed, email, password, accessAt, refreshAt, sessAt, signs, sid, mode, op, pool);
      assert limiters.View() == pool;
    }

    /** GetProfile on repository and cache. */
    method ReadProfile(userId: Option<Id>, mode: CacheMode, ghost pool: R.Pool) returns (r: Response)
      requires Fits(mode)
      modifies cache
      ensures Beside(pool) == GetProfileStep(old(Beside(pool)), GetProfile(userId), mode).0
      ensures r == GetProfileStep(old(Beside(pool)), GetProfile(userId), mode).1
    {
      hide UserByID;
      if userId.None? {
        return Failed(ERR_VALIDATION);
      }
      var u := UserByIDCached(userId.value, mode);
      r := if u.Success? then Project(u.value) else Failed(ERR_NOT_FOUND);
    }

    method Profile(userId: Option<Id>, mode: CacheMode) returns (r: Response)
      requires Valid() && Fits(mode)
      modifies cache
      ensures Valid()
      ensures View() == Step(Cfg(), old(View()), GetProfile(userId), mode).0
      ensures r == Step(Cfg(), old(View()), GetProfile(userId), mode).1
    {
      hide GetProfileStep;
      ghost var pool, s0 := limiters.View(), View();
      Expire(mode);
      assert Beside(pool) == s0.(cache := AfterLosses(s0.cache, mode));
      r := ReadProfile(userId, mode, pool);
      assert limiters.View() == pool;
    }

    /** The guards of RefreshSession: the token verifies, its session is found, live and unexpired. */
    method CheckRefresh(token: Token, verifyAt: Time, checkAt: Time) returns (r: Option<(Id, Session)>)
      ensures r.Some? <==> Refreshable(repo.View(), token, verifyAt, checkAt).Some?
      ensures r.Some? ==> Some(r.value.0) == Verify(token, verifyAt)
                          && Some(r.value.1) == Refreshable(repo.View(), token, verifyAt, checkAt)
    {
      var sub := Verify(token, verifyAt);
      if sub.None? {
        return None;
      }
      var found := repo.FindSessionByTokenHash(Sha256(token));
      if found.Failure? {
        return None;
      }
      var sess := found.value;
      if sess.revokedAt.Some? || Before(sess.expiresAt, checkAt) {
        return None;
      }
      r := Some((sub.value, sess));
    }

    /** RefreshSession on the repository: guards, revoke, sign, store. */
    method Rotate(token: Token, verifyAt: Time, checkAt: Time, revokeAt: Time, accessAt: Time, refreshAt: Time,
                  sessAt: Time, signs: bool, sid: Id, ghost pool: R.Pool, ghost cfg: Config)
      returns (r: Response)
      requires cfg.backend.Memory?
      modifies repo
      ensures var op := Refresh(token, verifyAt, checkAt, revokeAt, accessAt, refreshAt, sessAt, signs, sid);
              Beside(pool) == RefreshStep(cfg, old(Beside(pool)), op).0
                  && r == RefreshStep(cfg, old(Beside(pool)), op).1
    {
      hide Refreshable;
      var usable := CheckRefresh(token, verifyAt, checkAt);
      if usable.None? {
        return Failed(ERR_INVALID_CREDENTIALS);
      }
      var (sub, sess) := usable.value;
      var revoked := repo.RevokeSessionRow(sess.id, revokeAt);
      if revoked.Failure? {
        return Failed(ERR_INTERNAL);
      }
      if !signs {
        return Failed(ERR_INTERNAL);
      }
      var (access, refresh) := Generate(sub, accessAt, refreshAt);
      repo.CreateSessionRow(NewSession(sid, sess.userId, refresh, sessAt));
      r := TokenPair(access, refresh);
    }

    method RefreshSession(token: Token, verifyAt: Time, checkAt: Time, revokeAt: Time,
                          accessAt: Time, refreshAt: Time, sessAt: Time, signs: bool, sid: Id, mode: CacheMode)
      returns (r: Response)
      requires Valid() && Fits(mode)
      modifies repo, cache
      ensures Valid()
      ensures var op := Refresh(token, verifyAt, checkAt, revokeAt, accessAt, refreshAt, sessAt, signs, sid);
              View() == Step(Cfg(), old(View()), op, mode).0 && r == Step(Cfg(), old(View()), op, mode).1
    {
      hide RefreshStep;
      ghost var pool, s0 := limiters.View(), View();
      Expire(mode);
      assert Beside(pool) == s0.(cache := AfterLosses(s0.cache, mode));
      r := Rotate(token, verifyAt, checkAt, revokeAt, accessAt, refreshAt, sessAt, signs, sid, pool, Cfg());
      assert limiters.View() == pool;
    }

    /** Logout on the repository: revoke the session the token finds, if any. */
    method EndSession(token: Token, verifyAt: Time, revokeAt: Time, ghost pool: R.Pool) returns (r: Response)
      modifies repo
      ensures var op := Logout(token, verifyAt, revokeAt);
              Beside(pool) == LogoutStep(old(Beside(pool)), op).0 && r == LogoutStep(old(Beside(pool)), op).1
    {
      // the signature is checked and the outcome ignored
      var _ := Verify(token, verifyAt);
      var found := repo.FindSessionByTokenHash(Sha256(token));
      if found.Success? {
        var _ := repo.RevokeSessionRow(found.value.id, revokeAt);
      }
      r := LoggedOut;
    }

    method LogoutUser(token: Token, verifyAt: Time, revokeAt: Time, mode: CacheMode) returns (r: Response)
      requires Valid() && Fits(mode)
      modifies repo, cache
      ensures Valid()
      ensures View() == Step(Cfg(), old(View()), Logout(token, verifyAt, revokeAt), mode).0
      ensures r == Step(Cfg(), old(View()), Logout(token, verifyAt, revokeAt), mode).1
    {
      hide LogoutStep;
      ghost var pool, s0 := limiters.View(), View();
      Expire(mode);
      assert Beside(pool) == s0.(cache := AfterLosses(s0.cache, mode));
      r := EndSession(token, verifyAt, revokeAt, pool);
      assert limiters.View() == pool;
    }
  }
}
