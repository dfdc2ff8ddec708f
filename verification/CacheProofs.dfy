/**
 * The read-through user cache is transparent at the gRPC boundary
 * (internal/user/service/service.go, getUserByEmail and getUserByID;
 * internal/user/grpc/server.go).
 */
module CacheProofs {
  import opened Clock
  import opened Wrappers
  import opened Tokens
  import opened Repository
  import opened UserService
  import opened SessionProofs
  import RateLimiter

  /** The two key families never meet, and each is injective. */
  lemma KeysApart(email: string, id: Id, email': string, id': Id)
    ensures KeyByEmail(email) != KeyByID(id)
    ensures KeyByEmail(email) == KeyByEmail(email') <==> email == email'
    ensures KeyByID(id) == KeyByID(id') <==> id == id'
  {
    assert KeyByEmail(email)[5] == 'e' && KeyByID(id)[5] == 'i';
    assert KeyByEmail(email)[11..] == email && KeyByEmail(email')[11..] == email';
    assert KeyByID(id)[8..] == id && KeyByID(id')[8..] == id';
  }

  /** A cached row comes back unchanged exactly when it has no password hash and whole-second times. */
  lemma ViewLosesHashAndFractions(u: User)
    ensures ToUserRow(ToView(u)) == u
            <==> (u.passwordHash == NoHash && u.createdAt % SECOND == 0 && u.updatedAt % SECOND == 0)
    ensures Project(ToUserRow(ToView(u))) == Project(u)
    ensures ToView(ToUserRow(ToView(u))) == ToView(u)
    ensures !ComparePassword(ToUserRow(ToView(u)).passwordHash, "")
  {
  }

  ghost predicate IdEntryOk(st: Store, cache: CacheState, id: Id) {
    KeyByID(id) in cache ==> id in st.users && cache[KeyByID(id)] == ToView(st.users[id])
  }

  ghost predicate EmailEntryOk(st: Store, cache: CacheState, email: string) {
    KeyByEmail(email) in cache ==>
      GetUserByEmail(st, email).Success? && cache[KeyByEmail(email)] == ToView(GetUserByEmail(st, email).value)
  }

  /** Every cached view is the view of the stored row. */
  ghost predicate CacheOk(st: Store, cache: CacheState) {
    && (forall id :: IdEntryOk(st, cache, id))
    && (forall e :: EmailEntryOk(st, cache, e))
  }

  lemma RememberOk(st: Store, cache: CacheState, mode: CacheMode, u: User, now: Time, backend: Backend)
    requires StoreOk(backend, st, now) && CacheOk(st, cache)
    requires u.id in st.users && st.users[u.id] == u
    ensures CacheOk(st, Remember(cache, mode, KeyByEmail(u.email), KeyByID(u.id), ToView(u)))
    ensures CacheOk(st, Remember(cache, mode, KeyByID(u.id), KeyByEmail(u.email), ToView(u)))
  {
    var a := Remember(cache, mode, KeyByEmail(u.email), KeyByID(u.id), ToView(u));
    var b := Remember(cache, mode, KeyByID(u.id), KeyByEmail(u.email), ToView(u));
    assert UserOk(st, u.id);
    forall id ensures IdEntryOk(st, a, id) && IdEntryOk(st, b, id) {
      assert IdEntryOk(st, cache, id);
      KeysApart(u.email, id, u.email, u.id);
    }
    forall e ensures EmailEntryOk(st, a, e) && EmailEntryOk(st, b, e) {
      assert EmailEntryOk(st, cache, e);
      KeysApart(e, u.id, u.email, u.id);
    }
  }

  lemma FewerEntriesOk(st: Store, cache: CacheState, keys: set<string>)
    requires CacheOk(st, cache)
    ensures CacheOk(st, cache - keys)
  {
    forall id ensures IdEntryOk(st, cache - keys, id) {
      assert IdEntryOk(st, cache, id);
    }
    forall e ensures EmailEntryOk(st, cache - keys, e) {
      assert EmailEntryOk(st, cache, e);
    }
  }

  /** A new user invalidates nothing: neither its id nor its email was cached. */
  lemma CreateKeepsCacheOk(st: Store, cache: CacheState, user: User, now: Time, backend: Backend)
    requires StoreOk(backend, st, now) && CacheOk(st, cache) && user.id !in st.users
    ensures CacheOk(CreateUser(st, user).0, cache)
  {
    var after := CreateUser(st, user).0;
    forall id ensures IdEntryOk(after, cache, id) {
      assert IdEntryOk(st, cache, id);
    }
    forall e ensures EmailEntryOk(after, cache, e) {
      assert EmailEntryOk(st, cache, e) && EmailOk(st, e);
    }
  }

  lemma ByEmailOk(mode: CacheMode, st: Store, cache: CacheState, email: string, now: Time, backend: Backend)
    requires StoreOk(backend, st, now) && CacheOk(st, cache)
    ensures CacheOk(st, UserByEmail(mode, st, cache, email).0)
  {
    var found := GetUserByEmail(st, email);
    if found.Success? {
      Lookups(backend, st, now, email, Sha256(Other("")));
      RememberOk(st, cache, mode, found.value, now, backend);
    }
  }

  /** The getter by id agrees with the repository on everything the response shows. */
  lemma ByIDOk(mode: CacheMode, st: Store, cache: CacheState, id: Id, now: Time, backend: Backend)
    requires StoreOk(backend, st, now) && CacheOk(st, cache)
    ensures CacheOk(st, UserByID(mode, st, cache, id).0)
    ensures var r := UserByID(mode, st, cache, id).1;
            && (r.Success? <==> id in st.users)
            && (r.Success? ==> Project(r.value) == Project(st.users[id]))
            && (r.Failure? ==> r == Failure(NotFound))
  {
    assert IdEntryOk(st, cache, id) && UserOk(st, id);
    if id in st.users {
      RememberOk(st, cache, mode, st.users[id], now, backend);
    }
  }

  lemma SameUsers(st: Store, st': Store, cache: CacheState)
    requires st.users == st'.users && st.byEmail == st'.byEmail
    ensures CacheOk(st, cache) <==> CacheOk(st', cache)
  {
    assert forall id :: IdEntryOk(st, cache, id) <==> IdEntryOk(st', cache, id);
    assert forall e :: EmailEntryOk(st, cache, e) <==> EmailEntryOk(st', cache, e);
  }

  // ---------- the cache does its work ----------

  /** A read from the repository puts the row's view under both keys, where the writes succeed, and touches no other. */
  lemma ReadsFillTheCache(mode: CacheMode, st: Store, cache: CacheState, u: User, key: string)
    requires mode.Cached? && mode.setFirst && mode.setSecond
    requires GetUserByEmail(st, u.email) == Success(u)
    ensures var after := UserByEmail(mode, st, cache, u.email).0;
            && "user:id:" + u.id in after && after["user:id:" + u.id] == ToView(u)
            && "user:email:" + u.email in after && after["user:email:" + u.email] == ToView(u)
            && (key != "user:id:" + u.id && key != "user:email:" + u.email ==>
                  (key in after <==> key in cache) && (key in after ==> after[key] == cache[key]))
  {
    KeysApart(u.email, u.id, u.email, u.id);
  }

  lemma MissFillsTheCache(mode: CacheMode, st: Store, cache: CacheState, u: User, key: string)
    requires mode.Cached? && mode.setFirst && mode.setSecond && (!mode.hit || KeyByID(u.id) !in cache)
    requires GetUserByID(st, u.id) == Success(u)
    ensures var after := UserByID(mode, st, cache, u.id).0;
            && "user:id:" + u.id in after && after["user:id:" + u.id] == ToView(u)
            && "user:email:" + u.email in after && after["user:email:" + u.email] == ToView(u)
            && (key != "user:id:" + u.id && key != "user:email:" + u.email ==>
                  (key in after <==> key in cache) && (key in after ==> after[key] == cache[key]))
  {
    KeysApart(u.email, u.id, u.email, u.id);
  }

  /** A hit by id is answered from the cache alone: the repository could say anything. */
  lemma HitAsksNobody(mode: CacheMode, st: Store, st': Store, cache: CacheState, id: Id)
    requires mode.Cached? && mode.hit && "user:id:" + id in cache
    ensures UserByID(mode, st, cache, id) == UserByID(mode, st', cache, id)
    ensures var view := cache["user:id:" + id];
            var r := UserByID(mode, st, cache, id).1;
            r.Success? && Project(r.value) == Profile(view.id, view.email, view.username)
  {
  }

  /** A registration whose Del reaches the cache leaves neither of the user's keys in it. */
  lemma RegisterForgets(cfg: Config, s: Svc, op: Op, mode: CacheMode)
    requires op.Register? && Step(cfg, s, op, mode).1.Registered? && mode.Cached? && mode.del
    ensures var cache := Step(cfg, s, op, mode).0.cache;
            "user:email:" + op.email !in cache && "user:id:" + op.id !in cache
  {
  }

  /** Two service states that differ only in their caches. */
  predicate SameButCache(s: Svc, bare: Svc) {
    s.store == bare.store && s.pool == bare.pool
  }

  lemma RegisterTransparent(s: Svc, bare: Svc, op: Op, mode: CacheMode)
    requires op.Register? && SameButCache(s, bare)
    ensures RegisterStep(s, op, mode).1 == RegisterStep(bare, op, NoCache).1
    ensures SameButCache(RegisterStep(s, op, mode).0, RegisterStep(bare, op, NoCache).0)
  {
  }

  lemma LoginTransparent(backend: Backend, s: Svc, bare: Svc, op: Op, mode: CacheMode)
    requires op.Login? && SameButCache(s, bare)
    ensures Authenticate(backend, s, op, mode).1 == Authenticate(backend, bare, op, NoCache).1
    ensures SameButCache(Authenticate(backend, s, op, mode).0, Authenticate(backend, bare, op, NoCache).0)
  {
  }

  lemma GateTransparent(cfg: Config, s: Svc, bare: Svc, op: Op, mode: CacheMode)
    requires op.Login? && SameButCache(s, bare)
    ensures LoginStep(cfg, s, op, mode).1 == LoginStep(cfg, bare, op, NoCache).1
    ensures SameButCache(LoginStep(cfg, s, op, mode).0, LoginStep(cfg, bare, op, NoCache).0)
  {
    var pool := RateLimiter.Pass(cfg.pool, s.pool, op.email, cfg.rate, op.getAt, op.allowAt).0;
    LoginTransparent(cfg.backend, s.(pool := pool), bare.(pool := pool), op, mode);
  }

  lemma ProfileTransparent(s: Svc, bare: Svc, now: Time, op: Op, mode: CacheMode, backend: Backend)
    requires op.GetProfile? && SameButCache(s, bare)
    requires StoreOk(backend, s.store, now) && CacheOk(s.store, s.cache)
    ensures GetProfileStep(s, op, mode).1 == GetProfileStep(bare, op, NoCache).1
    ensures SameButCache(GetProfileStep(s, op, mode).0, GetProfileStep(bare, op, NoCache).0)
  {
    if op.userId.Some? {
      ByIDOk(mode, s.store, s.cache, op.userId.value, now, backend);
    }
  }

  /** The same operation with and without the cache: same response, same store, same limiter. */
  lemma StepTransparent(cfg: Config, s: Svc, bare: Svc, now: Time, op: Op, mode: CacheMode)
    requires StoreOk(cfg.backend, s.store, now) && CacheOk(s.store, s.cache)
    requires SameButCache(s, bare)
    ensures Step(cfg, s, op, mode).1 == Step(cfg, bare, op, NoCache).1
    ensures SameButCache(Step(cfg, s, op, mode).0, Step(cfg, bare, op, NoCache).0)
  {
    var s0 := s.(cache := AfterLosses(s.cache, mode));
    if mode.Cached? {
      FewerEntriesOk(s.store, s.cache, mode.lost);
    }
    match op
    case Register(_, _, _, _, _, _, _, _) => RegisterTransparent(s0, bare, op, mode);
    case Login(_, _, _, _, _, _, _, _, _) => GateTransparent(cfg, s0, bare, op, mode);
    case GetProfile(_) => ProfileTransparent(s0, bare, now, op, mode, cfg.backend);
    case Refresh(_, _, _, _, _, _, _, _, _) =>
    case Logout(_, _, _) =>
    case Cleanup(_) =>
  }

  lemma RegisterKeepsCacheOk(s: Svc, now: Time, op: Op, mode: CacheMode, backend: Backend)
    requires op.Register? && IdsFresh(s.store, op)
    requires StoreOk(backend, s.store, now) && CacheOk(s.store, s.cache)
    ensures CacheOk(RegisterStep(s, op, mode).0.store, RegisterStep(s, op, mode).0.cache)
  {
    ByEmailOk(mode, s.store, s.cache, op.email, now, backend);
    var cache := UserByEmail(mode, s.store, s.cache, op.email).0;
    var user := User(op.id, op.email, op.username, Bcrypt(op.password, op.salt), op.now, op.now);
    CreateKeepsCacheOk(s.store, cache, user, now, backend);
    FewerEntriesOk(CreateUser(s.store, user).0, cache, {KeyByEmail(op.email), KeyByID(op.id)});
  }

  lemma LoginKeepsCacheOk(cfg: Config, s: Svc, now: Time, op: Op, mode: CacheMode)
    requires op.Login? && StoreOk(cfg.backend, s.store, now) && CacheOk(s.store, s.cache)
    ensures CacheOk(LoginStep(cfg, s, op, mode).0.store, LoginStep(cfg, s, op, mode).0.cache)
  {
    ByEmailOk(mode, s.store, s.cache, op.email, now, cfg.backend);
    var (pool, allowed) := RateLimiter.Pass(cfg.pool, s.pool, op.email, cfg.rate, op.getAt, op.allowAt);
    if allowed {
      var after := Authenticate(cfg.backend, s.(pool := pool), op, mode).0;
      assert after.cache == UserByEmail(mode, s.store, s.cache, op.email).0;
      SameUsers(s.store, after.store, after.cache);
    }
  }

  lemma StepKeepsCacheOk(cfg: Config, s: Svc, now: Time, op: Op, mode: CacheMode)
    requires StoreOk(cfg.backend, s.store, now) && CacheOk(s.store, s.cache) && IdsFresh(s.store, op)
    ensures CacheOk(Step(cfg, s, op, mode).0.store, Step(cfg, s, op, mode).0.cache)
  {
    var s0 := s.(cache := AfterLosses(s.cache, mode));
    if mode.Cached? {
      FewerEntriesOk(s.store, s.cache, mode.lost);
    }
    match op
    case Register(_, _, _, _, _, _, _, _) => RegisterKeepsCacheOk(s0, now, op, mode, cfg.backend);
    case Login(_, _, _, _, _, _, _, _, _) => LoginKeepsCacheOk(cfg, s0, now, op, mode);
    case GetProfile(userId) =>
      if userId.Some? {
        ByIDOk(mode, s.store, s0.cache, userId.value, now, cfg.backend);
      }
    case Refresh(_, _, _, _, _, _, _, _, _) => SameUsers(s.store, RefreshStep(cfg, s0, op).0.store, s0.cache);
    case Logout(_, _, _) => SameUsers(s.store, LogoutStep(s0, op).0.store, s0.cache);
    case Cleanup(at) => SameUsers(s.store, CleanupSessions(s.store, at), s.cache);
  }

  /** The same run with no cache behind the service. */
  function WithoutCache(events: seq<Event>): seq<Event> {
    if events == [] then [] else [Event(events[0].op, NoCache)] + WithoutCache(events[1..])
  }

  lemma {:induction false} RunTransparent(cfg: Config, s: Svc, bare: Svc, now: Time, events: seq<Event>)
    requires Legal(cfg, s, now, events)
    requires StoreOk(cfg.backend, s.store, now) && CacheOk(s.store, s.cache)
    requires SameButCache(s, bare)
    ensures Responses(cfg, s, events) == Responses(cfg, bare, WithoutCache(events))
    ensures Run(cfg, s, events).store == Run(cfg, bare, WithoutCache(events)).store
    ensures CacheOk(Run(cfg, s, events).store, Run(cfg, s, events).cache)
    decreases |events|
  {
    if events != [] {
      var op, mode := events[0].op, events[0].mode;
      StepTransparent(cfg, s, bare, now, op, mode);
      StepKeepsCacheOk(cfg, s, now, op, mode);
      StepOk(cfg, s, now, op, mode);
      assert WithoutCache(events)[0] == Event(op, NoCache) && WithoutCache(events)[1..] == WithoutCache(events[1..]);
      RunTransparent(cfg, Step(cfg, s, op, mode).0, Step(cfg, bare, op, NoCache).0, TimeAfter(now, op), events[1..]);
    }
  }

  /**
   * Cache transparency: in every serial run, on either backend, with the same ids and clock, every gRPC
   * response is the one given with no cache, whatever the cache hits, misses,
   * expires or loses at any step.
   */
  lemma CacheIsTransparent(cfg: Config, now: Time, events: seq<Event>)
    requires Legal(cfg, START, now, events)
    ensures Responses(cfg, START, events) == Responses(cfg, START, WithoutCache(events))
    ensures Run(cfg, START, events).store == Run(cfg, START, WithoutCache(events)).store
    ensures CacheOk(Run(cfg, START, events).store, Run(cfg, START, events).cache)
  {
    RunTransparent(cfg, START, START, now, events);
  }
}
