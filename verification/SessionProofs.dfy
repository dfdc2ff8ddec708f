/**
 * What every serial run of the user service keeps about users, sessions and
 * tokens (internal/user/service/service.go, pkg/auth/jwt.go,
 * internal/user/repo/memory.go).
 */
module SessionProofs {
  import opened Clock
  import opened Wrappers
  import opened Tokens
  import opened Repository
  import opened UserService

  ghost predicate UserOk(st: Store, id: Id) {
    id in st.users ==> st.users[id].id == id && st.users[id].email in st.byEmail && st.byEmail[st.users[id].email] == id
  }

  ghost predicate EmailOk(st: Store, email: string) {
    email in st.byEmail ==> st.byEmail[email] in st.users && st.users[st.byEmail[email]].email == email
  }

  /** A session row belongs to its token's subject and outlives the token; the token was issued in the past. */
  ghost predicate RowOk(st: Store, id: Id, now: Time) {
    id in st.sessions ==>
      var row := st.sessions[id];
      && row.id == id
      && row.userId in st.users
      && row.tokenHash.of.Signed?
      && row.tokenHash.of.sub == row.userId
      && row.tokenHash.of.exp * SECOND <= row.expiresAt
      && IssuedSecond(row.tokenHash.of) <= Unix(now)
  }

  ghost predicate TokenOk(st: Store, h: Digest) {
    h in st.byToken ==> st.byToken[h] in st.sessions && st.sessions[st.byToken[h]].tokenHash == h
  }

  /** In the table, the unique index reaches every row. */
  ghost predicate UniqueOk(backend: Backend, st: Store, id: Id) {
    backend.Table? && id in st.sessions ==>
      st.sessions[id].tokenHash in st.byToken && st.byToken[st.sessions[id].tokenHash] == id
  }

  ghost predicate StoreOk(backend: Backend, st: Store, now: Time) {
    && (forall id :: UserOk(st, id))
    && (forall e :: EmailOk(st, e))
    && (forall id :: RowOk(st, id, now))
    && (forall h :: TokenOk(st, h))
    && (forall id :: UniqueOk(backend, st, id))
  }

  lemma StoreOkLater(backend: Backend, st: Store, now: Time, later: Time)
    requires StoreOk(backend, st, now) && now <= later
    ensures StoreOk(backend, st, later)
  {
    UnixMonotone(now, later);
    forall id ensures RowOk(st, id, later) {
      assert RowOk(st, id, now);
    }
  }

  lemma CreateUserOk(backend: Backend, st: Store, user: User, now: Time)
    requires StoreOk(backend, st, now) && user.id !in st.users
    ensures StoreOk(backend, CreateUser(st, user).0, now)
  {
    var after := CreateUser(st, user).0;
    if user.email !in st.byEmail {
      forall id ensures UserOk(after, id) {
        assert UserOk(st, id);
      }
      forall e ensures EmailOk(after, e) {
        assert EmailOk(st, e);
      }
      forall id ensures RowOk(after, id, now) && UniqueOk(backend, after, id) {
        assert RowOk(st, id, now) && UniqueOk(backend, st, id);
      }
      forall h ensures TokenOk(after, h) {
        assert TokenOk(st, h);
      }
    }
  }

  lemma StoreSessionOk(backend: Backend, st: Store, sid: Id, userId: Id, accessAt: Time, refreshAt: Time, sessAt: Time)
    requires StoreOk(backend, st, sessAt)
    requires userId in st.users && sid !in st.sessions
    requires refreshAt <= sessAt
    ensures StoreOk(backend, StoreSession(backend, st,
        NewSession(sid, userId, Generate(userId, accessAt, refreshAt).1, sessAt)).0, sessAt)
  {
    var token := Generate(userId, accessAt, refreshAt).1;
    var (after, stored) := StoreSession(backend, st, NewSession(sid, userId, token, sessAt));
    RefreshTokenSecond(userId, accessAt, refreshAt);
    UnixMonotone(refreshAt, sessAt);
    if stored {
      forall id ensures UserOk(after, id) {
        assert UserOk(st, id);
      }
      forall e ensures EmailOk(after, e) {
        assert EmailOk(st, e);
      }
      forall id ensures RowOk(after, id, sessAt) && UniqueOk(backend, after, id) {
        assert RowOk(st, id, sessAt) && UniqueOk(backend, st, id);
      }
      forall h ensures TokenOk(after, h) {
        assert TokenOk(st, h);
      }
    }
  }

  lemma RevokeSessionOk(backend: Backend, st: Store, id: Id, revokeAt: Time, now: Time)
    requires StoreOk(backend, st, now)
    ensures StoreOk(backend, RevokeSession(st, id, revokeAt).0, now)
  {
    var after := RevokeSession(st, id, revokeAt).0;
    forall k ensures UserOk(after, k) && RowOk(after, k, now) && UniqueOk(backend, after, k) {
      assert UserOk(st, k) && RowOk(st, k, now) && UniqueOk(backend, st, k);
    }
    forall e ensures EmailOk(after, e) {
      assert EmailOk(st, e);
    }
    forall h ensures TokenOk(after, h) {
      assert TokenOk(st, h);
    }
  }

  /** Lookups by email and by token in a good store. */
  lemma Lookups(backend: Backend, st: Store, now: Time, email: string, h: Digest)
    requires StoreOk(backend, st, now)
    ensures GetUserByEmail(st, email).Success? ==>
              var u := GetUserByEmail(st, email).value; u.id in st.users && st.users[u.id] == u && u.email == email
    ensures GetSessionByTokenHash(st, h).Success? ==>
              var row := GetSessionByTokenHash(st, h).value;
              row.id == st.byToken[h] && row.id in st.sessions && st.sessions[row.id] == row && row.tokenHash == h
                  && RowOk(st, row.id, now)
  {
    assert EmailOk(st, email) && TokenOk(st, h);
    if email in st.byEmail {
      assert UserOk(st, st.byEmail[email]);
    }
    if h in st.byToken {
      assert RowOk(st, st.byToken[h], now);
    }
  }

  lemma LoginOk(cfg: Config, s: Svc, now: Time, op: Op, mode: CacheMode)
    requires op.Login? && StoreOk(cfg.backend, s.store, now) && ClockOk(now, op) && IdsFresh(s.store, op)
    ensures StoreOk(cfg.backend, LoginStep(cfg, s, op, mode).0.store, op.sessAt)
  {
    StoreOkLater(cfg.backend, s.store, now, op.sessAt);
    Lookups(cfg.backend, s.store, now, op.email, Sha256(Other("")));
    var found := GetUserByEmail(s.store, op.email);
    if found.Success? {
      StoreSessionOk(cfg.backend, s.store, op.sid, found.value.id, op.accessAt, op.refreshAt, op.sessAt);
    }
  }

  lemma RefreshOk(cfg: Config, s: Svc, now: Time, op: Op)
    requires op.Refresh? && StoreOk(cfg.backend, s.store, now) && ClockOk(now, op) && IdsFresh(s.store, op)
    ensures StoreOk(cfg.backend, RefreshStep(cfg, s, op).0.store, op.sessAt)
  {
    StoreOkLater(cfg.backend, s.store, now, op.sessAt);
    Lookups(cfg.backend, s.store, now, "", Sha256(op.token));
    var sess := Refreshable(s.store, op.token, op.verifyAt, op.checkAt);
    if sess.Some? {
      var revoked := RevokeSession(s.store, sess.value.id, op.revokeAt).0;
      RevokeSessionOk(cfg.backend, s.store, sess.value.id, op.revokeAt, op.sessAt);
      StoreSessionOk(cfg.backend, revoked, op.sid, sess.value.userId, op.accessAt, op.refreshAt, op.sessAt);
    }
  }

  lemma StepOk(cfg: Config, s: Svc, now: Time, op: Op, mode: CacheMode)
    requires StoreOk(cfg.backend, s.store, now) && ClockOk(now, op) && IdsFresh(s.store, op)
    requires op.Cleanup? ==> cfg.backend.Table?
    ensures StoreOk(cfg.backend, Step(cfg, s, op, mode).0.store, TimeAfter(now, op))
    ensures now <= TimeAfter(now, op)
  {
    var s0 := s.(cache := AfterLosses(s.cache, mode));
    StoreOkLater(cfg.backend, s.store, now, TimeAfter(now, op));
    match op
    case Register(email, username, password, valid, hashes, salt, id, at) =>
      CreateUserOk(cfg.backend, s.store, User(id, email, username, Bcrypt(password, salt), at, at), at);
    case Login(_, _, _, _, _, _, _, _, _) => LoginOk(cfg, s0, now, op, mode);
    case GetProfile(_) =>
    case Refresh(_, _, _, _, _, _, _, _, _) => RefreshOk(cfg, s0, now, op);
    case Logout(token, _, revokeAt) =>
      Lookups(cfg.backend, s.store, now, "", Sha256(token));
      if GetSessionByTokenHash(s.store, Sha256(token)).Success? {
        RevokeSessionOk(cfg.backend, s.store, GetSessionByTokenHash(s.store, Sha256(token)).value.id, revokeAt,
            TimeAfter(now, op));
      }
    case Cleanup(at) =>
      var after := CleanupSessions(s.store, at);
      forall k ensures UserOk(after, k) && RowOk(after, k, at) && UniqueOk(Table, after, k) {
        assert UserOk(s.store, k) && RowOk(s.store, k, at) && UniqueOk(Table, s.store, k);
      }
      forall e ensures EmailOk(after, e) {
        assert EmailOk(s.store, e);
      }
      forall h ensures TokenOk(after, h) {
        assert TokenOk(s.store, h);
      }
  }

  /** And so does every serial run; the empty store is good. */
  lemma {:induction false} RunOk(cfg: Config, s: Svc, now: Time, events: seq<Event>)
    requires StoreOk(cfg.backend, s.store, now) && Legal(cfg, s, now, events)
    ensures StoreOk(cfg.backend, Run(cfg, s, events).store, EndTime(now, events)) && now <= EndTime(now, events)
    decreases |events|
  {
    if events != [] {
      StepOk(cfg, s, now, events[0].op, events[0].mode);
      RunOk(cfg, Step(cfg, s, events[0].op, events[0].mode).0, TimeAfter(now, events[0].op), events[1..]);
    }
  }

  /**
   * Token and session agree in every reachable state: a session found by a token's
   * hash belongs to the token's subject, who exists, and outlives the token; so at
   * any instant at which the token verifies the expiry test cannot fire.
   */
  lemma TokenSessionAgreement(cfg: Config, now: Time, events: seq<Event>, token: Token, at: Time)
    requires Legal(cfg, START, now, events)
    ensures var st := Run(cfg, START, events).store;
            GetSessionByTokenHash(st, Sha256(token)).Success? ==>
              var sess := GetSessionByTokenHash(st, Sha256(token)).value;
              && token.Signed? && sess.userId == token.sub && GetUserByID(st, sess.userId).Success?
              && token.exp * SECOND <= sess.expiresAt
              && (Verify(token, at).Some? ==> !Before(sess.expiresAt, at))
              && (Refreshable(st, token, at, at).Some? <==> Verify(token, at).Some? && sess.revokedAt.None?)
  {
    RunOk(cfg, START, now, events);
    Lookups(cfg.backend, Run(cfg, START, events).store, EndTime(now, events), "", Sha256(token));
  }

  /** A successful refresh issues token and session for one and the same user, the old session's. */
  lemma RefreshKeepsUser(cfg: Config, now: Time, events: seq<Event>, op: Op, mode: CacheMode)
    requires Legal(cfg, START, now, events) && op.Refresh?
    requires Step(cfg, Run(cfg, START, events), op, mode).1.TokenPair?
    ensures var s := Run(cfg, START, events);
            var (after, r) := Step(cfg, s, op, mode);
            && op.token.Signed? && r.refresh.Signed? && r.access.Signed?
            && r.refresh.sub == r.access.sub == op.token.sub
            && op.sid in after.store.sessions
            && after.store.sessions[op.sid].userId == op.token.sub
            && after.store.sessions[op.sid].tokenHash == Sha256(r.refresh)
            && after.store.sessions[op.sid].revokedAt.None?
            && GetSessionByTokenHash(after.store, Sha256(r.refresh)) == Success(after.store.sessions[op.sid])
  {
    RunOk(cfg, START, now, events);
    Lookups(cfg.backend, Run(cfg, START, events).store, EndTime(now, events), "", Sha256(op.token));
  }
}
