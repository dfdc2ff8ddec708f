/**
 * What each operation leaves in the tables, field by field, with the periods of the
 * source written out in nanoseconds (internal/user/service/service.go,
 * internal/user/sqlc/gen/user.sql.go).
 */
module RowEffects {
  import opened Clock
  import opened Wrappers
  import opened Tokens
  import opened Repository
  import opened UserService
  import opened SessionProofs
  import RateLimiter

  /** A registered user is one new row, stamped twice with the same instant, under both keys; nothing else moves. */
  lemma RegisterAddsOneRow(cfg: Config, s: Svc, op: Op, mode: CacheMode, password: string)
    requires op.Register? && Step(cfg, s, op, mode).1.Registered?
    ensures var st, st' := s.store, Step(cfg, s, op, mode).0.store;
            && op.email !in st.byEmail && op.id in st'.users
            && var u := st'.users[op.id];
               && u.id == op.id && u.email == op.email && u.username == op.username
               && u.createdAt == op.now && u.updatedAt == op.now
               && (ComparePassword(u.passwordHash, password) <==> password == op.password)
               && st' == st.(users := st.users[op.id := u], byEmail := st.byEmail[op.email := op.id])
  {
  }

  /** The session behind a pair of tokens: seven days from `at`, not revoked, found by the refresh token's hash. */
  predicate SessionFor(row: Session, sid: Id, userId: Id, refresh: Token, at: Time) {
    && row.id == sid && row.userId == userId && row.tokenHash == Sha256(refresh)
    && row.createdAt == at && row.expiresAt == at + 604_800 * 1_000_000_000 && row.revokedAt.None?
  }

  /** The tokens of a pair: both for the user, good for fifteen minutes and for seven days. */
  predicate PairFor(access: Token, refresh: Token, userId: Id, accessAt: Time, refreshAt: Time) {
    && access == Signed(userId, (accessAt + 900 * 1_000_000_000) / 1_000_000_000)
    && refresh == Signed(userId, (refreshAt + 604_800 * 1_000_000_000) / 1_000_000_000)
  }

  /** A successful Login adds one session for the user of that email and hands out its pair. */
  lemma LoginAddsOneSession(cfg: Config, s: Svc, op: Op, mode: CacheMode)
    requires op.Login? && Step(cfg, s, op, mode).1.TokenPair?
    ensures var (after, r) := Step(cfg, s, op, mode);
            var st, st' := s.store, after.store;
            && GetUserByEmail(st, op.email).Success?
            && var user := GetUserByEmail(st, op.email).value;
               && ComparePassword(user.passwordHash, op.password)
               && PairFor(r.access, r.refresh, user.id, op.accessAt, op.refreshAt)
               && op.sid in st'.sessions
               && SessionFor(st'.sessions[op.sid], op.sid, user.id, r.refresh, op.sessAt)
               && st' == st.(sessions := st.sessions[op.sid := st'.sessions[op.sid]],
                             byToken := st.byToken[Sha256(r.refresh) := op.sid])
  {
    hide RateLimiter.Pass;
  }

  /** A Login that fails leaves every row as it was. */
  lemma FailedLoginLeavesRows(cfg: Config, s: Svc, op: Op, mode: CacheMode)
    requires op.Login? && !Step(cfg, s, op, mode).1.TokenPair?
    ensures Step(cfg, s, op, mode).0.store == s.store
  {
    hide RateLimiter.Pass;
  }

  /** The row with its revocation stamped. */
  function Stamped(row: Session, at: Time): Session {
    Session(row.id, row.userId, row.tokenHash, row.expiresAt, row.createdAt, Some(at))
  }

  /**
   * A refresh that gets past its guards stamps the presented session with `revokeAt`,
   * whatever comes after; only a successful one adds a session, and moves nothing else.
   */
  lemma RefreshStampsAndAdds(cfg: Config, s: Svc, now: Time, op: Op, mode: CacheMode)
    requires op.Refresh? && StoreOk(cfg.backend, s.store, now) && IdsFresh(s.store, op)
    ensures var (after, r) := Step(cfg, s, op, mode);
            var st, st' := s.store, after.store;
            match Refreshable(st, op.token, op.verifyAt, op.checkAt)
            case None => st' == st && !r.TokenPair?
            case Some(used) =>
              var stamped := st.(sessions := st.sessions[used.id := Stamped(used, op.revokeAt)]);
              if r.TokenPair? then
                && op.sid in st'.sessions
                && SessionFor(st'.sessions[op.sid], op.sid, used.userId, r.refresh, op.sessAt)
                && PairFor(r.access, r.refresh, used.userId, op.accessAt, op.refreshAt)
                && st' == stamped.(sessions := stamped.sessions[op.sid := st'.sessions[op.sid]],
                                   byToken := stamped.byToken[Sha256(r.refresh) := op.sid])
              else st' == stamped
  {
    Lookups(cfg.backend, s.store, now, "", Sha256(op.token));
  }

  /** Logout stamps the session its token finds with `revokeAt`, even one stamped before, and moves nothing else. */
  lemma LogoutStamps(cfg: Config, s: Svc, now: Time, op: Op, mode: CacheMode)
    requires op.Logout? && StoreOk(cfg.backend, s.store, now)
    ensures var st, st' := s.store, Step(cfg, s, op, mode).0.store;
            match GetSessionByTokenHash(st, Sha256(op.token))
            case Failure(_) => st' == st
            case Success(used) => st' == st.(sessions := st.sessions[used.id := Stamped(used, op.revokeAt)])
  {
    Lookups(cfg.backend, s.store, now, "", Sha256(op.token));
  }

  /**
   * Cleanup deletes exactly the sessions that were revoked and expired more than seven
   * days before; every other row and the index entries to it stay as they were, and the
   * hash of a deleted row finds nothing.
   */
  lemma CleanupDeletesExactly(cfg: Config, s: Svc, now: Time, op: Op, mode: CacheMode, id: Id, h: Digest)
    requires op.Cleanup? && cfg.backend.Table? && StoreOk(Table, s.store, now)
    ensures var st, st' := s.store, Step(cfg, s, op, mode).0.store;
            && (id in st'.sessions <==>
                id in st.sessions
                && !(st.sessions[id].revokedAt.Some? && st.sessions[id].expiresAt < op.now - 604_800 * 1_000_000_000))
            && (id in st'.sessions ==> st'.sessions[id] == st.sessions[id])
            && (id in st.sessions && id !in st'.sessions ==>
                GetSessionByTokenHash(st', st.sessions[id].tokenHash) == Failure(NotFound))
            && (h in st'.byToken <==> h in st.byToken && st.byToken[h] in st'.sessions)
            && (h in st'.byToken ==> st'.byToken[h] == st.byToken[h])
            && st'.users == st.users && st'.byEmail == st.byEmail
  {
    assert TokenOk(s.store, h);
    if id in s.store.sessions {
      assert UniqueOk(Table, s.store, id) && TokenOk(s.store, s.store.sessions[id].tokenHash);
    }
  }

  /** So after every serial run on the table, a Cleanup leaves no session that is due for deletion, and all the rest. */
  lemma CleanupAfterAnyRun(cfg: Config, now: Time, pre: seq<Event>, op: Op, mode: CacheMode, id: Id)
    requires cfg.backend.Table? && Legal(cfg, START, now, pre) && op.Cleanup?
    ensures var st, st' := Run(cfg, START, pre).store, Run(cfg, START, pre + [Event(op, mode)]).store;
            && (id in st'.sessions <==>
                id in st.sessions
                && !(st.sessions[id].revokedAt.Some? && st.sessions[id].expiresAt < op.now - 604_800 * 1_000_000_000))
            && (id in st'.sessions ==> st'.sessions[id] == st.sessions[id])
  {
    hide Step;
    RunOk(cfg, START, now, pre);
    LastStep(cfg, START, pre, Event(op, mode));
    CleanupDeletesExactly(cfg, Run(cfg, START, pre), EndTime(now, pre), op, mode, id, Sha256(Other("")));
  }

  lemma {:induction false} LastStep(cfg: Config, s: Svc, events: seq<Event>, e: Event)
    ensures Run(cfg, s, events + [e]) == Step(cfg, Run(cfg, s, events), e.op, e.mode).0
    decreases |events|
  {
    hide Step;
    if events == [] {
      assert ([] + [e])[1..] == [] && ([] + [e])[0] == e;
    } else {
      assert (events + [e])[1..] == events[1..] + [e];
      LastStep(cfg, Step(cfg, s, events[0].op, events[0].mode).0, events[1..], e);
    }
  }
}
