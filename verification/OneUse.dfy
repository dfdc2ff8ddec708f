/**
 * How often a refresh token can be used
 * (internal/user/service/service.go, RefreshSession and Logout).
 */
module OneUse {
  import opened Clock
  import opened Wrappers
  import opened Tokens
  import opened Repository
  import opened Errors
  import opened UserService
  import opened SessionProofs
  import RateLimiter

  /** A refresh of `token` that returned a new pair. */
  predicate Used(op: Op, r: Response, token: Token) {
    op.Refresh? && op.token == token && r.TokenPair?
  }

  /** An operation that handed `token` out as a refresh token. */
  predicate Issued(r: Response, token: Token) {
    r.TokenPair? && r.refresh == token
  }

  function Uses(cfg: Config, s: Svc, events: seq<Event>, token: Token): nat
    decreases |events|
  {
    if events == [] then 0
    else
      var (after, r) := Step(cfg, s, events[0].op, events[0].mode);
      (if Used(events[0].op, r, token) then 1 else 0) + Uses(cfg, after, events[1..], token)
  }

  function Issues(cfg: Config, s: Svc, events: seq<Event>, token: Token): nat
    decreases |events|
  {
    if events == [] then 0
    else
      var (after, r) := Step(cfg, s, events[0].op, events[0].mode);
      (if Issued(r, token) then 1 else 0) + Issues(cfg, after, events[1..], token)
  }

  /** The token's hash finds a session that is not revoked. */
  predicate Live(st: Store, token: Token) {
    var found := GetSessionByTokenHash(st, Sha256(token));
    found.Success? && found.value.revokedAt.None?
  }

  /** Revoking the row a token finds makes exactly that token not live. */
  lemma LiveAfterRevoke(backend: Backend, st: Store, now: Time, used: Token, at: Time, token: Token)
    requires StoreOk(backend, st, now) && GetSessionByTokenHash(st, Sha256(used)).Success?
    ensures var after := RevokeSession(st, GetSessionByTokenHash(st, Sha256(used)).value.id, at).0;
            Live(after, token) <==> Live(st, token) && token != used
  {
    Lookups(backend, st, now, "", Sha256(used));
    Lookups(backend, st, now, "", Sha256(token));
    assert TokenOk(st, Sha256(used)) && TokenOk(st, Sha256(token));
  }

  /** Storing a session under a fresh id makes exactly its own token live. */
  lemma LiveAfterStore(backend: Backend, st: Store, now: Time, sess: Session, token: Token)
    requires StoreOk(backend, st, now) && sess.id !in st.sessions && sess.revokedAt.None?
    ensures var (after, stored) := StoreSession(backend, st, sess);
            Live(after, token) <==> Live(st, token) || (stored && sess.tokenHash == Sha256(token))
  {
    assert TokenOk(st, Sha256(token));
  }

  lemma LiveRefresh(cfg: Config, s: Svc, now: Time, op: Op, token: Token)
    requires op.Refresh? && StoreOk(cfg.backend, s.store, now) && ClockOk(now, op) && IdsFresh(s.store, op)
    ensures var (after, r) := RefreshStep(cfg, s, op);
            && (Used(op, r, token) ==> Live(s.store, token))
            && (Live(after.store, token) <==>
                  (&& Live(s.store, token)
                   && !(op.token == token && Refreshable(s.store, token, op.verifyAt, op.checkAt).Some?))
                  || Issued(r, token))
  {
    var sess := Refreshable(s.store, op.token, op.verifyAt, op.checkAt);
    if sess.Some? {
      Lookups(cfg.backend, s.store, now, "", Sha256(op.token));
      LiveAfterRevoke(cfg.backend, s.store, now, op.token, op.revokeAt, token);
      RevokeSessionOk(cfg.backend, s.store, sess.value.id, op.revokeAt, now);
      var revoked := RevokeSession(s.store, sess.value.id, op.revokeAt).0;
      LiveAfterStore(cfg.backend, revoked, now,
                     NewSession(op.sid, sess.value.userId, Generate(op.token.sub, op.accessAt, op.refreshAt).1,
                         op.sessAt), token);
    }
  }

  lemma LiveLogin(cfg: Config, s: Svc, now: Time, op: Op, mode: CacheMode, token: Token)
    requires op.Login? && StoreOk(cfg.backend, s.store, now) && IdsFresh(s.store, op)
    ensures var (after, r) := LoginStep(cfg, s, op, mode);
            Live(after.store, token) ==> Live(s.store, token) || Issued(r, token)
  {
    hide RateLimiter.Pass, Remember;
    var found := GetUserByEmail(s.store, op.email);
    if found.Success? {
      LiveAfterStore(cfg.backend, s.store, now,
                     NewSession(op.sid, found.value.id, Generate(found.value.id, op.accessAt, op.refreshAt).1,
                         op.sessAt), token);
    }
  }

  /** No operation can make a second use out of one issue. */
  lemma LiveStep(cfg: Config, s: Svc, now: Time, op: Op, mode: CacheMode, token: Token)
    requires StoreOk(cfg.backend, s.store, now) && ClockOk(now, op) && IdsFresh(s.store, op)
    ensures var (after, r) := Step(cfg, s, op, mode);
            (if Used(op, r, token) then 1 else 0) + (if Live(after.store, token) then 1 else 0)
            <= (if Live(s.store, token) then 1 else 0) + (if Issued(r, token) then 1 else 0)
  {
    var s0 := s.(cache := AfterLosses(s.cache, mode));
    match op
    case Register(_, _, _, _, _, _, _, _) =>
    case Login(_, _, _, _, _, _, _, _, _) => LiveLogin(cfg, s0, now, op, mode, token);
    case GetProfile(_) =>
    case Refresh(_, _, _, _, _, _, _, _, _) =>
      hide Live, RefreshStep;
      LiveRefresh(cfg, s0, now, op, token);
    case Logout(used, _, revokeAt) =>
      if GetSessionByTokenHash(s.store, Sha256(used)).Success? {
        LiveAfterRevoke(cfg.backend, s.store, now, used, revokeAt, token);
      }
    case Cleanup(_) => assert TokenOk(s.store, Sha256(token));
  }

  lemma {:induction false} UsesWithinIssues(cfg: Config, s: Svc, now: Time, events: seq<Event>, token: Token)
    requires StoreOk(cfg.backend, s.store, now) && Legal(cfg, s, now, events)
    ensures Uses(cfg, s, events, token) + (if Live(Run(cfg, s, events).store, token) then 1 else 0)
            <= (if Live(s.store, token) then 1 else 0) + Issues(cfg, s, events, token)
    decreases |events|
  {
    if events != [] {
      var op, mode := events[0].op, events[0].mode;
      LiveStep(cfg, s, now, op, mode, token);
      StepOk(cfg, s, now, op, mode);
      UsesWithinIssues(cfg, Step(cfg, s, op, mode).0, TimeAfter(now, op), events[1..], token);
    }
  }

  /** In every serial run a refresh token is used at most as often as it was issued. */
  lemma OneUsePerIssue(cfg: Config, now: Time, events: seq<Event>, token: Token)
    requires Legal(cfg, START, now, events)
    ensures Uses(cfg, START, events, token) <= Issues(cfg, START, events, token)
  {
    UsesWithinIssues(cfg, START, now, events, token);
  }

  /**
   * An access token given to RefreshSession is usable only as a refresh token: if it
   * succeeds, the very string was handed out before as a refresh token, in the second
   * seven days less fifteen minutes before the access token's own.
   */
  lemma AccessTokenRefreshesAsRefreshTokenOnly(cfg: Config, now: Time, pre: seq<Event>, sub: Id, a: Time, r: Time,
                                               op: Op, mode: CacheMode)
    requires Legal(cfg, START, now, pre) && op.Refresh? && op.token == Generate(sub, a, r).0
    requires var s := Run(cfg, START, pre);
             ClockOk(EndTime(now, pre), op) && IdsFresh(s.store, op) && Used(op, Step(cfg, s, op, mode).1, op.token)
    ensures Issues(cfg, START, pre, op.token) >= 1
    ensures IssuedSecond(op.token) == Unix(a) + ACCESS_SECONDS - REFRESH_SECONDS <= Unix(EndTime(now, pre))
  {
    var s, t := Run(cfg, START, pre), EndTime(now, pre);
    RunOk(cfg, START, now, pre);
    LiveRefresh(cfg, s.(cache := AfterLosses(s.cache, mode)), t, op, op.token);
    UsesWithinIssues(cfg, START, now, pre, op.token);
    Lookups(cfg.backend, s.store, t, "", Sha256(op.token));
    UnixShift(a, ACCESS_SECONDS);
  }

  // ---------- once revoked in a later second, dead for ever ----------

  /** Not live, and the second in which the token could be issued is over. */
  predicate Spent(st: Store, now: Time, token: Token) {
    !Live(st, token) && (token.Signed? ==> IssuedSecond(token) < Unix(now))
  }

  lemma SpentStep(cfg: Config, s: Svc, now: Time, op: Op, mode: CacheMode, token: Token)
    requires StoreOk(cfg.backend, s.store, now) && ClockOk(now, op) && IdsFresh(s.store, op)
    requires Spent(s.store, now, token)
    ensures var (after, r) := Step(cfg, s, op, mode);
            && Spent(after.store, TimeAfter(now, op), token)
            && (op.Refresh? && op.token == token ==> r == Failed(ERR_INVALID_CREDENTIALS))
  {
    LiveStep(cfg, s, now, op, mode, token);
    UnixMonotone(now, TimeAfter(now, op));
    var (after, r) := Step(cfg, s, op, mode);
    if Issued(r, token) {
      Lookups(cfg.backend, s.store, now, if op.Login? then op.email else "",
              Sha256(if op.Refresh? then op.token else token));
      RefreshTokenSecond(token.sub, op.accessAt, op.refreshAt);
      UnixMonotone(now, op.refreshAt);
      assert false;
    }
  }

  /** Whatever operations follow, every refresh of a spent token is refused. */
  lemma {:induction false} SpentForever(cfg: Config, s: Svc, now: Time, events: seq<Event>, token: Token)
    requires StoreOk(cfg.backend, s.store, now) && Legal(cfg, s, now, events)
    requires Spent(s.store, now, token)
    ensures |Responses(cfg, s, events)| == |events|
    ensures forall k :: 0 <= k < |events| && events[k].op.Refresh? && events[k].op.token == token ==>
              Responses(cfg, s, events)[k] == Failed(ERR_INVALID_CREDENTIALS)
    decreases |events|
  {
    if events != [] {
      var op, mode := events[0].op, events[0].mode;
      SpentStep(cfg, s, now, op, mode, token);
      StepOk(cfg, s, now, op, mode);
      var after := Step(cfg, s, op, mode).0;
      SpentForever(cfg, after, TimeAfter(now, op), events[1..], token);
      forall k | 0 <= k < |events| && events[k].op.Refresh? && events[k].op.token == token
        ensures Responses(cfg, s, events)[k] == Failed(ERR_INVALID_CREDENTIALS)
      {
        if 0 < k {
          assert events[1..][k - 1] == events[k];
          assert Responses(cfg, s, events)[k] == Responses(cfg, after, events[1..])[k - 1];
        }
      }
    }
  }

  /** The operation revokes the token's live session. */
  predicate Revokes(s: Svc, op: Op, token: Token) {
    && Live(s.store, token)
    && (|| (op.Refresh? && op.token == token && Refreshable(s.store, token, op.verifyAt, op.checkAt).Some?)
        || (op.Logout? && op.token == token))
  }

  /** The reading that decides: a refresh re-issues at `refreshAt`, a logout revokes at `revokeAt`. */
  function DecidingReading(op: Op): Time
    requires op.Refresh? || op.Logout?
  {
    if op.Refresh? then op.refreshAt else op.revokeAt
  }

  lemma RevokedInLaterSecondIsSpent(cfg: Config, s: Svc, now: Time, op: Op, mode: CacheMode, token: Token)
    requires StoreOk(cfg.backend, s.store, now) && ClockOk(now, op) && IdsFresh(s.store, op)
    requires Revokes(s, op, token) && token.Signed?
    requires IssuedSecond(token) < Unix(DecidingReading(op))
    ensures Spent(Step(cfg, s, op, mode).0.store, TimeAfter(now, op), token)
  {
    Lookups(cfg.backend, s.store, now, "", Sha256(token));
    UnixMonotone(DecidingReading(op), TimeAfter(now, op));
    if op.Refresh? {
      RefreshTokenSecond(token.sub, op.accessAt, op.refreshAt);
      LiveRefresh(cfg, s.(cache := AfterLosses(s.cache, mode)), now, op, token);
    } else {
      LiveAfterRevoke(cfg.backend, s.store, now, token, op.revokeAt, token);
    }
  }

  /**
   * One use: once a refresh or a logout has revoked the token's session in a later
   * second than the token was issued, no later refresh of it succeeds.
   */
  lemma OneUseAfterRevocation(cfg: Config, now: Time, pre: seq<Event>, e: Event, post: seq<Event>, token: Token)
    requires Legal(cfg, START, now, pre) && token.Signed?
    requires var s, t := Run(cfg, START, pre), EndTime(now, pre);
             && Legal(cfg, s, t, [e] + post)
             && Revokes(s, e.op, token) && IssuedSecond(token) < Unix(DecidingReading(e.op))
    ensures var after := Step(cfg, Run(cfg, START, pre), e.op, e.mode).0;
            forall k :: 0 <= k < |post| && post[k].op.Refresh? && post[k].op.token == token ==>
              |Responses(cfg, after, post)| == |post|
                  && Responses(cfg, after, post)[k] == Failed(ERR_INVALID_CREDENTIALS)
  {
    var s, t := Run(cfg, START, pre), EndTime(now, pre);
    RunOk(cfg, START, now, pre);
    assert ([e] + post)[0] == e && ([e] + post)[1..] == post;
    RevokedInLaterSecondIsSpent(cfg, s, t, e.op, e.mode, token);
    StepOk(cfg, s, t, e.op, e.mode);
    SpentForever(cfg, Step(cfg, s, e.op, e.mode).0, TimeAfter(t, e.op), post, token);
  }

  // ---------- exactly when a refresh kills its token ----------

  /** No continuation of the run can use the token. */
  ghost predicate NeverUsedAgain(cfg: Config, s: Svc, now: Time, token: Token) {
    forall events :: Legal(cfg, s, now, events) ==> Uses(cfg, s, events, token) == 0
  }

  lemma {:induction false} SpentNeverUsed(cfg: Config, s: Svc, now: Time, events: seq<Event>, token: Token)
    requires StoreOk(cfg.backend, s.store, now) && Legal(cfg, s, now, events)
    requires Spent(s.store, now, token)
    ensures Uses(cfg, s, events, token) == 0
    decreases |events|
  {
    if events != [] {
      SpentStep(cfg, s, now, events[0].op, events[0].mode, token);
      StepOk(cfg, s, now, events[0].op, events[0].mode);
      SpentNeverUsed(cfg, Step(cfg, s, events[0].op, events[0].mode).0, TimeAfter(now, events[0].op), events[1..],
          token);
    }
  }

  lemma {:induction false} ExpiredNeverUsed(cfg: Config, s: Svc, now: Time, events: seq<Event>, token: Token)
    requires StoreOk(cfg.backend, s.store, now) && Legal(cfg, s, now, events)
    requires !Alive(token, now)
    ensures Uses(cfg, s, events, token) == 0
    decreases |events|
  {
    if events != [] {
      StepOk(cfg, s, now, events[0].op, events[0].mode);
      ExpiredNeverUsed(cfg, Step(cfg, s, events[0].op, events[0].mode).0, TimeAfter(now, events[0].op), events[1..],
          token);
    }
  }

  /** The refresh to try when the same string came back: all at one instant. */
  function Again(token: Token, t: Time, sid: Id): Event {
    Event(Refresh(token, t, t, t, t, t, t, true, sid), NoCache)
  }

  lemma SameTokenUsable(cfg: Config, s: Svc, now: Time, op: Op, mode: CacheMode, sid: Id)
    requires StoreOk(cfg.backend, s.store, now) && ClockOk(now, op) && IdsFresh(s.store, op)
    requires op.Refresh?
    requires var (after, r) := Step(cfg, s, op, mode);
             r.TokenPair? && r.refresh == op.token && Alive(op.token, op.sessAt) && sid !in after.store.sessions
    ensures cfg.backend.Memory?
    ensures var after := Step(cfg, s, op, mode).0;
            && Legal(cfg, after, op.sessAt, [Again(op.token, op.sessAt, sid)])
            && Uses(cfg, after, [Again(op.token, op.sessAt, sid)], op.token) == 1
  {
    var (after, r) := Step(cfg, s, op, mode);
    var e := Again(op.token, op.sessAt, sid);
    assert [e][1..] == [];
    Lookups(cfg.backend, s.store, now, "", Sha256(op.token));
    assert GetSessionByTokenHash(after.store, Sha256(op.token))
        == Success(NewSession(op.sid, op.token.sub, op.token, op.sessAt));
    assert Refreshable(after.store, op.token, op.sessAt, op.sessAt).Some?;
    assert Step(cfg, after, e.op, e.mode).1.TokenPair?;
    assert Legal(cfg, Step(cfg, after, e.op, e.mode).0, op.sessAt, []);
  }

  /**
   * A successful refresh kills its token exactly when it does not re-issue within
   * the token's own issue second while it is alive; only then is the same string
   * handed back.
   */
  lemma RefreshKillsExactly(cfg: Config, now: Time, pre: seq<Event>, op: Op, mode: CacheMode, sid: Id)
    requires Legal(cfg, START, now, pre) && op.Refresh?
    requires var s, t := Run(cfg, START, pre), EndTime(now, pre);
             && ClockOk(t, op) && IdsFresh(s.store, op)
             && Step(cfg, s, op, mode).1.TokenPair? && sid !in Step(cfg, s, op, mode).0.store.sessions
    ensures var (after, r) := Step(cfg, Run(cfg, START, pre), op, mode);
            && op.token.Signed?
            && (NeverUsedAgain(cfg, after, op.sessAt, op.token)
                <==> !(Unix(op.refreshAt) == IssuedSecond(op.token) && Alive(op.token, op.sessAt)))
            && (r.refresh == op.token <==> Unix(op.refreshAt) == IssuedSecond(op.token))
  {
    var s, t := Run(cfg, START, pre), EndTime(now, pre);
    RunOk(cfg, START, now, pre);
    var (after, r) := Step(cfg, s, op, mode);
    StepOk(cfg, s, t, op, mode);
    Lookups(cfg.backend, s.store, t, "", Sha256(op.token));
    RefreshTokenSecond(op.token.sub, op.accessAt, op.refreshAt);
    UnixMonotone(t, op.refreshAt);
    UnixMonotone(op.refreshAt, op.sessAt);
    if r.refresh == op.token && Alive(op.token, op.sessAt) {
      SameTokenUsable(cfg, s, t, op, mode, sid);
    } else {
      forall events | Legal(cfg, after, op.sessAt, events)
        ensures Uses(cfg, after, events, op.token) == 0
      {
        if Alive(op.token, op.sessAt) {
          RevokedInLaterSecondIsSpent(cfg, s, t, op, mode, op.token);
          SpentNeverUsed(cfg, after, op.sessAt, events, op.token);
        } else {
          ExpiredNeverUsed(cfg, after, op.sessAt, events, op.token);
        }
      }
    }
  }

  // ---------- a concrete run that uses one token twice ----------

  const SAMPLE := Config(Memory, RateLimiter.Config(10 * MINUTE, 100_000), RateLimiter.Rate(200 * MILLISECOND, 10))

  function SampleRun(): seq<Event> {
    [Event(Register("e", "u", "p", true, true, 0, "id", 0), NoCache),
     Event(Login("e", "p", 0, 0, 0, 0, 0, true, "s1"), NoCache),
     Event(Refresh(Signed("id", REFRESH_SECONDS), 0, 0, 0, 0, 0, 0, true, "s2"), NoCache),
     Event(Refresh(Signed("id", REFRESH_SECONDS), 0, 0, 0, 0, 0, 0, true, "s3"), NoCache)]
  }

  lemma SampleLogin(s1: Svc, token: Token)
    requires token == Signed("id", REFRESH_SECONDS)
    requires s1 == Step(SAMPLE, START, SampleRun()[0].op, NoCache).0
    ensures s1.store.sessions == map[]
    ensures var (s2, r) := Step(SAMPLE, s1, SampleRun()[1].op, NoCache);
            s2.store.sessions == map["s1" := NewSession("s1", "id", token, 0)]
                && s2.store.byToken == map[Sha256(token) := "s1"]
            && !SampleRun()[1].op.Refresh?
  {
    assert GetUserByEmail(s1.store, "e") == Success(User("id", "e", "u", Bcrypt("p", 0), 0, 0));
    assert RateLimiter.Pass(SAMPLE.pool, map[], "e", SAMPLE.rate, 0, 0).1;
  }

  /** A refresh at instant 0 of a token issued at instant 0. */
  lemma SampleRefresh(s: Svc, prev: Id, token: Token, sid: Id)
    requires token == Signed("id", REFRESH_SECONDS)
    requires s.store.byToken == map[Sha256(token) := prev] && sid !in s.store.sessions
    requires prev in s.store.sessions && s.store.sessions[prev] == NewSession(prev, "id", token, 0)
    ensures var (after, r) := Step(SAMPLE, s, Refresh(token, 0, 0, 0, 0, 0, 0, true, sid), NoCache);
            && r.TokenPair? && after.store.byToken == map[Sha256(token) := sid]
            && after.store.sessions.Keys == s.store.sessions.Keys + {sid}
            && after.store.sessions[sid] == NewSession(sid, "id", token, 0)
  {
    assert Generate("id", 0, 0).1 == token;
    assert Refreshable(s.store, token, 0, 0) == Some(NewSession(prev, "id", token, 0));
  }

  /** Registered, logged in and refreshed twice within one second: one token string, two uses. */
  lemma SameSecondReuse()
    ensures Legal(SAMPLE, START, 0, SampleRun())
    ensures Uses(SAMPLE, START, SampleRun(), Signed("id", REFRESH_SECONDS)) == 2
  {
    hide Step;
    var token := Signed("id", REFRESH_SECONDS);
    var e := SampleRun();
    var s1 := Step(SAMPLE, START, e[0].op, e[0].mode).0;
    var s2 := Step(SAMPLE, s1, e[1].op, e[1].mode).0;
    SampleLogin(s1, token);
    SampleRefresh(s2, "s1", token, "s2");
    var s3 := Step(SAMPLE, s2, e[2].op, e[2].mode).0;
    SampleRefresh(s3, "s2", token, "s3");
    var s4 := Step(SAMPLE, s3, e[3].op, e[3].mode).0;
    assert e[1..][0] == e[1] && e[2..][0] == e[2] && e[3..][0] == e[3];
    assert e[1..][1..] == e[2..] && e[2..][1..] == e[3..] && e[3..][1..] == [];
    assert Legal(SAMPLE, s4, 0, []) && Uses(SAMPLE, s4, [], token) == 0;
    assert Legal(SAMPLE, s3, 0, e[3..]) && Uses(SAMPLE, s3, e[3..], token) == 1;
    assert Legal(SAMPLE, s2, 0, e[2..]) && Uses(SAMPLE, s2, e[2..], token) == 2;
    assert Legal(SAMPLE, s1, 0, e[1..]) && Uses(SAMPLE, s1, e[1..], token) == 2;
  }
}
