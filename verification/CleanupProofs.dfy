/**
 * Housekeeping is invisible: `CleanupOldSessions`
 * (internal/user/sqlc/gen/user.sql.go) run at any points of a serial run changes no
 * response. The store is the session table, whose token hash is unique.
 */
module CleanupProofs {
  import opened Clock
  import opened Tokens
  import opened Repository
  import opened UserService
  import opened SessionProofs
  import RateLimiter

  /** The run without its cleanups. */
  function Erase(events: seq<Event>): seq<Event> {
    if events == [] then []
    else (if events[0].op.Cleanup? then [] else [events[0]]) + Erase(events[1..])
  }

  /** The responses clients see: those of every operation that is not a cleanup. */
  function Visible(cfg: Config, s: Svc, events: seq<Event>): seq<Response>
    decreases |events|
  {
    if events == [] then []
    else
      var (after, r) := Step(cfg, s, events[0].op, events[0].mode);
      (if events[0].op.Cleanup? then [] else [r]) + Visible(cfg, after, events[1..])
  }

  predicate ClocksOk(now: Time, events: seq<Event>)
    decreases |events|
  {
    events == [] || (ClockOk(now, events[0].op) && ClocksOk(TimeAfter(now, events[0].op), events[1..]))
  }

  /** No operation is offered an id that the run without cleanups has already used. */
  predicate IdsNeverRepeat(cfg: Config, s: Svc, events: seq<Event>)
    decreases |events|
  {
    events == [] ||
    (IdsFresh(s.store, events[0].op) && IdsNeverRepeat(cfg, Step(cfg, s, events[0].op, events[0].mode).0, events[1..]))
  }

  ghost predicate RowKept(full: Store, clean: Store, id: Id) {
    id in clean.sessions ==> id in full.sessions && clean.sessions[id] == full.sessions[id]
  }

  /** An index entry that cleanup removed belongs to a token that fails verification from now on. */
  ghost predicate EntryKept(full: Store, clean: Store, h: Digest, now: Time) {
    && (h in clean.byToken ==>
          h in full.byToken && clean.byToken[h] == full.byToken[h] && clean.byToken[h] in clean.sessions)
    && (h in full.byToken && h !in clean.byToken ==> !Alive(h.of, now))
  }

  ghost predicate Simulates(full: Store, clean: Store, now: Time) {
    && full.users == clean.users && full.byEmail == clean.byEmail
    && (forall id :: RowKept(full, clean, id))
    && (forall h :: EntryKept(full, clean, h, now))
  }

  lemma SimulatesLater(full: Store, clean: Store, now: Time, later: Time)
    requires Simulates(full, clean, now) && now <= later
    ensures Simulates(full, clean, later)
  {
    forall h ensures EntryKept(full, clean, h, later) {
      assert EntryKept(full, clean, h, now);
    }
  }

  /** Deleting stale rows only removes tokens that are dead. */
  lemma CleanSimulates(full: Store, clean: Store, now: Time, at: Time)
    requires Simulates(full, clean, now) && StoreOk(Table, full, now) && now <= at
    ensures Simulates(full, CleanupSessions(clean, at), at)
  {
    var after := CleanupSessions(clean, at);
    forall id ensures RowKept(full, after, id) {
      assert RowKept(full, clean, id);
    }
    forall h ensures EntryKept(full, after, h, at) {
      assert EntryKept(full, clean, h, now);
      if h in clean.byToken && h !in after.byToken {
        var id := clean.byToken[h];
        assert RowKept(full, clean, id) && RowOk(full, id, now) && TokenOk(full, h);
      }
    }
  }

  /** A live token is looked up alike; any token found after cleaning was found before. */
  lemma LookupAlike(full: Store, clean: Store, now: Time, token: Token)
    requires Simulates(full, clean, now) && StoreOk(Table, full, now)
    ensures GetSessionByTokenHash(clean, Sha256(token)).Success? || Alive(token, now) ==>
              GetSessionByTokenHash(clean, Sha256(token)) == GetSessionByTokenHash(full, Sha256(token))
  {
    var h := Sha256(token);
    assert EntryKept(full, clean, h, now) && TokenOk(full, h);
    if h in clean.byToken {
      assert RowKept(full, clean, clean.byToken[h]);
    }
  }

  /** Revoking one row in both keeps the correspondence, also when the row was cleaned away. */
  lemma RevokeSimulates(full: Store, clean: Store, now: Time, id: Id, at: Time)
    requires Simulates(full, clean, now)
    ensures Simulates(RevokeSession(full, id, at).0, RevokeSession(clean, id, at).0, now)
  {
    var full', clean' := RevokeSession(full, id, at).0, RevokeSession(clean, id, at).0;
    forall k ensures RowKept(full', clean', k) {
      assert RowKept(full, clean, k) && RowKept(full, clean, id);
    }
    forall h ensures EntryKept(full', clean', h, now) {
      assert EntryKept(full, clean, h, now) && RowKept(full, clean, id);
    }
  }

  /** A token issued now is not one that cleanup made room for, so both tables accept or refuse it alike. */
  lemma StoreSimulates(full: Store, clean: Store, now: Time, sid: Id, userId: Id, accessAt: Time, refreshAt: Time,
      sessAt: Time)
    requires Simulates(full, clean, now) && now <= refreshAt && sid !in full.sessions
    ensures var sess := NewSession(sid, userId, Generate(userId, accessAt, refreshAt).1, sessAt);
            && StoreSession(Table, full, sess).1 == StoreSession(Table, clean, sess).1
            && Simulates(StoreSession(Table, full, sess).0, StoreSession(Table, clean, sess).0, now)
  {
    var token := Generate(userId, accessAt, refreshAt).1;
    var sess := NewSession(sid, userId, token, sessAt);
    RefreshTokenSecond(userId, accessAt, refreshAt);
    assert Alive(token, now);
    assert EntryKept(full, clean, Sha256(token), now);
    assert RowKept(full, clean, sid);
    var full', clean' := StoreSession(Table, full, sess).0, StoreSession(Table, clean, sess).0;
    forall k ensures RowKept(full', clean', k) {
      assert RowKept(full, clean, k);
    }
    forall h ensures EntryKept(full', clean', h, now) {
      assert EntryKept(full, clean, h, now);
    }
  }

  /** Two service states that differ only by cleanup. */
  ghost predicate Alike(full: Svc, clean: Svc, now: Time) {
    full.pool == clean.pool && full.cache == clean.cache && Simulates(full.store, clean.store, now)
  }

  lemma LoginAlike(full: Svc, clean: Svc, now: Time, op: Op, mode: CacheMode)
    requires op.Login? && ClockOk(now, op) && IdsFresh(full.store, op)
    requires Alike(full, clean, now)
    ensures Authenticate(Table, full, op, mode).1 == Authenticate(Table, clean, op, mode).1
    ensures Alike(Authenticate(Table, full, op, mode).0, Authenticate(Table, clean, op, mode).0, now)
  {
    var found := GetUserByEmail(full.store, op.email);
    assert found == GetUserByEmail(clean.store, op.email);
    if found.Success? {
      StoreSimulates(full.store, clean.store, now, op.sid, found.value.id, op.accessAt, op.refreshAt, op.sessAt);
    }
  }

  lemma RefreshAlike(cfg: Config, full: Svc, clean: Svc, now: Time, op: Op)
    requires cfg.backend.Table? && op.Refresh? && ClockOk(now, op) && IdsFresh(full.store, op)
    requires Alike(full, clean, now) && StoreOk(Table, full.store, now)
    ensures RefreshStep(cfg, full, op).1 == RefreshStep(cfg, clean, op).1
    ensures Alike(RefreshStep(cfg, full, op).0, RefreshStep(cfg, clean, op).0, now)
  {
    if Verify(op.token, op.verifyAt).Some? {
      LookupAlike(full.store, clean.store, now, op.token);
      Lookups(Table, full.store, now, "", Sha256(op.token));
      var sess := Refreshable(full.store, op.token, op.verifyAt, op.checkAt);
      assert sess == Refreshable(clean.store, op.token, op.verifyAt, op.checkAt);
      if sess.Some? {
        var h := Sha256(op.token);
        assert EntryKept(full.store, clean.store, h, now) && RowKept(full.store, clean.store, sess.value.id);
        RevokeSimulates(full.store, clean.store, now, sess.value.id, op.revokeAt);
        var full', clean' := RevokeSession(full.store, sess.value.id, op.revokeAt).0,
            RevokeSession(clean.store, sess.value.id, op.revokeAt).0;
        StoreSimulates(full', clean', now, op.sid, sess.value.userId, op.accessAt, op.refreshAt, op.sessAt);
      }
    }
  }

  lemma CleanedRowIsGone(full: Store, clean: Store, now: Time, h: Digest)
    requires Simulates(full, clean, now) && StoreOk(Table, full, now) && StoreOk(Table, clean, now)
    requires h in full.byToken && h !in clean.byToken
    ensures full.byToken[h] !in clean.sessions
  {
    var id := full.byToken[h];
    assert RowKept(full, clean, id) && TokenOk(full, h) && UniqueOk(Table, clean, id);
  }

  lemma LogoutAlike(full: Svc, clean: Svc, now: Time, op: Op)
    requires op.Logout? && Alike(full, clean, now) && StoreOk(Table, full.store, now)
        && StoreOk(Table, clean.store, now)
    ensures LogoutStep(full, op).1 == LogoutStep(clean, op).1
    ensures Alike(LogoutStep(full, op).0, LogoutStep(clean, op).0, now)
  {
    var h := Sha256(op.token);
    LookupAlike(full.store, clean.store, now, op.token);
    Lookups(Table, full.store, now, "", h);
    var inFull, inClean := GetSessionByTokenHash(full.store, h), GetSessionByTokenHash(clean.store, h);
    if inClean.Success? {
      RevokeSimulates(full.store, clean.store, now, inClean.value.id, op.revokeAt);
    } else if inFull.Success? {
      assert EntryKept(full.store, clean.store, h, now);
      CleanedRowIsGone(full.store, clean.store, now, h);
      RevokeSimulates(full.store, clean.store, now, inFull.value.id, op.revokeAt);
    }
  }

  lemma RegisterAlike(full: Svc, clean: Svc, now: Time, op: Op, mode: CacheMode)
    requires op.Register? && Alike(full, clean, now)
    ensures RegisterStep(full, op, mode).1 == RegisterStep(clean, op, mode).1
    ensures Alike(RegisterStep(full, op, mode).0, RegisterStep(clean, op, mode).0, now)
  {
    var full', clean' := RegisterStep(full, op, mode).0, RegisterStep(clean, op, mode).0;
    forall k ensures RowKept(full'.store, clean'.store, k) {
      assert RowKept(full.store, clean.store, k);
    }
    forall h ensures EntryKept(full'.store, clean'.store, h, now) {
      assert EntryKept(full.store, clean.store, h, now);
    }
  }

  lemma GateAlike(cfg: Config, full: Svc, clean: Svc, now: Time, op: Op, mode: CacheMode)
    requires cfg.backend.Table? && op.Login? && ClockOk(now, op) && IdsFresh(full.store, op)
    requires Alike(full, clean, now)
    ensures LoginStep(cfg, full, op, mode).1 == LoginStep(cfg, clean, op, mode).1
    ensures Alike(LoginStep(cfg, full, op, mode).0, LoginStep(cfg, clean, op, mode).0, now)
  {
    var pool := RateLimiter.Pass(cfg.pool, full.pool, op.email, cfg.rate, op.getAt, op.allowAt).0;
    LoginAlike(full.(pool := pool), clean.(pool := pool), now, op, mode);
  }

  lemma GetProfileAlike(full: Svc, clean: Svc, now: Time, op: Op, mode: CacheMode)
    requires op.GetProfile? && Alike(full, clean, now)
    ensures GetProfileStep(full, op, mode).1 == GetProfileStep(clean, op, mode).1
    ensures Alike(GetProfileStep(full, op, mode).0, GetProfileStep(clean, op, mode).0, now)
  {
  }

  lemma FreshInBoth(full: Svc, clean: Svc, now: Time, op: Op)
    requires Simulates(full.store, clean.store, now) && IdsFresh(full.store, op)
    ensures IdsFresh(clean.store, op)
  {
    if op.Login? || op.Refresh? {
      assert RowKept(full.store, clean.store, op.sid);
    }
  }

  /** One operation, executed in both worlds: same response, still alike. */
  lemma StepAlike(cfg: Config, full: Svc, clean: Svc, now: Time, op: Op, mode: CacheMode)
    requires cfg.backend.Table? && !op.Cleanup? && ClockOk(now, op) && IdsFresh(full.store, op)
    requires Alike(full, clean, now) && StoreOk(Table, full.store, now) && StoreOk(Table, clean.store, now)
    ensures Step(cfg, full, op, mode).1 == Step(cfg, clean, op, mode).1
    ensures Alike(Step(cfg, full, op, mode).0, Step(cfg, clean, op, mode).0, now)
  {
    var full0, clean0 := full.(cache := AfterLosses(full.cache, mode)), clean.(cache := AfterLosses(clean.cache, mode));
    assert Alike(full0, clean0, now);
    match op
    case Register(_, _, _, _, _, _, _, _) => RegisterAlike(full0, clean0, now, op, mode);
    case Login(_, _, _, _, _, _, _, _, _) => GateAlike(cfg, full0, clean0, now, op, mode);
    case GetProfile(_) => GetProfileAlike(full0, clean0, now, op, mode);
    case Refresh(_, _, _, _, _, _, _, _, _) => RefreshAlike(cfg, full0, clean0, now, op);
    case Logout(_, _, _) => LogoutAlike(full0, clean0, now, op);
  }

  lemma {:induction false} RunAlike(cfg: Config, full: Svc, clean: Svc, now: Time, events: seq<Event>)
    requires cfg.backend.Table? && ClocksOk(now, events) && IdsNeverRepeat(cfg, full, Erase(events))
    requires Alike(full, clean, now) && StoreOk(Table, full.store, now) && StoreOk(Table, clean.store, now)
    ensures Visible(cfg, clean, events) == Responses(cfg, full, Erase(events))
    decreases |events|
  {
    if events != [] {
      var op, mode, later := events[0].op, events[0].mode, TimeAfter(now, events[0].op);
      if op.Cleanup? {
        CleanSimulates(full.store, clean.store, now, op.now);
        StoreOkLater(Table, full.store, now, later);
        StepOk(cfg, clean, now, op, mode);
        assert Erase(events) == Erase(events[1..]);
        RunAlike(cfg, full, Step(cfg, clean, op, mode).0, later, events[1..]);
      } else {
        assert Erase(events)[0] == events[0] && Erase(events)[1..] == Erase(events[1..]);
        StepAlike(cfg, full, clean, now, op, mode);
        StepOk(cfg, full, now, op, mode);
        FreshInBoth(full, clean, now, op);
        StepOk(cfg, clean, now, op, mode);
        SimulatesLater(Step(cfg, full, op, mode).0.store, Step(cfg, clean, op, mode).0.store, now, later);
        RunAlike(cfg, Step(cfg, full, op, mode).0, Step(cfg, clean, op, mode).0, later, events[1..]);
      }
    }
  }

  /** Cleanups inserted at any points of a serial run change no response of any operation. */
  lemma CleanupIsInvisible(cfg: Config, now: Time, events: seq<Event>)
    requires cfg.backend.Table?
    requires ClocksOk(now, events) && IdsNeverRepeat(cfg, START, Erase(events))
    ensures Visible(cfg, START, events) == Responses(cfg, START, Erase(events))
  {
    RunAlike(cfg, START, START, now, events);
  }
}
