/**
 * Rotation families: every session is tagged with the login that began its chain
 * of refreshes (internal/user/service/service.go, Login, RefreshSession, Logout).
 */
module Families {
  import opened Clock
  import opened Wrappers
  import opened Tokens
  import opened Repository
  import opened UserService
  import opened SessionProofs
  import RateLimiter

  /** A state with the history the statement needs: which login began a session's chain, and three counters. */
  datatype Tagged = Tagged(s: Svc, family: map<Id, nat>, logins: nat, logouts: nat, lost: nat)

  const UNTAGGED := Tagged(START, map[], 0, 0, 0)

  /** The state after an operation; a login founds a family under its own number, a refresh passes it on. */
  function TagStep(cfg: Config, t: Tagged, op: Op, mode: CacheMode): Tagged {
    var (after, r) := Step(cfg, t.s, op, mode);
    var t' := t.(s := after);
    match op
    case Login(_, _, _, _, _, _, _, _, sid) =>
      if r.TokenPair? then t'.(family := t.family[sid := t.logins], logins := t.logins + 1) else t'
    case Refresh(token, verifyAt, checkAt, _, _, _, _, _, sid) =>
      var used := Refreshable(t.s.store, token, verifyAt, checkAt);
      if used.None? then t'
      else if r.TokenPair? && used.value.id in t.family then t'.(family := t.family[sid := t.family[used.value.id]])
      else t'.(lost := t.lost + 1)
    case Logout(token, _, _) =>
      var found := GetSessionByTokenHash(t.s.store, Sha256(token));
      if found.Success? && found.value.revokedAt.None? then t'.(logouts := t.logouts + 1) else t'
    case _ => t'
  }

  function TagRun(cfg: Config, t: Tagged, events: seq<Event>): Tagged
    decreases |events|
  {
    if events == [] then t else TagRun(cfg, TagStep(cfg, t, events[0].op, events[0].mode), events[1..])
  }

  /** The tags ride along: they never change what the service does. */
  lemma {:induction false} TagsAreGhost(cfg: Config, t: Tagged, events: seq<Event>)
    ensures TagRun(cfg, t, events).s == Run(cfg, t.s, events)
    decreases |events|
  {
    if events != [] {
      TagsAreGhost(cfg, TagStep(cfg, t, events[0].op, events[0].mode), events[1..]);
    }
  }

  type Rows = map<Id, Session>

  predicate IsLive(rows: Rows, id: Id) {
    id in rows && rows[id].revokedAt.None?
  }

  function Unrevoked(rows: Rows): set<Id> {
    set id | id in rows && IsLive(rows, id)
  }

  /** Every session stored has a tag, and a tag is the number of a login that has been. */
  predicate FounderOk(rows: Rows, family: map<Id, nat>, logins: nat, id: Id) {
    (id in rows ==> id in family) && (id in family ==> family[id] < logins)
  }

  predicate OneLive(rows: Rows, family: map<Id, nat>, a: Id, b: Id) {
    IsLive(rows, a) && IsLive(rows, b) && a in family && b in family && family[a] == family[b] ==> a == b
  }

  ghost predicate FamiliesOk(rows: Rows, family: map<Id, nat>, logins: nat) {
    && (forall id :: FounderOk(rows, family, logins, id))
    && (forall a, b :: OneLive(rows, family, a, b))
  }

  function Revoked(rows: Rows, id: Id, at: Time): Rows
    requires id in rows
  {
    rows[id := rows[id].(revokedAt := Some(at))]
  }

  lemma RevokeFamily(rows: Rows, family: map<Id, nat>, logins: nat, id: Id, at: Time)
    requires FamiliesOk(rows, family, logins) && id in rows
    ensures FamiliesOk(Revoked(rows, id, at), family, logins)
  {
    var rows' := Revoked(rows, id, at);
    forall k ensures FounderOk(rows', family, logins, k) {
      assert FounderOk(rows, family, logins, k);
    }
    forall a, b ensures OneLive(rows', family, a, b) {
      assert OneLive(rows, family, a, b);
    }
  }

  lemma FoundFamily(rows: Rows, family: map<Id, nat>, logins: nat, sess: Session)
    requires FamiliesOk(rows, family, logins) && sess.id !in rows
    ensures FamiliesOk(rows[sess.id := sess], family[sess.id := logins], logins + 1)
  {
    var rows', family', logins' := rows[sess.id := sess], family[sess.id := logins], logins + 1;
    forall k ensures FounderOk(rows', family', logins', k) {
      assert FounderOk(rows, family, logins, k);
    }
    forall a, b ensures OneLive(rows', family', a, b) {
      assert OneLive(rows, family, a, b) && FounderOk(rows, family, logins, a) && FounderOk(rows, family, logins, b);
    }
  }

  /** A refresh hands the family of the revoked session to the new one. */
  lemma ExtendFamily(rows: Rows, family: map<Id, nat>, logins: nat, used: Id, at: Time, sess: Session)
    requires FamiliesOk(rows, family, logins) && sess.id !in rows && IsLive(rows, used) && used in family
    ensures FamiliesOk(Revoked(rows, used, at)[sess.id := sess], family[sess.id := family[used]], logins)
  {
    var rows', family' := Revoked(rows, used, at)[sess.id := sess], family[sess.id := family[used]];
    assert FounderOk(rows, family, logins, used);
    forall k ensures FounderOk(rows', family', logins, k) {
      assert FounderOk(rows, family, logins, k);
    }
    forall a, b ensures OneLive(rows', family', a, b) {
      assert OneLive(rows, family, a, b) && OneLive(rows, family, a, used) && OneLive(rows, family, b, used);
    }
  }

  lemma CountRevoke(rows: Rows, id: Id, at: Time)
    requires id in rows
    ensures |Unrevoked(Revoked(rows, id, at))| == |Unrevoked(rows)| - if IsLive(rows, id) then 1 else 0
  {
    assert Unrevoked(Revoked(rows, id, at)) == Unrevoked(rows) - {id};
    if !IsLive(rows, id) {
      assert Unrevoked(rows) - {id} == Unrevoked(rows);
    }
  }

  lemma CountStore(rows: Rows, sess: Session)
    requires sess.id !in rows && sess.revokedAt.None?
    ensures |Unrevoked(rows[sess.id := sess])| == |Unrevoked(rows)| + 1
  {
    assert Unrevoked(rows[sess.id := sess]) == Unrevoked(rows) + {sess.id};
  }

  ghost predicate Kept(t: Tagged) {
    && FamiliesOk(t.s.store.sessions, t.family, t.logins)
    && |Unrevoked(t.s.store.sessions)| == t.logins - t.logouts - t.lost
  }

  lemma LoginKeeps(cfg: Config, t: Tagged, op: Op, mode: CacheMode)
    requires op.Login? && IdsFresh(t.s.store, op)
    requires Kept(t)
    ensures Kept(TagStep(cfg, t, op, mode))
  {
    hide RateLimiter.Pass;
    var rows := t.s.store.sessions;
    var (after, r) := Step(cfg, t.s, op, mode);
    if r.TokenPair? {
      var sess := NewSession(op.sid, GetUserByEmail(t.s.store, op.email).value.id, r.refresh, op.sessAt);
      assert after.store.sessions == rows[op.sid := sess];
      FoundFamily(rows, t.family, t.logins, sess);
      CountStore(rows, sess);
    } else {
      assert after.store.sessions == rows;
    }
  }

  lemma RefreshKeeps(cfg: Config, t: Tagged, now: Time, op: Op, mode: CacheMode)
    requires op.Refresh? && IdsFresh(t.s.store, op)
    requires StoreOk(cfg.backend, t.s.store, now) && Kept(t)
    ensures Kept(TagStep(cfg, t, op, mode))
  {
    var rows := t.s.store.sessions;
    var (after, r) := Step(cfg, t.s, op, mode);
    var used := Refreshable(t.s.store, op.token, op.verifyAt, op.checkAt);
    if used.Some? {
      var id := used.value.id;
      Lookups(cfg.backend, t.s.store, now, "", Sha256(op.token));
      CountRevoke(rows, id, op.revokeAt);
      assert FounderOk(rows, t.family, t.logins, id);
      if r.TokenPair? {
        var sess := NewSession(op.sid, used.value.userId, r.refresh, op.sessAt);
        assert after.store.sessions == Revoked(rows, id, op.revokeAt)[op.sid := sess];
        ExtendFamily(rows, t.family, t.logins, id, op.revokeAt, sess);
        CountStore(Revoked(rows, id, op.revokeAt), sess);
      } else {
        assert after.store.sessions == Revoked(rows, id, op.revokeAt);
        RevokeFamily(rows, t.family, t.logins, id, op.revokeAt);
      }
    } else {
      assert after.store.sessions == rows;
    }
  }

  lemma LogoutKeeps(cfg: Config, t: Tagged, now: Time, op: Op, mode: CacheMode)
    requires op.Logout? && StoreOk(cfg.backend, t.s.store, now) && Kept(t)
    ensures Kept(TagStep(cfg, t, op, mode))
  {
    var rows := t.s.store.sessions;
    var found := GetSessionByTokenHash(t.s.store, Sha256(op.token));
    var after := Step(cfg, t.s, op, mode).0;
    if found.Success? {
      Lookups(cfg.backend, t.s.store, now, "", Sha256(op.token));
      assert after.store.sessions == Revoked(rows, found.value.id, op.revokeAt);
      CountRevoke(rows, found.value.id, op.revokeAt);
      RevokeFamily(rows, t.family, t.logins, found.value.id, op.revokeAt);
    } else {
      assert after.store.sessions == rows;
    }
  }

  /** Cleanup deletes rows, but none that is not revoked. */
  lemma CleanupKeeps(cfg: Config, t: Tagged, op: Op, mode: CacheMode)
    requires op.Cleanup? && Kept(t)
    ensures Kept(TagStep(cfg, t, op, mode))
  {
    var rows := t.s.store.sessions;
    var rows' := CleanupSessions(t.s.store, op.now).sessions;
    forall k ensures FounderOk(rows', t.family, t.logins, k) {
      assert FounderOk(rows, t.family, t.logins, k);
    }
    forall a, b ensures OneLive(rows', t.family, a, b) {
      assert OneLive(rows, t.family, a, b);
    }
    assert Unrevoked(rows') == Unrevoked(rows);
  }

  lemma TagStepKeeps(cfg: Config, t: Tagged, now: Time, op: Op, mode: CacheMode)
    requires (op.Cleanup? ==> cfg.backend.Table?) && IdsFresh(t.s.store, op)
    requires StoreOk(cfg.backend, t.s.store, now) && Kept(t)
    ensures Kept(TagStep(cfg, t, op, mode))
  {
    match op
    case Login(_, _, _, _, _, _, _, _, _) => LoginKeeps(cfg, t, op, mode);
    case Refresh(_, _, _, _, _, _, _, _, _) => RefreshKeeps(cfg, t, now, op, mode);
    case Logout(_, _, _) => LogoutKeeps(cfg, t, now, op, mode);
    case Register(_, _, _, _, _, _, _, _) => assert Step(cfg, t.s, op, mode).0.store.sessions == t.s.store.sessions;
    case GetProfile(_) => assert Step(cfg, t.s, op, mode).0.store.sessions == t.s.store.sessions;
    case Cleanup(_) => CleanupKeeps(cfg, t, op, mode);
  }

  lemma {:induction false} FamiliesRun(cfg: Config, t: Tagged, now: Time, events: seq<Event>)
    requires StoreOk(cfg.backend, t.s.store, now) && Legal(cfg, t.s, now, events)
    requires Kept(t)
    ensures Kept(TagRun(cfg, t, events))
    decreases |events|
  {
    if events != [] {
      var op, mode := events[0].op, events[0].mode;
      StepOk(cfg, t.s, now, op, mode);
      TagStepKeeps(cfg, t, now, op, mode);
      FamiliesRun(cfg, TagStep(cfg, t, op, mode), TimeAfter(now, op), events[1..]);
    }
  }

  lemma ReachableKept(cfg: Config, now: Time, events: seq<Event>)
    requires Legal(cfg, START, now, events)
    ensures Kept(TagRun(cfg, UNTAGGED, events))
    ensures TagRun(cfg, UNTAGGED, events).s == Run(cfg, START, events)
  {
    assert Unrevoked(map[]) == {};
    FamiliesRun(cfg, UNTAGGED, now, events);
    TagsAreGhost(cfg, UNTAGGED, events);
  }

  /**
   * In every serial run, on either backend and with cleanups anywhere, each family has
   * at most one session that is not revoked.
   */
  lemma OneLivePerFamily(cfg: Config, now: Time, events: seq<Event>, a: Id, b: Id)
    requires Legal(cfg, START, now, events)
    ensures var t, rows := TagRun(cfg, UNTAGGED, events), Run(cfg, START, events).store.sessions;
            && (a in rows ==> a in t.family && t.family[a] < t.logins)
            && (IsLive(rows, a) && IsLive(rows, b) && a in t.family && b in t.family && t.family[a] == t.family[b]
                ==> a == b)
  {
    ReachableKept(cfg, now, events);
    var t, rows := TagRun(cfg, UNTAGGED, events), Run(cfg, START, events).store.sessions;
    assert FounderOk(rows, t.family, t.logins, a) && OneLive(rows, t.family, a, b);
  }

  /**
   * Conservation: the sessions not revoked number exactly the successful logins less
   * the logouts of such a session less the refreshes that failed after their revoke.
   */
  lemma UnrevokedIsConserved(cfg: Config, now: Time, events: seq<Event>)
    requires Legal(cfg, START, now, events)
    ensures var t := TagRun(cfg, UNTAGGED, events);
            |Unrevoked(Run(cfg, START, events).store.sessions)| == t.logins - t.logouts - t.lost
  {
    ReachableKept(cfg, now, events);
  }
}
