/**
 * How the rows and indexes of the service (internal/user/repo/memory.go) stand for the
 * accounts and the live tokens of ServiceSpec.
 */
module Correspondence {
  import opened Clock
  import opened Tokens
  import opened Repository
  import opened Errors
  import opened UserService
  import opened SessionProofs
  import opened OneUse
  import opened ServiceSpec

  // ---------- accounts ----------

  predicate IsAccount(st: Store, a: Account) {
    a.id in st.users &&
    var u := st.users[a.id];
    u.email == a.email && u.username == a.username && u.passwordHash.Bcrypt? && u.passwordHash.password == a.password
  }

  ghost predicate AccountAgrees(accounts: set<Account>, st: Store, a: Account) {
    a in accounts <==> IsAccount(st, a)
  }

  ghost predicate HasHash(st: Store, id: Id) {
    id in st.users ==> st.users[id].passwordHash.Bcrypt?
  }

  ghost predicate AccountsAgree(accounts: set<Account>, st: Store) {
    && (forall a :: AccountAgrees(accounts, st, a))
    && (forall id :: HasHash(st, id))
  }

  function AccountOf(u: User): Account
    requires u.passwordHash.Bcrypt?
  {
    Account(u.id, u.email, u.username, u.passwordHash.password)
  }

  /** Finding an account by email or id is finding its row. */
  lemma FindByEmail(backend: Backend, accounts: set<Account>, st: Store, now: Time, email: string)
    requires StoreOk(backend, st, now) && AccountsAgree(accounts, st)
    ensures match ByEmail(accounts, email)
            case None => GetUserByEmail(st, email).Failure?
            case Some(a) =>
              var found := GetUserByEmail(st, email);
              found.Success? && found.value.id == a.id && found.value.passwordHash.Bcrypt?
                  && found.value.passwordHash.password == a.password
  {
    Lookups(backend, st, now, email, Sha256(Other("")));
    var r, found := ByEmail(accounts, email), GetUserByEmail(st, email);
    if found.Success? {
      assert HasHash(st, found.value.id) && UserOk(st, found.value.id);
      assert AccountAgrees(accounts, st, AccountOf(found.value));
    }
    if r.Some? {
      assert AccountAgrees(accounts, st, r.value) && UserOk(st, r.value.id);
    }
  }

  lemma FindByID(backend: Backend, accounts: set<Account>, st: Store, now: Time, id: Id)
    requires StoreOk(backend, st, now) && AccountsAgree(accounts, st)
    ensures match ByID(accounts, id)
            case None => GetUserByID(st, id).Failure?
            case Some(a) =>
              var found := GetUserByID(st, id);
              found.Success? && Project(found.value) == Profile(id, a.email, a.username)
  {
    var r := ByID(accounts, id);
    assert UserOk(st, id) && HasHash(st, id);
    if id in st.users {
      assert AccountAgrees(accounts, st, AccountOf(st.users[id]));
    }
    if r.Some? {
      assert AccountAgrees(accounts, st, r.value);
    }
  }

  // ---------- live tokens ----------

  ghost predicate TokenAgrees(s: Spec, st: Store, token: Token) {
    && (token in s.live <==> Live(st, token))
    && (token in s.live ==> s.live[token] == GetSessionByTokenHash(st, Sha256(token)).value.expiresAt)
  }

  /** The index knows only issued tokens, and every issued one that can still be accepted. */
  ghost predicate IssuedAgrees(s: Spec, st: Store, token: Token, now: Time) {
    && (Sha256(token) in st.byToken ==> token in s.issued)
    && (token in s.issued && Alive(token, now) ==> Sha256(token) in st.byToken)
  }

  ghost predicate TokensAgree(s: Spec, st: Store, now: Time) {
    && (forall token :: TokenAgrees(s, st, token))
    && (forall token :: IssuedAgrees(s, st, token, now))
  }

  lemma TokensLater(s: Spec, st: Store, now: Time, later: Time)
    requires TokensAgree(s, st, now) && now <= later
    ensures TokensAgree(s, st, later)
  {
    forall token ensures IssuedAgrees(s, st, token, later) {
      assert IssuedAgrees(s, st, token, now);
    }
  }

  /** Revoking the session of a token takes exactly that token out of the live ones. */
  lemma RevokeAgrees(backend: Backend, s: Spec, st: Store, now: Time, used: Token, at: Time)
    requires StoreOk(backend, st, now) && TokensAgree(s, st, now)
    requires GetSessionByTokenHash(st, Sha256(used)).Success?
    ensures TokensAgree(s.(live := s.live - {used}),
        RevokeSession(st, GetSessionByTokenHash(st, Sha256(used)).value.id, at).0, now)
  {
    var s' := s.(live := s.live - {used});
    Lookups(backend, st, now, "", Sha256(used));
    var after := RevokeSession(st, GetSessionByTokenHash(st, Sha256(used)).value.id, at).0;
    forall token ensures TokenAgrees(s', after, token) && IssuedAgrees(s', after, token, now) {
      assert TokenAgrees(s, st, token) && IssuedAgrees(s, st, token, now);
      assert TokenOk(st, Sha256(token)) && TokenOk(st, Sha256(used));
      LiveAfterRevoke(backend, st, now, used, at, token);
    }
  }

  /** Storing the session of a token just generated is issuing it. */
  lemma IssueAgrees(backend: Backend, s: Spec, st: Store, now: Time, sid: Id, sub: Id, accessAt: Time, refreshAt: Time,
      sessAt: Time)
    requires StoreOk(backend, st, now) && TokensAgree(s, st, now)
    requires sid !in st.sessions && now <= refreshAt
    ensures var (access, refresh) := Generate(sub, accessAt, refreshAt);
            var (after, stored) := StoreSession(backend, st, NewSession(sid, sub, refresh, sessAt));
            var (s', r) := Issue(backend, s, sub, accessAt, refreshAt, sessAt);
            && r == (if stored then TokenPair(access, refresh) else Failed(ERR_INTERNAL))
            && TokensAgree(s', after, now)
  {
    var (access, refresh) := Generate(sub, accessAt, refreshAt);
    var sess := NewSession(sid, sub, refresh, sessAt);
    var (after, stored) := StoreSession(backend, st, sess);
    var s' := Issue(backend, s, sub, accessAt, refreshAt, sessAt).0;
    RefreshTokenSecond(sub, accessAt, refreshAt);
    assert Alive(refresh, now) && IssuedAgrees(s, st, refresh, now);
    forall token ensures TokenAgrees(s', after, token) && IssuedAgrees(s', after, token, now) {
      assert TokenAgrees(s, st, token) && IssuedAgrees(s, st, token, now) && TokenOk(st, Sha256(token));
    }
  }

  /** A cleanup changes nothing that can be told. */
  lemma CleanupAgrees(s: Spec, st: Store, now: Time, at: Time)
    requires StoreOk(Table, st, now) && TokensAgree(s, st, now) && now <= at
    ensures TokensAgree(s, CleanupSessions(st, at), at)
  {
    var after := CleanupSessions(st, at);
    forall token ensures TokenAgrees(s, after, token) && IssuedAgrees(s, after, token, at) {
      var h := Sha256(token);
      assert TokenAgrees(s, st, token) && IssuedAgrees(s, st, token, now) && TokenOk(st, h);
      if h in st.byToken {
        assert RowOk(st, st.byToken[h], now);
      }
    }
  }
}
