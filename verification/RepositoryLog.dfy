/**
 * The repository against the log of its calls. Every call runs under the mutex,
 * so any interleaving of callers is one sequence of calls; reads are compared
 * with a scan of that sequence.
 */
module RepositoryLog {
  import opened Clock
  import opened Wrappers
  import opened Tokens
  import opened Repository

  /** The calls that write. */
  datatype Call =
    | AddUser(user: User)
    | AddSession(sess: Session)
    | Revoke(id: Id, now: Time)

  function Exec(st: Store, call: Call): Store {
    match call
    case AddUser(user) => CreateUser(st, user).0
    case AddSession(sess) => CreateSession(st, sess)
    case Revoke(id, now) => RevokeSession(st, id, now).0
  }

  function ExecAll(calls: seq<Call>): Store {
    if calls == [] then EMPTY else Exec(ExecAll(calls[..|calls| - 1]), calls[|calls| - 1])
  }

  function UserIds(calls: seq<Call>): set<Id> {
    if calls == [] then {}
    else
      var last := calls[|calls| - 1];
      UserIds(calls[..|calls| - 1]) + if last.AddUser? then {last.user.id} else {}
  }

  function SessionIds(calls: seq<Call>): set<Id> {
    if calls == [] then {}
    else
      var last := calls[|calls| - 1];
      SessionIds(calls[..|calls| - 1]) + if last.AddSession? then {last.sess.id} else {}
  }

  /** `uuid.New` never repeats: no two rows are offered under one id. */
  predicate FreshIds(calls: seq<Call>) {
    calls == [] ||
    var earlier, last := calls[..|calls| - 1], calls[|calls| - 1];
    && FreshIds(earlier)
    && (last.AddUser? ==> last.user.id !in UserIds(earlier))
    && (last.AddSession? ==> last.sess.id !in SessionIds(earlier))
  }

  /** The reference for users: the first row ever offered with this email wins. */
  function FirstWithEmail(calls: seq<Call>, email: string): Option<User> {
    if calls == [] then None
    else
      var earlier := FirstWithEmail(calls[..|calls| - 1], email);
      var last := calls[|calls| - 1];
      if earlier.None? && last.AddUser? && last.user.email == email then Some(last.user) else earlier
  }

  /** The reference for sessions: the row as created, with the time of its last revocation. */
  function RowOf(calls: seq<Call>, id: Id): Option<Session> {
    if calls == [] then None
    else
      var earlier := RowOf(calls[..|calls| - 1], id);
      var last := calls[|calls| - 1];
      if last.AddSession? && last.sess.id == id then Some(last.sess)
      else if last.Revoke? && last.id == id && earlier.Some? then Some(earlier.value.(revokedAt := Some(last.now)))
      else earlier
  }

  /** The id of the latest session created with this hash. */
  function LatestWithHash(calls: seq<Call>, hash: Digest): Option<Id> {
    if calls == [] then None
    else
      var last := calls[|calls| - 1];
      if last.AddSession? && last.sess.tokenHash == hash then Some(last.sess.id)
      else LatestWithHash(calls[..|calls| - 1], hash)
  }

  // ---------- users ----------

  ghost predicate EmailAgrees(calls: seq<Call>, st: Store, e: string) {
    match FirstWithEmail(calls, e)
    case None => e !in st.byEmail
    case Some(u) => u.email == e && e in st.byEmail && st.byEmail[e] == u.id && u.id in st.users && st.users[u.id] == u
  }

  ghost predicate RowAgrees(calls: seq<Call>, st: Store, id: Id) {
    id in st.users ==>
      && id in UserIds(calls)
      && st.users[id].id == id
      && FirstWithEmail(calls, st.users[id].email) == Some(st.users[id])
  }

  ghost predicate UsersAgree(calls: seq<Call>, st: Store) {
    && (forall e :: EmailAgrees(calls, st, e))
    && (forall id :: RowAgrees(calls, st, id))
  }

  lemma UsersAgreeStep(calls: seq<Call>, st: Store)
    requires calls != [] && FreshIds(calls)
    requires UsersAgree(calls[..|calls| - 1], st)
    ensures UsersAgree(calls, Exec(st, calls[|calls| - 1]))
  {
    var earlier, last := calls[..|calls| - 1], calls[|calls| - 1];
    var after := Exec(st, last);
    forall e
      ensures EmailAgrees(calls, after, e)
    {
      assert EmailAgrees(earlier, st, e);
      if last.AddUser? {
        assert RowAgrees(earlier, st, last.user.id);
      }
    }
    forall id
      ensures RowAgrees(calls, after, id)
    {
      assert RowAgrees(earlier, st, id);
      if last.AddUser? {
        assert EmailAgrees(earlier, st, last.user.email);
      }
    }
  }

  lemma {:induction false} UsersRefineLog(calls: seq<Call>)
    requires FreshIds(calls)
    ensures UsersAgree(calls, ExecAll(calls))
  {
    if calls != [] {
      UsersRefineLog(calls[..|calls| - 1]);
      UsersAgreeStep(calls, ExecAll(calls[..|calls| - 1]));
    }
  }

  /** `GetUserByEmail` through the index equals the scan of the log, in every reachable state. */
  lemma EmailLookupIsScan(calls: seq<Call>, email: string)
    requires FreshIds(calls)
    ensures GetUserByEmail(ExecAll(calls), email)
            == match FirstWithEmail(calls, email) case None => Failure(NotFound) case Some(u) => Success(u)
  {
    UsersRefineLog(calls);
    assert EmailAgrees(calls, ExecAll(calls), email);
  }

  /** The index agrees with the rows: it finds a user exactly when that row is stored and has the email. */
  lemma EmailIndexAgrees(calls: seq<Call>, email: string, u: User)
    requires FreshIds(calls)
    ensures GetUserByEmail(ExecAll(calls), email) == Success(u)
            <==> GetUserByID(ExecAll(calls), u.id) == Success(u) && u.email == email
  {
    UsersRefineLog(calls);
    assert EmailAgrees(calls, ExecAll(calls), email);
    assert RowAgrees(calls, ExecAll(calls), u.id);
  }

  /** Whether the call at position `k` created its user. */
  predicate Succeeds(calls: seq<Call>, k: nat)
    requires k < |calls|
  {
    calls[k].AddUser? && CreateUser(ExecAll(calls[..k]), calls[k].user).1.Success?
  }

  lemma {:induction false} FreshPrefix(calls: seq<Call>, k: nat)
    requires FreshIds(calls) && k <= |calls|
    ensures FreshIds(calls[..k])
    decreases |calls|
  {
    if k == |calls| {
      assert calls[..k] == calls;
    } else {
      FreshPrefix(calls[..|calls| - 1], k);
      assert calls[..|calls| - 1][..k] == calls[..k];
    }
  }

  lemma {:induction false} FirstIsStable(calls: seq<Call>, k: nat, email: string)
    requires k <= |calls| && FirstWithEmail(calls[..k], email).Some?
    ensures FirstWithEmail(calls, email) == FirstWithEmail(calls[..k], email)
    decreases |calls| - k
  {
    if k == |calls| {
      assert calls[..k] == calls;
    } else {
      assert calls[..|calls| - 1][..k] == calls[..k];
      FirstIsStable(calls[..|calls| - 1], k, email);
    }
  }

  /** A creation succeeds exactly when it is the first with its email. */
  lemma SucceedsIffFirst(calls: seq<Call>, k: nat)
    requires FreshIds(calls) && k < |calls| && calls[k].AddUser?
    ensures Succeeds(calls, k) <==> FirstWithEmail(calls[..k], calls[k].user.email).None?
    ensures Succeeds(calls, k) ==> FirstWithEmail(calls[..k + 1], calls[k].user.email) == Some(calls[k].user)
  {
    FreshPrefix(calls, k);
    UsersRefineLog(calls[..k]);
    assert EmailAgrees(calls[..k], ExecAll(calls[..k]), calls[k].user.email);
    assert calls[..k + 1][..k] == calls[..k] && calls[..k + 1][k] == calls[k];
  }

  /** At most one creation per email succeeds. */
  lemma OneCreationPerEmail(calls: seq<Call>, k: nat, m: nat)
    requires FreshIds(calls) && k < m < |calls| && Succeeds(calls, k) && Succeeds(calls, m)
    ensures calls[m].user.email != calls[k].user.email
  {
    SucceedsIffFirst(calls, k);
    SucceedsIffFirst(calls, m);
    assert calls[..m][..k + 1] == calls[..k + 1];
    FirstIsStable(calls[..m], k + 1, calls[k].user.email);
  }

  /** A registration that succeeded is found unchanged under both keys for ever after. */
  lemma RegistrationIsFinal(calls: seq<Call>, k: nat)
    requires FreshIds(calls) && k < |calls| && Succeeds(calls, k)
    ensures GetUserByEmail(ExecAll(calls), calls[k].user.email) == Success(calls[k].user)
    ensures GetUserByID(ExecAll(calls), calls[k].user.id) == Success(calls[k].user)
  {
    SucceedsIffFirst(calls, k);
    FirstIsStable(calls, k + 1, calls[k].user.email);
    EmailLookupIsScan(calls, calls[k].user.email);
    EmailIndexAgrees(calls, calls[k].user.email, calls[k].user);
  }

  // ---------- sessions ----------

  ghost predicate SessionAgrees(calls: seq<Call>, st: Store, id: Id) {
    match RowOf(calls, id)
    case None => id !in st.sessions
    case Some(row) => id in SessionIds(calls) && id in st.sessions && st.sessions[id] == row && row.id == id
  }

  ghost predicate TokenAgrees(calls: seq<Call>, st: Store, h: Digest) {
    match LatestWithHash(calls, h)
    case None => h !in st.byToken
    case Some(id) => h in st.byToken && st.byToken[h] == id && id in st.sessions && st.sessions[id].tokenHash == h
  }

  ghost predicate SessionsAgree(calls: seq<Call>, st: Store) {
    && (forall id :: SessionAgrees(calls, st, id))
    && (forall h :: TokenAgrees(calls, st, h))
  }

  lemma SessionsAgreeStep(calls: seq<Call>, st: Store)
    requires calls != [] && FreshIds(calls)
    requires SessionsAgree(calls[..|calls| - 1], st)
    ensures SessionsAgree(calls, Exec(st, calls[|calls| - 1]))
  {
    var earlier, last := calls[..|calls| - 1], calls[|calls| - 1];
    var after := Exec(st, last);
    forall id
      ensures SessionAgrees(calls, after, id)
    {
      assert SessionAgrees(earlier, st, id);
    }
    forall h
      ensures TokenAgrees(calls, after, h)
    {
      assert TokenAgrees(earlier, st, h);
      if last.AddSession? {
        assert SessionAgrees(earlier, st, last.sess.id);
      }
    }
  }

  lemma {:induction false} SessionsRefineLog(calls: seq<Call>)
    requires FreshIds(calls)
    ensures SessionsAgree(calls, ExecAll(calls))
  {
    if calls != [] {
      SessionsRefineLog(calls[..|calls| - 1]);
      SessionsAgreeStep(calls, ExecAll(calls[..|calls| - 1]));
    }
  }

  /** `GetSessionByTokenHash` returns the latest-created session with the hash, as last revoked. */
  lemma TokenLookupIsLatest(calls: seq<Call>, hash: Digest)
    requires FreshIds(calls)
    ensures match LatestWithHash(calls, hash)
            case None => GetSessionByTokenHash(ExecAll(calls), hash) == Failure(NotFound)
            case Some(id) =>
              var row := RowOf(calls, id);
              && row.Some? && row.value.tokenHash == hash
              && GetSessionByTokenHash(ExecAll(calls), hash) == Success(row.value)
  {
    SessionsRefineLog(calls);
    assert TokenAgrees(calls, ExecAll(calls), hash);
    if LatestWithHash(calls, hash).Some? {
      assert SessionAgrees(calls, ExecAll(calls), LatestWithHash(calls, hash).value);
    }
  }

  /** A revoked session stays revoked, whatever calls follow. */
  lemma {:induction false} RevokedStaysRevoked(calls: seq<Call>, k: nat, id: Id)
    requires FreshIds(calls) && k <= |calls|
    requires var st := ExecAll(calls[..k]); id in st.sessions && st.sessions[id].revokedAt.Some?
    ensures var st := ExecAll(calls); id in st.sessions && st.sessions[id].revokedAt.Some?
    decreases |calls| - k
  {
    if k == |calls| {
      assert calls[..k] == calls;
    } else {
      var earlier := calls[..|calls| - 1];
      assert earlier[..k] == calls[..k];
      RevokedStaysRevoked(earlier, k, id);
      SessionsRefineLog(earlier);
      assert SessionAgrees(earlier, ExecAll(earlier), id);
    }
  }
}
