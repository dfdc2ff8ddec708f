/**
 * The user and session store: the in-memory repository
 * (internal/user/repo/memory.go) as a specification on values and as the class
 * whose four maps are updated in place.
 */
module Repository {
  import opened Clock
  import opened Wrappers
  import opened Tokens

  /** A bcrypt hash matches the password it was made from; cached rows carry none. */
  datatype PasswordHash = Bcrypt(password: string, salt: nat) | NoHash

  predicate ComparePassword(hash: PasswordHash, password: string) {
    hash.Bcrypt? && hash.password == password
  }

  datatype User = User(
    id: Id,
    email: string,
    username: string,
    passwordHash: PasswordHash,
    createdAt: Time,
    updatedAt: Time)

  datatype Session = Session(
    id: Id,
    userId: Id,
    tokenHash: Digest,
    expiresAt: Time,
    createdAt: Time,
    revokedAt: Option<Time>)

  datatype RepoError = NotFound | EmailExists | SessionNotFound

  /** Go's zero values, which a map read of a missing key returns. */
  const ZERO_USER := User("", "", "", NoHash, 0, 0)
  const ZERO_SESSION := Session("", "", Sha256(Other("")), 0, 0, None)

  datatype Store = Store(
    users: map<Id, User>,
    byEmail: map<string, Id>,
    sessions: map<Id, Session>,
    byToken: map<Digest, Id>)

  const EMPTY := Store(map[], map[], map[], map[])

  function CreateUser(st: Store, user: User): (Store, Result<User, RepoError>) {
    if user.email in st.byEmail then (st, Failure(EmailExists))
    else (st.(users := st.users[user.id := user], byEmail := st.byEmail[user.email := user.id]), Success(user))
  }

  function GetUserByEmail(st: Store, email: string): Result<User, RepoError> {
    if email !in st.byEmail then Failure(NotFound)
    else if st.byEmail[email] in st.users then Success(st.users[st.byEmail[email]])
    else Success(ZERO_USER)
  }

  function GetUserByID(st: Store, id: Id): Result<User, RepoError> {
    if id in st.users then Success(st.users[id]) else Failure(NotFound)
  }

  function CreateSession(st: Store, sess: Session): Store {
    st.(sessions := st.sessions[sess.id := sess], byToken := st.byToken[sess.tokenHash := sess.id])
  }

  function RevokeSession(st: Store, id: Id, now: Time): (Store, Result<(), RepoError>) {
    if id !in st.sessions then (st, Failure(SessionNotFound))
    else (st.(sessions := st.sessions[id := st.sessions[id].(revokedAt := Some(now))]), Success(()))
  }

  function GetSessionByTokenHash(st: Store, hash: Digest): Result<Session, RepoError> {
    if hash !in st.byToken then Failure(NotFound)
    else if st.byToken[hash] in st.sessions then Success(st.sessions[st.byToken[hash]])
    else Success(ZERO_SESSION)
  }

  /** Two maps of rows and the two indexes over them; each method runs under the mutex. */
  class InMemoryRepo {
    var users: map<Id, User>
    var byEmail: map<string, Id>
    var sessions: map<Id, Session>
    var byToken: map<Digest, Id>

    function View(): Store
      reads this
    {
      Store(users, byEmail, sessions, byToken)
    }

    constructor ()
      ensures View() == EMPTY
    {
      users, byEmail, sessions, byToken := map[], map[], map[], map[];
    }

    method CreateUserRow(user: User) returns (r: Result<User, RepoError>)
      modifies this
      ensures (View(), r) == CreateUser(old(View()), user)
    {
      if user.email in byEmail {
        return Failure(EmailExists);
      }
      users := users[user.id := user];
      byEmail := byEmail[user.email := user.id];
      r := Success(user);
    }

    method FindUserByEmail(email: string) returns (r: Result<User, RepoError>)
      ensures r == GetUserByEmail(View(), email)
    {
      if email !in byEmail {
        return Failure(NotFound);
      }
      var id := byEmail[email];
      r := Success(if id in users then users[id] else ZERO_USER);
    }

    method FindUserByID(id: Id) returns (r: Result<User, RepoError>)
      ensures r == GetUserByID(View(), id)
    {
      if id !in users {
        return Failure(NotFound);
      }
      r := Success(users[id]);
    }

    method CreateSessionRow(sess: Session)
      modifies this
      ensures View() == CreateSession(old(View()), sess)
    {
      sessions := sessions[sess.id := sess];
      byToken := byToken[sess.tokenHash := sess.id];
    }

    method RevokeSessionRow(id: Id, now: Time) returns (r: Result<(), RepoError>)
      modifies this
      ensures (View(), r) == RevokeSession(old(View()), id, now)
    {
      if id !in sessions {
        return Failure(SessionNotFound);
      }
      var sess := sessions[id];
      sess := sess.(revokedAt := Some(now));
      sessions := sessions[id := sess];
      r := Success(());
    }

    method FindSessionByTokenHash(hash: Digest) returns (r: Result<Session, RepoError>)
      ensures r == GetSessionByTokenHash(View(), hash)
    {
      if hash !in byToken {
        return Failure(NotFound);
      }
      var id := byToken[hash];
      r := Success(if id in sessions then sessions[id] else ZERO_SESSION);
    }
  }
}
