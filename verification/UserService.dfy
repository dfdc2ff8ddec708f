/**
 * The user service (internal/user/service/service.go) and its gRPC projection
 * (internal/user/grpc/server.go): every operation as a step on values.
 *
 * Clock readings, fresh ids, signing failures and the behaviour of the cache are
 * inputs of a step; everything else is computed.
 */
module UserService {
  import opened Clock
  import opened Wrappers
  import opened Tokens
  import opened Repository
  import RateLimiter
  import opened Errors

  // ---------- the cached projection ----------

  /** `userCacheView`: no password hash, times cut to seconds. */
  datatype UserView = UserView(id: Id, email: string, username: string, createdAt: int, updatedAt: int)

  function ToView(u: User): UserView {
    UserView(u.id, u.email, u.username, Unix(u.createdAt), Unix(u.updatedAt))
  }

  function ToUserRow(v: UserView): User {
    User(v.id, v.email, v.username, NoHash, v.createdAt * SECOND, v.updatedAt * SECOND)
  }

  function KeyByEmail(email: string): string {
    "user:email:" + email
  }

  function KeyByID(id: Id): string {
    "user:id:" + id
  }

  type CacheState = map<string, UserView>

  /**
   * What the cache does during one operation. Entries in `lost` expire or are
   * evicted first; a read may fail or miss (`!hit`), and each write may be lost.
   */
  datatype CacheMode = NoCache | Cached(hit: bool, setFirst: bool, setSecond: bool, del: bool, lost: set<string>)

  // ---------- state, operations, responses ----------

  /** Which repository sits below: the in-memory maps, or a table with a unique token hash. */
  datatype Backend = Memory | Table

  datatype Config = Config(backend: Backend, pool: RateLimiter.Config, rate: RateLimiter.Rate)

  datatype Svc = Svc(store: Store, pool: RateLimiter.Pool, cache: CacheState)

  const START := Svc(EMPTY, map[], map[])

  datatype Op =
    | Register(email: string, username: string, password: string,
               valid: bool, hashes: bool, salt: nat, id: Id, now: Time)
    | Login(email: string, password: string, getAt: Time, allowAt: Time,
            accessAt: Time, refreshAt: Time, sessAt: Time, signs: bool, sid: Id)
    | GetProfile(userId: Option<Id>)
    | Refresh(token: Token, verifyAt: Time, checkAt: Time, revokeAt: Time,
              accessAt: Time, refreshAt: Time, sessAt: Time, signs: bool, sid: Id)
    | Logout(token: Token, verifyAt: Time, revokeAt: Time)
    | Cleanup(now: Time)

  datatype Response =
    | Registered(userId: Id)
    | TokenPair(access: Token, refresh: Token)
    | Profile(userId: Id, email: string, username: string)
    | LoggedOut
    | Cleaned
    | Invalid
    | Failed(code: Code)

  // ---------- the cached getters ----------

  function AfterLosses(cache: CacheState, mode: CacheMode): CacheState {
    if mode.Cached? then cache - mode.lost else cache
  }

  /** Both cache keys of a row, each write subject to its own failure. */
  function Remember(cache: CacheState, mode: CacheMode, first: string, second: string, view: UserView): CacheState {
    if mode.NoCache? then cache
    else
      var c := if mode.setFirst then cache[first := view] else cache;
      if mode.setSecond then c[second := view] else c
  }

  /** `getUserByEmail`: always reads the repository, because callers need the hash. */
  function UserByEmail(mode: CacheMode, st: Store, cache: CacheState, email: string)
    : (CacheState, Result<User, RepoError>)
  {
    match GetUserByEmail(st, email)
    case Failure(e) => (cache, Failure(e))
    case Success(u) => (Remember(cache, mode, KeyByEmail(email), KeyByID(u.id), ToView(u)), Success(u))
  }

  /** `getUserByID`: serves the cached view when the cache answers. */
  function UserByID(mode: CacheMode, st: Store, cache: CacheState, id: Id): (CacheState, Result<User, RepoError>) {
    if mode.Cached? && mode.hit && KeyByID(id) in cache then (cache, Success(ToUserRow(cache[KeyByID(id)])))
    else
      match GetUserByID(st, id)
      case Failure(e) => (cache, Failure(e))
      case Success(u) => (Remember(cache, mode, KeyByID(id), KeyByEmail(u.email), ToView(u)), Success(u))
  }

  /** The gRPC response shows three fields of the row. */
  function Project(u: User): Response {
    Profile(u.id, u.email, u.username)
  }

  // ---------- the session table ----------

  /** Creating a session: the table refuses a second row with one token hash. */
  function StoreSession(backend: Backend, st: Store, sess: Session): (Store, bool) {
    if backend.Table? && sess.tokenHash in st.byToken then (st, false) else (CreateSession(st, sess), true)
  }

  /** Rows that housekeeping deletes: revoked, and expired for more than seven days. */
  predicate Stale(row: Session, now: Time) {
    row.revokedAt.Some? && Before(row.expiresAt, now - 7 * DAY)
  }

  /** `CleanupOldSessions`, rows and their index entries. */
  function CleanupSessions(st: Store, now: Time): Store {
    st.(sessions := map id | id in st.sessions && !Stale(st.sessions[id], now) :: st.sessions[id],
        byToken := map h | h in st.byToken
                           && !(st.byToken[h] in st.sessions && Stale(st.sessions[st.byToken[h]], now))
                     :: st.byToken[h])
  }

  function NewSession(sid: Id, userId: Id, token: Token, at: Time): Session {
    Session(sid, userId, Sha256(token), at + REFRESH_TTL, at, None)
  }

  // ---------- the operations ----------

  function RegisterStep(s: Svc, op: Op, mode: CacheMode): (Svc, Response)
    requires op.Register?
  {
    if !op.valid then (s, Invalid)
    else if !op.hashes then (s, Failed(ERR_INTERNAL))
    else
      var (cache, found) := UserByEmail(mode, s.store, s.cache, op.email);
      var s1 := s.(cache := cache);
      if found.Success? then (s1, Failed(ERR_EMAIL_IN_USE))
      else
        var user := User(op.id, op.email, op.username, Bcrypt(op.password, op.salt), op.now, op.now);
        var (store, made) := CreateUser(s.store, user);
        if made.Failure? then (s1, Failed(ERR_INTERNAL))
        else
          var kept := if mode.Cached? && mode.del then cache - {KeyByEmail(op.email), KeyByID(op.id)} else cache;
          (s1.(store := store, cache := kept), Registered(op.id))
  }

  /** Login behind the limiter. */
  function Authenticate(backend: Backend, s: Svc, op: Op, mode: CacheMode): (Svc, Response)
    requires op.Login?
  {
    var (cache, found) := UserByEmail(mode, s.store, s.cache, op.email);
    var s1 := s.(cache := cache);
    if found.Failure? || !ComparePassword(found.value.passwordHash, op.password) then
      (s1, Failed(ERR_INVALID_CREDENTIALS))
    else if !op.signs then (s1, Failed(ERR_INTERNAL))
    else
      var (access, refresh) := Generate(found.value.id, op.accessAt, op.refreshAt);
      var (store, stored) := StoreSession(backend, s.store, NewSession(op.sid, found.value.id, refresh, op.sessAt));
      if !stored then (s1, Failed(ERR_INTERNAL)) else (s1.(store := store), TokenPair(access, refresh))
  }

  function LoginStep(cfg: Config, s: Svc, op: Op, mode: CacheMode): (Svc, Response)
    requires op.Login?
  {
    var (pool, allowed) := RateLimiter.Pass(cfg.pool, s.pool, op.email, cfg.rate, op.getAt, op.allowAt);
    if !allowed then (s.(pool := pool), Failed(ERR_RATE_LIMITED))
    else Authenticate(cfg.backend, s.(pool := pool), op, mode)
  }

  function GetProfileStep(s: Svc, op: Op, mode: CacheMode): (Svc, Response)
    requires op.GetProfile?
  {
    match op.userId
    case None => (s, Failed(ERR_VALIDATION))
    case Some(id) =>
      var (cache, found) := UserByID(mode, s.store, s.cache, id);
      (s.(cache := cache), if found.Success? then Project(found.value) else Failed(ERR_NOT_FOUND))
  }

  /** The session a refresh may use: the token verifies, its session is found, live and unexpired. */
  function Refreshable(st: Store, token: Token, verifyAt: Time, checkAt: Time): Option<Session> {
    if Verify(token, verifyAt).None? then None
    else
      match GetSessionByTokenHash(st, Sha256(token))
      case Failure(_) => None
      case Success(sess) =>
        if sess.revokedAt.Some? || Before(sess.expiresAt, checkAt) then None else Some(sess)
  }

  function RefreshStep(cfg: Config, s: Svc, op: Op): (Svc, Response)
    requires op.Refresh?
  {
    match Refreshable(s.store, op.token, op.verifyAt, op.checkAt)
    case None => (s, Failed(ERR_INVALID_CREDENTIALS))
    case Some(sess) =>
      var (revoked, r) := RevokeSession(s.store, sess.id, op.revokeAt);
      if r.Failure? then (s, Failed(ERR_INTERNAL))
      else if !op.signs then (s.(store := revoked), Failed(ERR_INTERNAL))
      else
        var (access, refresh) := Generate(Verify(op.token, op.verifyAt).value, op.accessAt, op.refreshAt);
        var (store, stored) := StoreSession(cfg.backend, revoked, NewSession(op.sid, sess.userId, refresh, op.sessAt));
        (s.(store := store), if stored then TokenPair(access, refresh) else Failed(ERR_INTERNAL))
  }

  function LogoutStep(s: Svc, op: Op): (Svc, Response)
    requires op.Logout?
  {
    match GetSessionByTokenHash(s.store, Sha256(op.token))
    case Failure(_) => (s, LoggedOut)
    case Success(sess) => (s.(store := RevokeSession(s.store, sess.id, op.revokeAt).0), LoggedOut)
  }

  function Step(cfg: Config, s: Svc, op: Op, mode: CacheMode): (Svc, Response) {
    var s0 := s.(cache := AfterLosses(s.cache, mode));
    match op
    case Register(_, _, _, _, _, _, _, _) => RegisterStep(s0, op, mode)
    case Login(_, _, _, _, _, _, _, _, _) => LoginStep(cfg, s0, op, mode)
    case GetProfile(_) => GetProfileStep(s0, op, mode)
    case Refresh(_, _, _, _, _, _, _, _, _) => RefreshStep(cfg, s0, op)
    case Logout(_, _, _) => LogoutStep(s0, op)
    case Cleanup(now) => (s.(store := CleanupSessions(s.store, now)), Cleaned)
  }

  // ---------- serial runs ----------

  datatype Event = Event(op: Op, mode: CacheMode)

  function Run(cfg: Config, s: Svc, events: seq<Event>): Svc
    decreases |events|
  {
    if events == [] then s else Run(cfg, Step(cfg, s, events[0].op, events[0].mode).0, events[1..])
  }

  function Responses(cfg: Config, s: Svc, events: seq<Event>): seq<Response>
    decreases |events|
  {
    if events == [] then []
    else
      var (after, r) := Step(cfg, s, events[0].op, events[0].mode);
      [r] + Responses(cfg, after, events[1..])
  }

  /** The clock readings of an operation, in the order they are made. */
  function Readings(op: Op): seq<Time> {
    match op
    case Register(_, _, _, _, _, _, _, now) => [now]
    case Login(_, _, getAt, allowAt, accessAt, refreshAt, sessAt, _, _) => [getAt, allowAt, accessAt, refreshAt, sessAt]
    case GetProfile(_) => []
    case Refresh(_, verifyAt, checkAt, revokeAt, accessAt, refreshAt, sessAt, _, _) =>
      [verifyAt, checkAt, revokeAt, accessAt, refreshAt, sessAt]
    case Logout(_, verifyAt, revokeAt) => [verifyAt, revokeAt]
    case Cleanup(now) => [now]
  }

  /** The time after an operation that started no earlier than `now`. */
  function TimeAfter(now: Time, op: Op): Time {
    var r := Readings(op);
    if r == [] then now else r[|r| - 1]
  }

  /** A clock that never runs backwards, within an operation and from one to the next. */
  predicate ClockOk(now: Time, op: Op) {
    match op
    case Register(_, _, _, _, _, _, _, t) => now <= t
    case Login(_, _, getAt, allowAt, accessAt, refreshAt, sessAt, _, _) =>
      now <= getAt <= allowAt <= accessAt <= refreshAt <= sessAt
    case GetProfile(_) => true
    case Refresh(_, verifyAt, checkAt, revokeAt, accessAt, refreshAt, sessAt, _, _) =>
      now <= verifyAt <= checkAt <= revokeAt <= accessAt <= refreshAt <= sessAt
    case Logout(_, verifyAt, revokeAt) => now <= verifyAt <= revokeAt
    case Cleanup(t) => now <= t
  }

  /** `uuid.New` returns an id no row has. */
  predicate IdsFresh(st: Store, op: Op) {
    match op
    case Register(_, _, _, _, _, _, id, _) => id !in st.users
    case Login(_, _, _, _, _, _, _, _, sid) => sid !in st.sessions
    case Refresh(_, _, _, _, _, _, _, _, sid) => sid !in st.sessions
    case _ => true
  }

  /** Serial runs of the five operations; cleanup is a job of the table backend only. */
  ghost predicate Legal(cfg: Config, s: Svc, now: Time, events: seq<Event>)
    decreases |events|
  {
    events == [] ||
    var op := events[0].op;
    && ClockOk(now, op) && IdsFresh(s.store, op)
    && (op.Cleanup? ==> cfg.backend.Table?)
    && Legal(cfg, Step(cfg, s, op, events[0].mode).0, TimeAfter(now, op), events[1..])
  }

  function EndTime(now: Time, events: seq<Event>): Time
    decreases |events|
  {
    if events == [] then now else EndTime(TimeAfter(now, events[0].op), events[1..])
  }
}
